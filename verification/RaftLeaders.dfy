/** Steps of leaders and followers: winning, appending, sending, receiving, writing and committing. */
module RaftLeaders {
  import opened Quorum
  import opened LogTypes
  import opened BallotSpec
  import opened RaftNode
  import opened RaftHistory
  import opened RaftGrowth
  import opened RaftInvariant
  import opened RaftSteps
  import opened RaftProtocol
  import opened RaftActions

  // ----- winning an election

  /** A candidate with a quorum of votes is the first and only winner of its term. */
  lemma TermIsFree(id: PeerId, n: Node, h: History, c: Conf)
    requires HistInv(h, c) && NodeInv(id, n, h, c) && n.role == Candidate && Granted(n.votes, c)
    ensures n.term !in h.elections && n.term !in h.leaderLog && n.term >= 1
  {
    assert VoteOk(id, n.term, h);
    if n.term in h.elections {
      OneWinner(n.votes, id, n.term, h, c);
      assert false;
    }
  }

  /** Before a term is decided, nothing can be lost in it. */
  lemma EvolvesBefore(x: Log, y: Log, t: nat, h: History)
    requires Evolves(x, y, t, h) && t !in h.elections
    ensures Evolves(x, y, t - 1, h)
  {
    var hi := t - 1;
    forall m | 1 <= m <= |x| ensures Kept(x, y, m, hi, h) {
      assert Kept(x, y, m, t, h);
      if !(x[..m] <= y) { LostBefore(x[..m], t, t, h, h); }
    }
  }

  /** Every vote the winner counted rests on a disk its starting log evolved from. */
  lemma VoterIsOk(id: PeerId, n: Node, v: PeerId, h: History, k: History, c: Conf)
    requires HistInv(h, c) && NodeInv(id, n, h, c) && n.role == Candidate && n.term !in h.elections
    requires v in n.votes && Grows(h, k) && k.votes == h.votes
    requires n.term in k.elections && k.elections[n.term] == Election(id, n.votes, n.log)
    ensures VoterOk(v, n.term, k)
  {
    assert VoteOk(v, n.term, h) && PendingVoteOk(v, n.term, h);
    var rec := h.votes[(v, n.term)];
    var d :| d in h.disks[id] && Backed(rec, d, n.term, h);
    assert n.log == n.disk;
    EvolvesBefore(d, n.disk, n.term, h);
    EvolvesGrows(d, n.disk, n.term - 1, n.term - 1, h, k);
    ValidGrows(d, h, k);
    assert Backed(k.votes[(v, n.term)], d, n.term, k);
  }

  /** The log a new or appending leader ends up with. */
  lemma AppendedIsValid(log: Log, t: nat, es: Log, h: History, k: History)
    requires ValidLog(log, h) && Grows(h, k)
    requires forall i :: 0 <= i < |es| ==> es[i].term == t
    requires t in k.leaderLog && k.leaderLog[t] == log + es
    ensures ValidLog(log + es, k)
  {
    ValidGrows(log, h, k);
    forall i | 0 <= i < |log + es| ensures Placed(log + es, i, k) {
      if i < |log| {
        assert Placed(log, i, k);
        assert (log + es)[..i + 1] == log[..i + 1];
      }
    }
  }

  lemma NewLeaderOk(id: PeerId, n: Node, es: Log, h: History, k: History, c: Conf)
    requires HistInv(h, c) && NodeInv(id, n, h, c) && n.role == Candidate && n.term >= 1
    requires forall i :: 0 <= i < |es| ==> es[i].term == n.term
    requires Grows(h, k) && k == WithLeader(h, n.term, Election(id, n.votes, n.log), n.log + es)
    ensures LeaderOk(n.term, k)
  {
    LogIsVersion(id, n, h);
    AppendedIsValid(n.log, n.term, es, h, k);
  }

  lemma NewElectionOk(id: PeerId, n: Node, h: History, k: History, c: Conf)
    requires HistInv(h, c) && NodeInv(id, n, h, c) && n.role == Candidate && Granted(n.votes, c)
    requires n.term !in h.elections && Grows(h, k) && k.votes == h.votes
    requires n.term in k.elections && k.elections[n.term] == Election(id, n.votes, n.log)
    ensures ElectionOk(n.term, k, c)
  {
    forall v | v in n.votes ensures VoterOk(v, n.term, k) { VoterIsOk(id, n, v, h, k, c); }
  }

  lemma LeadRecord(id: PeerId, n: Node, es: Log, h: History, k: History, c: Conf)
    requires HistInv(h, c) && NodeInv(id, n, h, c) && n.role == Candidate && Granted(n.votes, c)
    requires forall i :: 0 <= i < |es| ==> es[i].term == n.term
    requires k == WithLeader(h, n.term, Election(id, n.votes, n.log), n.log + es)
    ensures GrowsBy(id, h, k) && NewPiecesOk(h, k, c)
  {
    hide NodeInv, Granted, ElectionOk, LeaderOk, VoteOk, AckOk, DeliveryOk;
    TermIsFree(id, n, h, c);
    assert Grows(h, k);
    NewLeaderOk(id, n, es, h, k, c);
    NewElectionOk(id, n, h, k, c);
  }

  /** What changes in a node when it appends entries of its own term as leader. */
  lemma AppendLogs(id: PeerId, n: Node, es: Log, w: Write, h: History, k: History)
    requires NodeLogs(id, n, h) && Grows(h, k) && k.disks == h.disks
    requires forall i :: 0 <= i < |es| ==> es[i].term == n.term
    requires n.term in k.leaderLog && k.leaderLog[n.term] == n.log + es && w.log == n.log + es
    ensures NodeLogs(id, n.(log := w.log, queue := n.queue + [w]), k)
  {
    LogsGrow(id, n, h, k);
    LogIsVersion(id, n, h);
    AppendedIsValid(n.log, n.term, es, h, k);
    assert VersionOk(w.log, n.term, k);
    EvolvesPrefix(n.log, w.log, n.term, k);
    PushLogs(id, n, w, k);
  }

  lemma AppendReplies(id: PeerId, n: Node, w: Write, h: History, k: History, c: Conf)
    requires NodeReplies(n, h, c) && Grows(h, k) && n.log <= w.log
    requires w.done.Some? ==> w.done.value.LeaderStable?
    ensures NodeReplies(n.(log := w.log, queue := n.queue + [w]), k, c)
  {
    RepliesGrow(n, h, k, c);
    ExtendKeepsLeaderPart(n.log, w.log, n.term, k);
    PushReplies(id, n, w, k, c);
  }

  /** The node a new leader becomes is the old one with an entry appended and the role changed. */
  lemma BecomeLeaderIs(id: PeerId, n: Node, c: Conf)
    ensures var n' := BecomeLeader(id, n, c);
      var es := Entries(n.term, [ConfChange(c)]);
      var w := Write(n.log + es, Some(LeaderStable(|n.log| + 1, |n.log + es|)));
      n' == n.(role := Leader, leaderId := Some(id), votes := {}, log := w.log, queue := n.queue + [w],
               box := Box(|n.log| + 1, FreshBallots(1, c), n.box.committed)) && |es| == 1
  {
    assert [] + FreshBallots(1, c) == FreshBallots(1, c);
  }

  lemma LeadNodeLeads(id: PeerId, n: Node, h: History, k: History, c: Conf)
    requires NodeInv(id, n, h, c) && n.role == Candidate
    requires k == WithLeader(h, n.term, Election(id, n.votes, n.log), BecomeLeader(id, n, c).log)
    ensures NodeLeads(id, BecomeLeader(id, n, c), k, c)
  {
    BecomeLeaderIs(id, n, c);
    assert Versions(n) == [n.log];
    var n' := BecomeLeader(id, n, c);
    assert Versions(n') == [n.log, n'.log];
    assert Rising(Versions(n'), 0);
  }

  lemma LeadNodeCommits(id: PeerId, n: Node, h: History, k: History, c: Conf)
    requires NodeCommits(n, h, c) && Grows(h, k)
    ensures NodeCommits(BecomeLeader(id, n, c), k, c)
  {
    BecomeLeaderIs(id, n, c);
    KnownGrows(n.log[..n.box.committed], n.term, n.term, h, k, c);
    assert BecomeLeader(id, n, c).log[..n.box.committed] == n.log[..n.box.committed];
  }

  lemma LeadNodeLogs(id: PeerId, n: Node, h: History, k: History, c: Conf)
    requires NodeInv(id, n, h, c) && n.term !in h.leaderLog
    requires k == WithLeader(h, n.term, Election(id, n.votes, n.log), BecomeLeader(id, n, c).log) && Grows(h, k)
    ensures NodeLogs(id, BecomeLeader(id, n, c), k) && NodeReplies(BecomeLeader(id, n, c), k, c)
  {
    hide NodeLogs, NodeReplies, NodeVotes, NodeLeads, NodeCommits, Grows;
    var n' := BecomeLeader(id, n, c);
    BecomeLeaderIs(id, n, c);
    var es := Entries(n.term, [ConfChange(c)]);
    var w := Write(n.log + es, Some(LeaderStable(|n.log| + 1, |n.log + es|)));
    var n1 := n.(log := w.log, queue := n.queue + [w]);
    AppendLogs(id, n, es, w, h, k);
    AppendReplies(id, n, w, h, k, c);
    LaterTermLogs(id, n1, n', k);
    SameReplies(n1, n', k, c);
  }

  lemma LeadNodeKeeps(id: PeerId, n: Node, h: History, k: History, c: Conf)
    requires HistInv(h, c) && NodeInv(id, n, h, c) && n.role == Candidate && n.term !in h.elections && n.term !in h.leaderLog
    requires k == WithLeader(h, n.term, Election(id, n.votes, n.log), BecomeLeader(id, n, c).log) && Grows(h, k)
    ensures NodeInv(id, BecomeLeader(id, n, c), k, c)
  {
    hide NodeLogs, NodeLeads, NodeCommits, NodeReplies, HistInv, Grows;
    LeadNodeLogs(id, n, h, k, c);
    LeadNodeLeads(id, n, h, k, c);
    LeadNodeCommits(id, n, h, k, c);
    assert NodeVotes(id, BecomeLeader(id, n, c), k);
  }

  lemma LeadKeeps(s: State, s': State, id: PeerId, c: Conf)
    requires Inv(s, c) && id in s.nodes && s.nodes[id].role == Candidate && Granted(s.nodes[id].votes, c)
    requires var n := s.nodes[id];
      Moves(s, s', id, Effect(BecomeLeader(id, n, c), {}, WithLeader(s.hist, n.term, Election(id, n.votes, n.log), BecomeLeader(id, n, c).log)))
    ensures Inv(s', c)
  {
    hide NodeInv;
    var n := s.nodes[id];
    InvNode(s, id, c);
    TermIsFree(id, n, s.hist, c);
    LeadRecord(id, n, Entries(n.term, [ConfChange(c)]), s.hist, s'.hist, c);
    LeadNodeKeeps(id, n, s.hist, s'.hist, c);
    StepKeepsInv(s, s', id, {}, c);
  }

  // ----- appending as leader

  lemma AppendBallots(b: Box, count: nat, t: nat, h: History, c: Conf)
    requires BallotsOk(b, t, h, c)
    ensures BallotsOk(b.(ballots := b.ballots + FreshBallots(count, c)), t, h, c)
  {
    var b' := b.(ballots := b.ballots + FreshBallots(count, c));
    forall i | 0 <= i < |b'.ballots| ensures BallotAt(b', i, t, h, c) {
      if i < |b.ballots| { assert BallotAt(b, i, t, h, c); }
    }
  }

  lemma ProposeRecord(id: PeerId, n: Node, es: Log, h: History, k: History, c: Conf)
    requires HistInv(h, c) && NodeInv(id, n, h, c) && n.role == Leader
    requires forall i :: 0 <= i < |es| ==> es[i].term == n.term
    requires k == WithLeaderLog(h, n.term, n.log + es)
    ensures GrowsBy(id, h, k) && NewPiecesOk(h, k, c)
  {
    hide NodeLogs, NodeVotes, NodeCommits, NodeReplies, ElectionOk, VoteOk, AckOk, DeliveryOk, BallotsOk;
    assert LogGrows(n.term, h, k);
    assert Grows(h, k);
    assert LeaderOk(n.term, h);
    AppendedIsValid(n.log, n.term, es, h, k);
    assert LeaderOk(n.term, k);
  }

  lemma ProposeNodeLeads(id: PeerId, n: Node, payloads: seq<Payload>, h: History, k: History, c: Conf)
    requires NodeInv(id, n, h, c) && n.role == Leader && Grows(h, k)
    requires k == WithLeaderLog(h, n.term, n.log + Entries(n.term, payloads))
    ensures NodeLeads(id, LeaderAppend(n, payloads, c), k, c)
  {
    var n' := LeaderAppend(n, payloads, c);
    BallotsGrow(n.box, n.term, h, k, c);
    AppendBallots(n.box, |payloads|, n.term, k, c);
    assert Versions(n') == Versions(n) + [n'.log];
    forall i | 0 <= i < |Versions(n')| - 1 ensures Rising(Versions(n'), i) {
      if i < |Versions(n)| - 1 { assert Rising(Versions(n), i); }
    }
  }

  lemma ProposeNodeCommits(n: Node, payloads: seq<Payload>, h: History, k: History, c: Conf)
    requires NodeCommits(n, h, c) && Grows(h, k)
    ensures NodeCommits(LeaderAppend(n, payloads, c), k, c)
  {
    KnownGrows(n.log[..n.box.committed], n.term, n.term, h, k, c);
    assert LeaderAppend(n, payloads, c).log[..n.box.committed] == n.log[..n.box.committed];
  }

  lemma ProposeNodeLogs(id: PeerId, n: Node, payloads: seq<Payload>, h: History, k: History, c: Conf)
    requires NodeInv(id, n, h, c) && n.role == Leader && Grows(h, k)
    requires k == WithLeaderLog(h, n.term, n.log + Entries(n.term, payloads))
    ensures NodeLogs(id, LeaderAppend(n, payloads, c), k) && NodeReplies(LeaderAppend(n, payloads, c), k, c)
  {
    hide NodeLogs, NodeReplies, NodeVotes, NodeLeads, NodeCommits, Grows;
    var es := Entries(n.term, payloads);
    var w := Write(n.log + es, Some(LeaderStable(|n.log| + 1, |n.log + es|)));
    var n1 := n.(log := w.log, queue := n.queue + [w]);
    AppendLogs(id, n, es, w, h, k);
    AppendReplies(id, n, w, h, k, c);
    LaterTermLogs(id, n1, LeaderAppend(n, payloads, c), k);
    SameReplies(n1, LeaderAppend(n, payloads, c), k, c);
  }

  lemma ProposeNodeKeeps(id: PeerId, n: Node, payloads: seq<Payload>, h: History, k: History, c: Conf)
    requires NodeInv(id, n, h, c) && n.role == Leader && Grows(h, k)
    requires k == WithLeaderLog(h, n.term, n.log + Entries(n.term, payloads))
    ensures NodeInv(id, LeaderAppend(n, payloads, c), k, c)
  {
    hide NodeLogs, NodeLeads, NodeCommits, NodeReplies, Grows;
    ProposeNodeLogs(id, n, payloads, h, k, c);
    ProposeNodeLeads(id, n, payloads, h, k, c);
    ProposeNodeCommits(n, payloads, h, k, c);
    assert NodeVotes(id, LeaderAppend(n, payloads, c), k);
  }

  lemma ProposeKeeps(s: State, s': State, id: PeerId, payloads: seq<Payload>, c: Conf)
    requires Inv(s, c) && id in s.nodes && s.nodes[id].role == Leader
    requires var n := s.nodes[id];
      Moves(s, s', id, Effect(LeaderAppend(n, payloads, c), {}, WithLeaderLog(s.hist, n.term, LeaderAppend(n, payloads, c).log)))
    ensures Inv(s', c)
  {
    hide NodeInv;
    var n := s.nodes[id];
    InvNode(s, id, c);
    ProposeRecord(id, n, Entries(n.term, payloads), s.hist, s'.hist, c);
    ProposeNodeKeeps(id, n, payloads, s.hist, s'.hist, c);
    StepKeepsInv(s, s', id, {}, c);
  }

  // ----- sending and receiving entries

  lemma SentIsOk(id: PeerId, n: Node, prev: nat, count: nat, h: History, c: Conf)
    requires NodeInv(id, n, h, c) && n.role == Leader && prev + count <= |n.log|
    ensures RequestOk(MakeAppend(id, n, prev, count), h, c)
  {
  }

  lemma SendKeeps(s: State, s': State, id: PeerId, prev: nat, count: nat, c: Conf)
    requires Inv(s, c) && id in s.nodes && s.nodes[id].role == Leader && prev + count <= |s.nodes[id].log|
    requires Moves(s, s', id, Effect(s.nodes[id], {AppendReq(MakeAppend(id, s.nodes[id], prev, count))}, s.hist))
    ensures Inv(s', c)
  {
    InvNode(s, id, c);
    SentIsOk(id, s.nodes[id], prev, count, s.hist, c);
    QuietStep(s, s', id, s.nodes[id], {AppendReq(MakeAppend(id, s.nodes[id], prev, count))}, c);
  }

  /** A request from the leader of a term is never mistaken for one from a second leader. */
  lemma FollowsSender(id: PeerId, n: Node, req: AppendRequest, h: History, c: Conf)
    requires NodeInv(id, n, h, c) && RequestOk(req, h, c) && req.term >= n.term && req.src != id
    ensures var n1 := CheckStepDown(n, req.term, req.src);
      NodeInv(id, n1, h, c) && n1.leaderId == Some(req.src) && n1.role == Follower && n1.term == req.term
  {
    var n0 := if req.term > n.term || n.role != Follower || n.leaderId.None? then StepDown(n, req.term) else n;
    if n0 != n { StepDownKeeps(id, n, req.term, h, c); }
    if n0.leaderId.None? {
      var n1 := n0.(leaderId := Some(req.src));
      LaterTermLogs(id, n0, n1, h);
      SameReplies(n0, n1, h, c);
      assert Versions(n1) == Versions(n0);
    }
  }

  /** What a heartbeat lets a follower commit is a prefix it shares with its leader. */
  lemma HeartbeatKeeps(id: PeerId, n: Node, req: AppendRequest, h: History, c: Conf)
    requires NodeInv(id, n, h, c) && HistInv(h, c) && FromLeader(n, req, h, c)
    ensures NodeInv(id, n.(box := SetCommitted(n.box, Min(req.committed, req.prev))), h, c)
  {
    var i := Min(req.committed, req.prev);
    MatchedPart(id, n, req.(entries := []), h, c);
    var l := h.leaderLog[req.term];
    assert n.log[..i] == n.log[..req.prev][..i] == l[..i];
    KnownPrefix(l[..i], l[..req.committed], req.term, h, c);
    SetCommittedKeeps(id, n, i, h, c);
  }

  /** Handling a request is never fatal and keeps the node's invariant. */
  lemma ReceiveNodeKeeps(id: PeerId, n: Node, req: AppendRequest, h: History, c: Conf)
    requires NodeInv(id, n, h, c) && HistInv(h, c) && RequestOk(req, h, c) && req.src != id
    ensures Survives(id, HandleAppend(id, n, req), h, c)
    ensures HandleAppend(id, n, req).node.term >= n.term
    ensures var v := HandleAppend(id, n, req); v.reply.Some? && v.reply.value.success ==> !v.reply.value.hasEntries
  {
    hide NodeInv, HistInv;
    if req.term >= n.term {
      var n1 := CheckStepDown(n, req.term, req.src);
      FollowsSender(id, n, req, h, c);
      if TermAt(n1.log, req.prev) == req.prevTerm {
        if req.entries == [] {
          HeartbeatKeeps(id, n1, req, h, c);
        } else {
          FollowerAppendKeeps(id, n1, req, h, c);
        }
      }
    }
  }

  /** The applied index is free to be anything up to the commit index. */
  lemma AppliedFree(id: PeerId, n: Node, applied: nat, h: History, c: Conf)
    requires NodeInv(id, n, h, c) && applied <= n.box.committed
    ensures NodeInv(id, n.(applied := applied), h, c)
  {
    var n' := n.(applied := applied);
    hide Evolves, VersionOk, Known, Turns, Covers, Rising, BallotsOk;
    SameReplies(n, n', h, c);
    assert Versions(n') == Versions(n);
  }

  lemma CommittedStays(id: PeerId, n: Node, req: AppendRequest)
    requires HandleAppend(id, n, req).Handled?
    ensures HandleAppend(id, n, req).node.box.committed >= n.box.committed && HandleAppend(id, n, req).node.applied == n.applied
  {
    hide MatchCount;
  }

  /** The same with an applied index that lags behind. */
  lemma LateNodeKeeps(id: PeerId, n: Node, req: AppendRequest, seen: nat, h: History, c: Conf)
    requires NodeInv(id, n, h, c) && HistInv(h, c) && RequestOk(req, h, c) && req.src != id && seen <= n.applied
    ensures Survives(id, ReceiveAppend(id, n, req, seen), h, c)
    ensures ReceiveAppend(id, n, req, seen).node.term >= n.term
    ensures var v := ReceiveAppend(id, n, req, seen); v.reply.Some? && v.reply.value.success ==> !v.reply.value.hasEntries
  {
    AppliedBounded(id, n, h, c);
    hide NodeInv, HistInv, HandleAppend;
    var late := n.(applied := seen);
    AppliedFree(id, n, seen, h, c);
    ReceiveNodeKeeps(id, late, req, h, c);
    CommittedStays(id, late, req);
    AppliedFree(id, HandleAppend(id, late, req).node, n.applied, h, c);
  }

  lemma AppliedBounded(id: PeerId, n: Node, h: History, c: Conf)
    requires NodeInv(id, n, h, c)
    ensures n.applied <= n.box.committed
  {
  }

  lemma ReceiveKeeps(s: State, s': State, id: PeerId, req: AppendRequest, seen: nat, c: Conf)
    requires Inv(s, c) && id in s.nodes && AppendReq(req) in s.msgs && req.src != id && seen <= s.nodes[id].applied
    requires var v := ReceiveAppend(id, s.nodes[id], req, seen);
      v.Handled? ==> Moves(s, s', id, Effect(v.node, if v.reply.Some? then {AppendRep(v.reply.value)} else {}, s.hist))
    ensures ReceiveAppend(id, s.nodes[id], req, seen).Handled? && Inv(s', c)
  {
    hide NodeInv, ReceiveAppend;
    InvNode(s, id, c);
    InvMsg(s, AppendReq(req), c);
    LateNodeKeeps(id, s.nodes[id], req, seen, s.hist, c);
    var v := ReceiveAppend(id, s.nodes[id], req, seen);
    QuietStep(s, s', id, v.node, if v.reply.Some? then {AppendRep(v.reply.value)} else {}, c);
  }

  // ----- the disk

  lemma DiskRecord(id: PeerId, n: Node, disk: Log, h: History, c: Conf)
    requires HistInv(h, c) && NodeLogs(id, n, h) && ValidLog(disk, h)
    ensures GrowsBy(id, h, WithDisk(h, id, disk)) && NewPiecesOk(h, WithDisk(h, id, disk), c)
  {
    var k := WithDisk(h, id, disk);
    forall m | m in h.disks ensures DisksGrow(m, h, k) {}
    assert Grows(h, k);
    forall m, d | m in k.disks && d in k.disks[m] ensures (m in h.disks && d in h.disks[m]) || ValidLog(d, k) {
      if d == disk { ValidGrows(d, h, k); }
    }
  }

  /** The versions that are left after the oldest disk task. */
  lemma VersionsAfter(n: Node)
    requires n.queue != []
    ensures Versions(DiskStep(n)) == Versions(n)[1..]
  {
  }

  lemma DiskVersions(id: PeerId, n: Node, h: History, k: History)
    requires NodeLogs(id, n, h) && n.queue != [] && Grows(h, k)
    ensures var v' := Versions(DiskStep(n));
      && (forall i :: 0 <= i < |v'| ==> VersionOk(v'[i], n.term, k))
      && (forall i :: 0 <= i < |v'| - 1 ==> Turns(v', i, n.term, k))
  {
    var v, v' := Versions(n), Versions(DiskStep(n));
    VersionsAfter(n);
    forall i | 0 <= i < |v'| ensures VersionOk(v'[i], n.term, k) {
      assert VersionOk(v[i + 1], n.term, h);
      VersionGrows(v[i + 1], n.term, n.term, h, k);
    }
    forall i | 0 <= i < |v'| - 1 ensures Turns(v', i, n.term, k) {
      assert Turns(v, i + 1, n.term, h);
      EvolvesGrows(v[i + 1], v[i + 2], n.term, n.term, h, k);
    }
  }

  /** Every disk this node ever had evolved into the one the next task leaves. */
  lemma OldDisksEvolve(id: PeerId, n: Node, d: Log, h: History, k: History)
    requires NodeLogs(id, n, h) && n.queue != [] && Grows(h, k) && d in h.disks[id]
    ensures VersionOk(d, n.term, k) && Evolves(d, n.queue[0].log, n.term, k)
  {
    assert VersionOk(d, n.term, h) && Evolves(d, n.disk, n.term, h) && Turns(Versions(n), 0, n.term, h);
    VersionGrows(d, n.term, n.term, h, k);
    EvolvesTrans(d, n.disk, n.queue[0].log, n.term, h);
    EvolvesGrows(d, n.queue[0].log, n.term, n.term, h, k);
  }

  lemma DiskNodeLogs(id: PeerId, n: Node, h: History)
    requires NodeLogs(id, n, h) && n.queue != []
    ensures NodeLogs(id, DiskStep(n), WithDisk(h, id, DiskStep(n).disk))
  {
    hide Turns, VersionOk, Evolves, Grows;
    var n' := DiskStep(n);
    var k := WithDisk(h, id, n'.disk);
    DiskGrows(id, n, n'.disk, h);
    DiskVersions(id, n, h, k);
    VersionsAfter(n);
    assert VersionOk(Versions(n')[0], n.term, k);
    EvolvesRefl(n'.disk, n.term, k);
    forall d | d in k.disks[id] ensures VersionOk(d, n.term, k) && Evolves(d, n'.disk, n.term, k) {
      if d in h.disks[id] { OldDisksEvolve(id, n, d, h, k); }
    }
  }

  lemma CoversAfter(n: Node, from: nat, p: Log)
    requires n.queue != [] && Covers(n, from, p)
    ensures Covers(DiskStep(n), if from == 0 then 0 else from - 1, p)
  {
    VersionsAfter(n);
    forall j | (if from == 0 then 0 else from - 1) <= j <= |DiskStep(n).queue| ensures p <= Versions(DiskStep(n))[j] {
      assert Versions(DiskStep(n))[j] == Versions(n)[j + 1];
    }
  }

  lemma DiskNodeReplies(n: Node, h: History, c: Conf)
    requires NodeReplies(n, h, c) && n.queue != []
    ensures NodeReplies(DiskStep(n), h, c)
  {
    var n' := DiskStep(n);
    forall i | 0 <= i < |n'.queue| ensures QueuedOk(i, n', h, c) {
      assert QueuedOk(i + 1, n, h, c);
      if n'.queue[i].done.Some? {
        var r := n'.queue[i].done.value;
        if r.FollowerStable? && r.term == n.term { CoversAfter(n, i + 2, h.leaderLog[r.term][..r.upTo]); }
      }
    }
    forall r | r in n'.ready ensures ReadyOk(r, n', h, c) {
      if r in n.ready {
        assert ReadyOk(r, n, h, c);
        if r.FollowerStable? && r.term == n.term && Covers(n, 0, h.leaderLog[r.term][..r.upTo]) {
          CoversAfter(n, 0, h.leaderLog[r.term][..r.upTo]);
        }
      } else {
        assert QueuedOk(0, n, h, c);
        if r.FollowerStable? && r.term == n.term { CoversAfter(n, 1, h.leaderLog[r.term][..r.upTo]); }
      }
    }
  }

  lemma DiskNodeLeads(id: PeerId, n: Node, h: History, c: Conf)
    requires NodeLeads(id, n, h, c) && n.queue != []
    ensures NodeLeads(id, DiskStep(n), h, c)
  {
    if n.role == Leader {
      var n', v := DiskStep(n), Versions(n);
      VersionsAfter(n);
      assert Rising(v, 0);
      forall i | 0 <= i < |Versions(n')| - 1 ensures Rising(Versions(n'), i) { assert Rising(v, i + 1); }
      assert n.queue[0].log == n'.disk;
      forall i | 0 <= i < |n'.queue| && n'.queue[i].done.Some? ensures OwnStableOk(n'.queue[i].done.value, n'.queue[i].log) {
        assert n'.queue[i] == n.queue[i + 1];
      }
    }
  }

  lemma DiskNodeKeeps(id: PeerId, n: Node, h: History, c: Conf)
    requires HistInv(h, c) && NodeInv(id, n, h, c) && n.queue != []
    ensures NodeInv(id, DiskStep(n), WithDisk(h, id, DiskStep(n).disk), c)
  {
    hide NodeLogs, NodeLeads, NodeReplies, HistInv;
    var n' := DiskStep(n);
    var k := WithDisk(h, id, n'.disk);
    DiskGrows(id, n, n'.disk, h);
    DiskNodeLogs(id, n, h);
    DiskNodeReplies(n, h, c);
    RepliesGrow(n', h, k, c);
    DiskNodeLeads(id, n, h, c);
    LeadsGrow(id, n', h, k, c);
    KnownGrows(n.log[..n.box.committed], n.term, n.term, h, k, c);
  }

  lemma DiskGrows(id: PeerId, n: Node, disk: Log, h: History)
    requires NodeLogs(id, n, h)
    ensures Grows(h, WithDisk(h, id, disk))
  {
    var k := WithDisk(h, id, disk);
    forall m | m in h.disks ensures DisksGrow(m, h, k) {}
  }

  lemma DiskKeeps(s: State, s': State, id: PeerId, c: Conf)
    requires Inv(s, c) && id in s.nodes && s.nodes[id].queue != []
    requires Moves(s, s', id, Effect(DiskStep(s.nodes[id]), {}, WithDisk(s.hist, id, DiskStep(s.nodes[id]).disk)))
    ensures Inv(s', c)
  {
    hide NodeInv;
    var n := s.nodes[id];
    InvNode(s, id, c);
    QueuedIsValid(id, n, s.hist, c);
    DiskRecord(id, n, n.queue[0].log, s.hist, c);
    DiskNodeKeeps(id, n, s.hist, c);
    StepKeepsInv(s, s', id, {}, c);
  }

  lemma QueuedIsValid(id: PeerId, n: Node, h: History, c: Conf)
    requires NodeInv(id, n, h, c)
    ensures NodeLogs(id, n, h) && VersionOk(n.disk, n.term, h)
    ensures n.queue != [] ==> VersionOk(n.queue[0].log, n.term, h) && Evolves(n.disk, n.queue[0].log, n.term, h)
  {
    assert VersionOk(Versions(n)[0], n.term, h);
    if n.queue != [] {
      assert VersionOk(Versions(n)[1], n.term, h);
      assert Turns(Versions(n), 0, n.term, h);
    }
  }

  // ----- restarting from a disk caught in the middle of a task

  lemma TornIsVersion(id: PeerId, n: Node, disk: Log, h: History, c: Conf)
    requires NodeInv(id, n, h, c) && TornDisk(n, disk)
    ensures VersionOk(disk, n.term, h)
    ensures forall d :: d in h.disks[id] ==> Evolves(d, disk, n.term, h)
  {
    QueuedIsValid(id, n, h, c);
    if disk != n.disk {
      var w := n.queue[0].log;
      if n.disk <= disk <= w {
        ValidPrefix(disk, w, h);
        forall d | d in h.disks[id] ensures Evolves(d, disk, n.term, h) {
          assert Evolves(d, n.disk, n.term, h);
          EvolvesUp(d, n.disk, disk, n.term, h);
        }
      } else {
        ValidPrefix(disk, n.disk, h);
        forall d | d in h.disks[id] ensures Evolves(d, disk, n.term, h) {
          assert Evolves(d, n.disk, n.term, h);
          EvolvesTrans(d, n.disk, w, n.term, h);
          EvolvesUp(d, w, disk, n.term, h);
        }
      }
    }
  }

  lemma RestartLogs(id: PeerId, n: Node, disk: Log, h: History, c: Conf)
    requires NodeInv(id, n, h, c) && TornDisk(n, disk)
    ensures NodeLogs(id, Restart(n, disk), WithDisk(h, id, disk))
  {
    var n', k := Restart(n, disk), WithDisk(h, id, disk);
    TornIsVersion(id, n, disk, h, c);
    DiskGrows(id, n, disk, h);
    assert Versions(n') == [disk];
    VersionGrows(disk, n.term, n.term, h, k);
    forall d | d in k.disks[id] ensures VersionOk(d, n.term, k) && Evolves(d, disk, n.term, k) {
      if d in h.disks[id] {
        assert VersionOk(d, n.term, h);
        VersionGrows(d, n.term, n.term, h, k);
        EvolvesGrows(d, disk, n.term, n.term, h, k);
      } else {
        EvolvesRefl(d, n.term, k);
      }
    }
    assert disk in k.disks[id];
  }

  lemma RestartKeeps(id: PeerId, n: Node, disk: Log, h: History, c: Conf)
    requires NodeInv(id, n, h, c) && TornDisk(n, disk)
    ensures NodeInv(id, Restart(n, disk), WithDisk(h, id, disk), c)
  {
    hide NodeLogs;
    RestartLogs(id, n, disk, h, c);
  }

  lemma CrashKeeps(s: State, s': State, id: PeerId, disk: Log, c: Conf)
    requires Inv(s, c) && id in s.nodes && TornDisk(s.nodes[id], disk)
    requires Moves(s, s', id, Effect(Restart(s.nodes[id], disk), {}, WithDisk(s.hist, id, disk)))
    ensures Inv(s', c)
  {
    hide NodeInv, TornDisk;
    var n := s.nodes[id];
    InvNode(s, id, c);
    QueuedIsValid(id, n, s.hist, c);
    TornIsVersion(id, n, disk, s.hist, c);
    DiskRecord(id, n, disk, s.hist, c);
    RestartKeeps(id, n, disk, s.hist, c);
    StepKeepsInv(s, s', id, {}, c);
  }

  /** A crash between sending vote requests and saving the new term. */
  lemma TornElectKeeps(s: State, s': State, id: PeerId, last: LogId, c: Conf)
    requires Inv(s, c) && id in s.nodes && LastIdRead(id, s.nodes[id], last, s.hist)
    requires var n := s.nodes[id];
      Moves(s, s', id, Effect(Restart(n, n.disk), {VoteReq(VoteRequest(id, n.term + 1, last))}, s.hist))
    ensures Inv(s', c)
  {
    hide NodeInv;
    var n := s.nodes[id];
    InvNode(s, id, c);
    RestartKeeps(id, n, n.disk, s.hist, c);
    QueuedIsValid(id, n, s.hist, c);
    assert WithDisk(s.hist, id, n.disk) == s.hist by {
      assert s.hist.disks[id] + {n.disk} == s.hist.disks[id];
      assert s.hist.disks[id := s.hist.disks[id]] == s.hist.disks;
    }
    ClaimIsOk(id, n, last, s.hist, s.hist, c);
    QuietStep(s, s', id, Restart(n, n.disk), {VoteReq(VoteRequest(id, n.term + 1, last))}, c);
  }

  // ----- closures, replies and deliveries

  lemma AckRecord(id: PeerId, n: Node, upTo: nat, h: History, c: Conf)
    requires HistInv(h, c) && NodeInv(id, n, h, c)
    requires n.term in h.leaderLog && 1 <= upTo <= |h.leaderLog[n.term]| && h.leaderLog[n.term][..upTo] <= n.disk
    ensures GrowsBy(id, h, WithAck(h, Ack(id, n.term, upTo)))
    ensures NewPiecesOk(h, WithAck(h, Ack(id, n.term, upTo)), c)
  {
    hide NodeLeads, NodeReplies, NodeCommits, ElectionOk, LeaderOk, VoteOk, DeliveryOk;
    var k := WithAck(h, Ack(id, n.term, upTo));
    assert AckOk(Ack(id, n.term, upTo), k);
  }

  lemma AllGrows(id: PeerId, n: Node, h: History, k: History, c: Conf)
    requires NodeInv(id, n, h, c) && Grows(h, k)
    requires k.disks == h.disks && k.leaderLog == h.leaderLog && k.votes == h.votes && k.elections == h.elections
    ensures NodeInv(id, n, k, c)
  {
    LogsGrow(id, n, h, k);
    LeadsGrow(id, n, h, k, c);
    KnownGrows(n.log[..n.box.committed], n.term, n.term, h, k, c);
    RepliesGrow(n, h, k, c);
  }

  /** Dropping a closure that has run. */
  lemma ReadyShrinks(id: PeerId, n: Node, i: nat, h: History, c: Conf)
    requires NodeInv(id, n, h, c) && i < |n.ready|
    ensures NodeInv(id, n.(ready := n.ready[..i] + n.ready[i + 1..]), h, c)
  {
    var n' := n.(ready := n.ready[..i] + n.ready[i + 1..]);
    LaterTermLogs(id, n, n', h);
    SameReplies(n, n', h, c);
    assert Versions(n') == Versions(n);
  }

  lemma AckGrows(h: History, id: PeerId, n: Node, r: Stable)
    ensures Grows(h, AfterClosure(h, id, n, r))
  {
  }

  /** What a closure may claim: the entries are on this disk, or chosen already. */
  lemma ClosureSupports(id: PeerId, n: Node, i: nat, h: History, c: Conf)
    requires NodeInv(id, n, h, c) && i < |n.ready|
    ensures var r, k := n.ready[i], AfterClosure(h, id, n, n.ready[i]);
      && (r.FollowerStable? && r.term == n.term ==> Supported(id, n.term, r.upTo, k, c))
      && (r.LeaderStable? && n.role == Leader ==> Supported(id, n.term, r.last, k, c))
  {
    hide NodeLogs, NodeVotes, NodeCommits, HistInv, Grows;
    var r := n.ready[i];
    assert ReadyOk(r, n, h, c);
    var k := AfterClosure(h, id, n, r);
    if r.FollowerStable? && r.term == n.term {
      var p := h.leaderLog[r.term][..r.upTo];
      if Known(p, r.term, h, c) {
        AckGrows(h, id, n, r);
        KnownGrows(p, r.term, r.term, h, k, c);
      } else {
        assert p <= Versions(n)[0];
        assert Ack(id, n.term, r.upTo) in k.acks;
      }
    } else if r.LeaderStable? && n.role == Leader {
      assert OwnStableOk(r, n.disk);
      DiskBelowLog(id, n, h, c);
      if r.last >= 1 { assert Ack(id, n.term, r.last) in k.acks; }
    }
  }

  lemma RisingTo(v: seq<Log>, i: nat, j: nat)
    requires i <= j < |v| && forall m {:trigger Rising(v, m)} :: 0 <= m < |v| - 1 ==> Rising(v, m)
    ensures v[i] <= v[j]
  {
    if i < j {
      RisingTo(v, i, j - 1);
      assert Rising(v, j - 1);
      PrefixTrans(v[i], v[j - 1], v[j]);
    }
  }

  lemma DiskBelowLog(id: PeerId, n: Node, h: History, c: Conf)
    requires NodeInv(id, n, h, c) && n.role == Leader
    ensures n.disk <= n.log
  {
    RisingTo(Versions(n), 0, |n.queue|);
  }

  lemma ClosureRecord(id: PeerId, n: Node, r: Stable, h: History, c: Conf)
    requires HistInv(h, c) && NodeInv(id, n, h, c)
    ensures GrowsBy(id, h, AfterClosure(h, id, n, r)) && NewPiecesOk(h, AfterClosure(h, id, n, r), c)
    ensures NodeInv(id, n, AfterClosure(h, id, n, r), c) && HistInv(AfterClosure(h, id, n, r), c)
  {
    hide NodeInv, HistInv, NewPiecesOk, GrowsBy;
    var k := AfterClosure(h, id, n, r);
    SameRecord(id, h, c);
    if k != h {
      AckRecord(id, n, if r.FollowerStable? then r.upTo else r.last, h, c);
      GrowsByGrows(id, h, k);
      AllGrows(id, n, h, k, c);
      HistInvGrows(h, k, c);
    }
  }

  lemma GrowsByGrows(id: PeerId, h: History, k: History)
    requires GrowsBy(id, h, k)
    ensures Grows(h, k)
  {
  }

  /** What a follower commits after its disk write is a prefix it shares with its leader. */
  lemma StableCommits(id: PeerId, n: Node, i: nat, h: History, c: Conf)
    requires NodeInv(id, n, h, c) && i < |n.ready|
    requires n.ready[i].FollowerStable? && n.ready[i].term == n.term
    ensures var m := Min(n.ready[i].committed, n.ready[i].upTo);
      m <= |n.log| && Known(n.log[..m], n.term, h, c)
  {
    var r := n.ready[i];
    assert ReadyOk(r, n, h, c);
    var l := h.leaderLog[n.term];
    var m := Min(r.committed, r.upTo);
    assert n.log[..m] == l[..r.upTo][..m] == l[..m];
    KnownPrefix(l[..m], l[..r.committed], n.term, h, c);
  }

  lemma ClosureNodeKeeps(id: PeerId, n: Node, i: nat, h: History, c: Conf)
    requires HistInv(h, c) && NodeInv(id, n, h, c) && i < |n.ready|
    ensures NodeInv(id, RunStable(id, n, i).0, AfterClosure(h, id, n, n.ready[i]), c)
  {
    hide NodeInv, HistInv, AfterClosure, CommitAt, SetCommitted;
    var r, k := n.ready[i], AfterClosure(h, id, n, n.ready[i]);
    ClosureRecord(id, n, r, h, c);
    ClosureSupports(id, n, i, h, c);
    ReadyShrinks(id, n, i, k, c);
    var n1 := n.(ready := n.ready[..i] + n.ready[i + 1..]);
    if r.LeaderStable? {
      assert LeaderLogsInv(k) by { HistParts(k, c); }
      CommitKeeps(id, n1, r.first, r.last, id, k, c);
    } else if r.term == n.term {
      StableCommits(id, n, i, k, c);
      SetCommittedKeeps(id, n1, Min(r.committed, r.upTo), k, c);
    }
  }

  lemma ClosureReplyOk(id: PeerId, n: Node, i: nat, h: History, c: Conf)
    requires HistInv(h, c) && NodeInv(id, n, h, c) && i < |n.ready|
    ensures var rep := RunStable(id, n, i).1;
      rep.Some? ==> MsgInv(AppendRep(rep.value), AfterClosure(h, id, n, n.ready[i]), c)
  {
    ClosureSupports(id, n, i, h, c);
  }

  lemma ClosureKeeps(s: State, s': State, id: PeerId, i: nat, c: Conf)
    requires Inv(s, c) && id in s.nodes && i < |s.nodes[id].ready|
    requires var r := RunStable(id, s.nodes[id], i);
      Moves(s, s', id, Effect(r.0, if r.1.Some? then {AppendRep(r.1.value)} else {}, AfterClosure(s.hist, id, s.nodes[id], s.nodes[id].ready[i])))
    ensures Inv(s', c)
  {
    hide NodeInv, HistInv, NewPiecesOk, GrowsBy, Inv, MsgInv;
    var n := s.nodes[id];
    InvNode(s, id, c);
    ClosureRecord(id, n, n.ready[i], s.hist, c);
    ClosureNodeKeeps(id, n, i, s.hist, c);
    ClosureReplyOk(id, n, i, s.hist, c);
    var r := RunStable(id, n, i);
    StepKeepsInv(s, s', id, if r.1.Some? then {AppendRep(r.1.value)} else {}, c);
  }

  lemma ReplyNodeKeeps(id: PeerId, n: Node, r: AppendReply, first: nat, h: History, c: Conf)
    requires HistInv(h, c) && NodeInv(id, n, h, c) && MsgInv(AppendRep(r), h, c)
    ensures NodeInv(id, HandleAppendReply(n, r, first), h, c)
  {
    hide NodeInv, HistInv, CommitAt;
    if n.role == Leader && r.reqTerm == n.term {
      if !r.success {
        if r.term > n.term { StepDownKeeps(id, n, r.term, h, c); }
      } else if r.term == n.term && r.hasEntries {
        HistParts(h, c);
        CommitKeeps(id, n, first, r.upTo, r.peer, h, c);
      }
    }
  }

  lemma ReplyKeeps(s: State, s': State, id: PeerId, r: AppendReply, first: nat, c: Conf)
    requires Inv(s, c) && id in s.nodes && AppendRep(r) in s.msgs
    requires Moves(s, s', id, Effect(HandleAppendReply(s.nodes[id], r, first), {}, s.hist))
    ensures Inv(s', c)
  {
    hide NodeInv;
    InvNode(s, id, c);
    InvMsg(s, AppendRep(r), c);
    ReplyNodeKeeps(id, s.nodes[id], r, first, s.hist, c);
    QuietStep(s, s', id, HandleAppendReply(s.nodes[id], r, first), {}, c);
  }

  /** What is applied was chosen. */
  lemma DeliveryIsOk(id: PeerId, n: Node, h: History, k: History, c: Conf)
    requires NodeCommits(n, h, c) && n.applied < n.box.committed
    requires Grows(h, k)
    ensures DeliveryOk(Delivery(id, n.applied + 1, n.log[n.applied]), k, c)
  {
    KnownGrows(n.log[..n.box.committed], n.term, n.term, h, k, c);
    var x := n.log[..n.box.committed];
    var t: nat, i: nat :| t <= n.term && Chosen(t, i, k, c) && x <= k.leaderLog[t][..i];
    assert x[n.applied] == k.leaderLog[t][n.applied];
  }

  lemma DeliveryRecord(id: PeerId, n: Node, h: History, c: Conf)
    requires HistInv(h, c) && NodeInv(id, n, h, c) && n.applied < n.box.committed
    ensures var k := WithDelivery(h, Delivery(id, n.applied + 1, n.log[n.applied]));
      GrowsBy(id, h, k) && NewPiecesOk(h, k, c) && Grows(h, k)
  {
    hide NodeLogs, NodeVotes, NodeLeads, NodeReplies, ElectionOk, LeaderOk, VoteOk, AckOk, DeliveryOk;
    var k := WithDelivery(h, Delivery(id, n.applied + 1, n.log[n.applied]));
    DeliveryIsOk(id, n, h, k, c);
  }

  lemma AppliedNext(id: PeerId, n: Node, h: History, c: Conf)
    requires NodeInv(id, n, h, c) && n.applied < n.box.committed
    ensures NodeInv(id, n.(applied := n.applied + 1), h, c)
  {
    var n' := n.(applied := n.applied + 1);
    LaterTermLogs(id, n, n', h);
    SameReplies(n, n', h, c);
    assert Versions(n') == Versions(n);
  }

  lemma DeliverKeeps(s: State, s': State, id: PeerId, c: Conf)
    requires Inv(s, c) && id in s.nodes && s.nodes[id].applied < s.nodes[id].box.committed && s.nodes[id].applied < |s.nodes[id].log|
    requires var n := s.nodes[id];
      Moves(s, s', id, Effect(n.(applied := n.applied + 1), {}, WithDelivery(s.hist, Delivery(id, n.applied + 1, n.log[n.applied]))))
    ensures Inv(s', c)
  {
    hide NodeInv, HistInv, NewPiecesOk, GrowsBy, Inv, Grows;
    var n := s.nodes[id];
    InvNode(s, id, c);
    DeliveryRecord(id, n, s.hist, c);
    AppliedNext(id, n, s.hist, c);
    AllGrows(id, n.(applied := n.applied + 1), s.hist, s'.hist, c);
    StepKeepsInv(s, s', id, {}, c);
  }
}
