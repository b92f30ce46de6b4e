/** Each handler keeps the invariant of the node it runs on. */
module RaftSteps {
  import opened Quorum
  import opened LogTypes
  import opened BallotSpec
  import opened RaftNode
  import opened RaftHistory
  import opened RaftGrowth
  import opened RaftInvariant

  lemma HistParts(h: History, c: Conf)
    requires HistInv(h, c)
    ensures LeaderLogsInv(h)
  {
  }

  /** The five parts of a node's invariant, for proofs that hide what each of them says. */
  lemma NodeParts(id: PeerId, n: Node, h: History, c: Conf)
    requires NodeInv(id, n, h, c)
    ensures NodeLogs(id, n, h) && NodeVotes(id, n, h) && NodeLeads(id, n, h, c) && NodeCommits(n, h, c) && NodeReplies(n, h, c)
  {
  }

  // ----- stepping down and raising the term

  lemma LaterTermLogs(id: PeerId, n: Node, n': Node, h: History)
    requires NodeLogs(id, n, h) && n'.term >= n.term
    requires n'.log == n.log && n'.disk == n.disk && n'.queue == n.queue
    ensures NodeLogs(id, n', h)
  {
    var v := Versions(n');
    assert v == Versions(n);
    assert Grows(h, h);
    forall i | 0 <= i < |v| ensures VersionOk(v[i], n'.term, h) { assert VersionOk(Versions(n)[i], n.term, h); }
    forall d | d in h.disks[id] ensures VersionOk(d, n'.term, h) { assert VersionOk(d, n.term, h); }
    forall d | d in h.disks[id] ensures Evolves(d, n'.disk, n'.term, h) {
      EvolvesGrows(d, n.disk, n.term, n'.term, h, h);
    }
    forall i | 0 <= i < |v| - 1 ensures Turns(v, i, n'.term, h) {
      assert Turns(Versions(n), i, n.term, h);
      EvolvesGrows(v[i], v[i + 1], n.term, n'.term, h, h);
    }
  }

  lemma SameReplies(n: Node, n': Node, h: History, c: Conf)
    requires NodeReplies(n, h, c) && n'.term >= n.term
    requires n'.log == n.log && n'.disk == n.disk && n'.queue == n.queue
    requires forall r :: r in n'.ready ==> r in n.ready
    ensures NodeReplies(n', h, c)
  {
    assert Versions(n') == Versions(n);
    forall i | 0 <= i < |n'.queue| ensures QueuedOk(i, n', h, c) { assert QueuedOk(i, n, h, c); }
    forall r | r in n'.ready ensures ReadyOk(r, n', h, c) { assert ReadyOk(r, n, h, c); }
  }

  lemma StepDownKeeps(id: PeerId, n: Node, term: nat, h: History, c: Conf)
    requires NodeInv(id, n, h, c)
    ensures NodeInv(id, StepDown(n, term), h, c)
  {
    var n' := StepDown(n, term);
    LaterTermLogs(id, n, n', h);
    SameReplies(n, n', h, c);
    assert Grows(h, h);
    KnownGrows(n.log[..n.box.committed], n.term, n'.term, h, h, c);
  }

  // ----- commit

  lemma SupportedBelow(p: PeerId, t: nat, i: nat, j: nat, h: History, c: Conf)
    requires Supported(p, t, j, h, c) && i <= j
    ensures Supported(p, t, i, h, c)
  {
    var l := h.leaderLog[t];
    assert l[..i] <= l[..j];
    if Known(l[..j], t, h, c) { KnownPrefix(l[..i], l[..j], t, h, c); }
  }

  /** A granted ballot of the leader's own term makes everything up to its index known. */
  lemma GrantedKnown(q: set<PeerId>, t: nat, k: nat, h: History, c: Conf)
    requires t in h.leaderLog && 1 <= k <= |h.leaderLog[t]| && h.leaderLog[t][k - 1].term == t
    requires Granted(q, c) && forall p :: p in q ==> Supported(p, t, k, h, c)
    ensures Known(h.leaderLog[t][..k], t, h, c)
  {
    if !Known(h.leaderLog[t][..k], t, h, c) {
      assert q <= Ackers(t, k, h);
      GrantedMonotone(q, Ackers(t, k, h), c);
      assert Chosen(t, k, h, c);
      assert false;
    }
  }

  ghost predicate BoxLeads(b: Box, t: nat, h: History, c: Conf) {
    && t in h.leaderLog && BallotsOk(b, t, h, c)
    && b.NextIndex() == |h.leaderLog[t]| + 1 && b.committed < b.pendingIndex
    && Known(h.leaderLog[t][..b.committed], t, h, c)
  }

  /** Votes added at [lo, hi) for a peer supported up to the last of them keep every ballot honest. */
  lemma BallotsAfter(b: Box, lo: nat, hi: nat, peer: PeerId, t: nat, h: History, c: Conf)
    requires BallotsOk(b, t, h, c) && 1 <= hi <= |b.ballots|
    requires Supported(peer, t, b.pendingIndex + hi - 1, h, c)
    ensures BallotsOk(Mark(b, lo, hi, peer), t, h, c)
  {
    var b' := Mark(b, lo, hi, peer);
    forall i | 0 <= i < |b'.ballots| ensures BallotAt(b', i, t, h, c) {
      assert BallotAt(b, i, t, h, c);
      if lo <= i < hi { SupportedBelow(peer, t, b.pendingIndex + i, b.pendingIndex + hi - 1, h, c); }
    }
  }

  /** Dropping ballots leaves the rest honest. */
  lemma PopKeeps(b: Box, r: nat, t: nat, h: History, c: Conf)
    requires BallotsOk(b, t, h, c) && 1 <= r <= |b.ballots|
    ensures BallotsOk(Pop(b, r), t, h, c)
  {
    var b' := Pop(b, r);
    forall i | 0 <= i < |b'.ballots| ensures BallotAt(b', i, t, h, c) {
      assert BallotAt(b, r + i, t, h, c);
    }
  }

  /** The last granted ballot makes everything up to its index known. */
  lemma GrantPointKnown(b: Box, lo: nat, hi: nat, t: nat, h: History, c: Conf)
    requires BallotsOk(b, t, h, c) && LeaderLogsInv(h) && t in h.leaderLog && t in h.elections
    requires b.pendingIndex > |h.elections[t].start| && b.NextIndex() == |h.leaderLog[t]| + 1
    requires hi <= |b.ballots| && LastGranted(b.ballots, lo, hi) > lo
    ensures Known(h.leaderLog[t][..b.pendingIndex + LastGranted(b.ballots, lo, hi) - 1], t, h, c)
  {
    var r := LastGranted(b.ballots, lo, hi);
    var k := b.pendingIndex + r - 1;
    LastGrantedIsLast(b.ballots, lo, hi);
    LeaderLogTerms(t, k - 1, h);
    assert BallotAt(b, r - 1, t, h, c);
    GrantedKnown(b.ballots[r - 1].votes, t, k, h, c);
  }

  lemma SettleKeeps(b: Box, lo: nat, hi: nat, t: nat, h: History, c: Conf)
    requires BallotsOk(b, t, h, c) && LeaderLogsInv(h) && t in h.leaderLog && t in h.elections
    requires b.pendingIndex > |h.elections[t].start| && b.NextIndex() == |h.leaderLog[t]| + 1
    requires b.committed < b.pendingIndex && hi <= |b.ballots|
    requires Known(h.leaderLog[t][..b.committed], t, h, c)
    ensures BoxLeads(Settle(b, lo, hi), t, h, c)
    ensures Settle(b, lo, hi).pendingIndex >= b.pendingIndex
  {
    var r := LastGranted(b.ballots, lo, hi);
    if r > lo {
      GrantPointKnown(b, lo, hi, t, h, c);
      PopKeeps(b, r, t, h, c);
    }
  }

  lemma CommitInRange(b: Box, lo: nat, hi: nat, peer: PeerId, t: nat, h: History, c: Conf)
    requires BoxLeads(b, t, h, c) && LeaderLogsInv(h) && t in h.elections
    requires b.pendingIndex > |h.elections[t].start| && 1 <= hi <= |b.ballots|
    requires Supported(peer, t, b.pendingIndex + hi - 1, h, c)
    ensures BoxLeads(Settle(Mark(b, lo, hi, peer), lo, hi), t, h, c)
    ensures Settle(Mark(b, lo, hi, peer), lo, hi).pendingIndex >= b.pendingIndex
  {
    BallotsAfter(b, lo, hi, peer, t, h, c);
    SettleKeeps(Mark(b, lo, hi, peer), lo, hi, t, h, c);
  }

  /** BallotBox::commit_at for a peer that really has what it says. */
  lemma CommitBox(b: Box, first: nat, last: nat, peer: PeerId, t: nat, h: History, c: Conf)
    requires BoxLeads(b, t, h, c) && LeaderLogsInv(h) && t in h.elections
    requires b.pendingIndex > |h.elections[t].start|
    requires Supported(peer, t, last, h, c)
    ensures BoxLeads(CommitAt(b, first, last, peer).0, t, h, c)
    ensures CommitAt(b, first, last, peer).0.pendingIndex >= b.pendingIndex
  {
    hide BoxLeads, LeaderLogsInv, Supported, Settle, Mark;
    if b.pendingIndex <= last < b.NextIndex() {
      var lo := if first <= b.pendingIndex then 0 else first - b.pendingIndex;
      CommitInRange(b, lo, last + 1 - b.pendingIndex, peer, t, h, c);
    }
  }

  lemma CommitKeeps(id: PeerId, n: Node, first: nat, last: nat, peer: PeerId, h: History, c: Conf)
    requires NodeInv(id, n, h, c) && LeaderLogsInv(h)
    requires n.role == Leader ==> Supported(peer, n.term, last, h, c)
    ensures NodeInv(id, n.(box := CommitAt(n.box, first, last, peer).0), h, c)
  {
    var n' := n.(box := CommitAt(n.box, first, last, peer).0);
    if n.role == Leader { CommitBox(n.box, first, last, peer, n.term, h, c); }
    assert Versions(n') == Versions(n);
    LaterTermLogs(id, n, n', h);
    SameReplies(n, n', h, c);
  }

  lemma SetCommittedKeeps(id: PeerId, n: Node, index: nat, h: History, c: Conf)
    requires NodeInv(id, n, h, c) && index <= |n.log| && Known(n.log[..index], n.term, h, c)
    ensures NodeInv(id, n.(box := SetCommitted(n.box, index)), h, c)
  {
    var n' := n.(box := SetCommitted(n.box, index));
    LaterTermLogs(id, n, n', h);
    SameReplies(n, n', h, c);
    assert Versions(n') == Versions(n);
    if n.role == Leader {
      assert n'.box == n.box;
    }
  }

  // ----- a follower appends

  /** Where `x` agrees with the log of the leader of `t`, `y` agrees with `x`. */
  ghost predicate KeepsLeaderPart(x: Log, y: Log, t: nat, h: History) {
    forall p: Log :: t in h.leaderLog && IsPrefix(p, x) && IsPrefix(p, h.leaderLog[t]) ==> IsPrefix(p, y)
  }

  predicate IsPrefix(p: Log, x: Log) { p <= x }

  lemma PushLogs(id: PeerId, n: Node, w: Write, h: History)
    requires NodeLogs(id, n, h) && VersionOk(w.log, n.term, h) && Evolves(n.log, w.log, n.term, h)
    ensures NodeLogs(id, n.(log := w.log, queue := n.queue + [w]), h)
  {
    var n' := n.(log := w.log, queue := n.queue + [w]);
    var v, v' := Versions(n), Versions(n');
    assert v' == v + [w.log];
    forall i | 0 <= i < |v'| ensures VersionOk(v'[i], n.term, h) {
      if i < |v| { assert VersionOk(v[i], n.term, h); }
    }
    forall i | 0 <= i < |v'| - 1 ensures Turns(v', i, n.term, h) {
      if i < |v| - 1 { assert Turns(v, i, n.term, h); }
    }
  }

  lemma StillReplies(n: Node, r: Stable, log: Log, h: History, c: Conf)
    requires ReplyOk(r, n, h, c) && KeepsLeaderPart(n.log, log, n.term, h)
    ensures r.FollowerStable? && r.term == n.term ==> h.leaderLog[r.term][..r.upTo] <= log
  {
    if r.FollowerStable? && r.term == n.term {
      var p := h.leaderLog[r.term][..r.upTo];
      assert IsPrefix(p, n.log) && IsPrefix(p, h.leaderLog[n.term]);
      assert IsPrefix(p, log);
    }
  }

  lemma PushReplies(id: PeerId, n: Node, w: Write, h: History, c: Conf)
    requires NodeReplies(n, h, c) && KeepsLeaderPart(n.log, w.log, n.term, h)
    requires w.done.Some? ==> ReplyOk(w.done.value, n.(log := w.log), h, c)
    ensures NodeReplies(n.(log := w.log, queue := n.queue + [w]), h, c)
  {
    var n' := n.(log := w.log, queue := n.queue + [w]);
    var v, v' := Versions(n), Versions(n');
    assert v' == v + [w.log];
    forall i | 0 <= i < |n'.queue| ensures QueuedOk(i, n', h, c) {
      if i < |n.queue| {
        assert QueuedOk(i, n, h, c);
        if n.queue[i].done.Some? { StillReplies(n, n.queue[i].done.value, w.log, h, c); }
      }
    }
    forall r | r in n'.ready ensures ReadyOk(r, n', h, c) {
      assert ReadyOk(r, n, h, c);
      StillReplies(n, r, w.log, h, c);
    }
  }

  lemma PushKeeps(id: PeerId, n: Node, w: Write, h: History, c: Conf)
    requires NodeInv(id, n, h, c) && n.role == Follower
    requires VersionOk(w.log, n.term, h) && Evolves(n.log, w.log, n.term, h)
    requires KeepsLeaderPart(n.log, w.log, n.term, h)
    requires w.done.Some? ==> ReplyOk(w.done.value, n.(log := w.log), h, c)
    requires n.log[..n.box.committed] <= w.log
    ensures NodeInv(id, n.(log := w.log, queue := n.queue + [w]), h, c)
  {
    PushLogs(id, n, w, h);
    PushReplies(id, n, w, h, c);
    assert w.log[..n.box.committed] == n.log[..n.box.committed];
  }

  // ----- a follower takes entries from its leader

  /** The leader that sent `req` and the log it had; the follower agrees with it up to `prev`. */
  ghost predicate FromLeader(n: Node, req: AppendRequest, h: History, c: Conf) {
    && RequestOk(req, h, c) && req.term == n.term && n.role == Follower
    && TermAt(n.log, req.prev) == req.prevTerm
  }

  lemma LogIsVersion(id: PeerId, n: Node, h: History)
    requires NodeLogs(id, n, h)
    ensures VersionOk(n.log, n.term, h)
  {
    assert VersionOk(Versions(n)[|n.queue|], n.term, h);
  }

  lemma LeaderPrefixIsVersion(t: nat, k: nat, h: History)
    requires LeaderLogsInv(h) && t in h.leaderLog && k <= |h.leaderLog[t]|
    ensures VersionOk(h.leaderLog[t][..k], t, h)
  {
    assert LeaderOk(t, h);
    ValidPrefix(h.leaderLog[t][..k], h.leaderLog[t], h);
    forall i | 0 <= i < k ensures h.leaderLog[t][i].term < t + 1 { LeaderLogTerms(t, i, h); }
  }

  /** What the consistency check and the term comparison establish. */
  lemma MatchedPart(id: PeerId, n: Node, req: AppendRequest, h: History, c: Conf)
    requires NodeLogs(id, n, h) && LeaderLogsInv(h) && FromLeader(n, req, h, c)
    ensures var k := req.prev + MatchCount(n.log, req.prev, req.entries);
      k <= |n.log| && n.log[..k] == h.leaderLog[req.term][..k]
  {
    var l := h.leaderLog[req.term];
    var m := MatchCount(n.log, req.prev, req.entries);
    var k := req.prev + m;
    LogIsVersion(id, n, h);
    assert LeaderOk(req.term, h);
    if k > 0 {
      assert m > 0 ==> TermAt(n.log, req.prev + 1 + (m - 1)) == req.entries[m - 1].term;
      assert m > 0 ==> req.entries[m - 1] == l[k - 1];
      TermsMonotone(l, k - 1, k - 1, h);
      assert TermAt(n.log, k) == TermAt(l, k);
      LogMatching(n.log, l, k, h);
    }
  }

  /** Cutting at a conflict loses only what the current leader was elected without. */
  lemma CutEvolves(id: PeerId, n: Node, k: nat, h: History)
    requires NodeLogs(id, n, h) && LeaderLogsInv(h) && n.term in h.leaderLog
    requires k < |n.log| && k < |h.leaderLog[n.term]| && n.log[k].term != h.leaderLog[n.term][k].term
    ensures Evolves(n.log, n.log[..k], n.term, h)
  {
    var l := h.leaderLog[n.term];
    LogIsVersion(id, n, h);
    forall m | 1 <= m <= |n.log| ensures Kept(n.log, n.log[..k], m, n.term, h) {
      var p := n.log[..m];
      if m > k {
        assert p[k] == n.log[k];
        assert Placed(n.log, m - 1, h);
        assert LeaderOk(n.term, h);
        if p <= h.elections[n.term].start {
          assert false;
        }
        assert StartsWithout(n.term, p, h);
        assert Lost(p, n.term, h);
      }
    }
  }

  lemma CutKeepsLeaderPart(x: Log, k: nat, t: nat, h: History)
    requires k <= |x|
    requires t in h.leaderLog && k < |x| ==> k < |h.leaderLog[t]| && x[k].term != h.leaderLog[t][k].term
    ensures KeepsLeaderPart(x, x[..k], t, h)
  {
    forall p: Log | t in h.leaderLog && IsPrefix(p, x) && IsPrefix(p, h.leaderLog[t]) ensures IsPrefix(p, x[..k]) {
      if |p| > k { assert false; }
      assert p == x[..|p|];
    }
  }

  lemma ExtendKeepsLeaderPart(x: Log, y: Log, t: nat, h: History)
    requires x <= y
    ensures KeepsLeaderPart(x, y, t, h)
  {
    forall p: Log | IsPrefix(p, x) ensures IsPrefix(p, y) { PrefixTrans(p, x, y); }
  }

  /** What is committed on this node is in the log of its current leader. */
  lemma CommittedMatches(n: Node, t: nat, h: History, c: Conf)
    requires NodeCommits(n, h, c) && HistInv(h, c) && t == n.term && t in h.elections && t in h.leaderLog
    ensures n.log[..n.box.committed] <= h.leaderLog[t]
  {
    KnownInLeaderLog(n.log[..n.box.committed], t, h, c);
  }

  /** A prefix of the leader's log followed by the rest of its request is a longer prefix of it. */
  lemma Spliced(l: Log, prev: nat, entries: Log, k: nat)
    requires prev + |entries| <= |l| && entries == l[prev..prev + |entries|]
    requires prev <= k <= prev + |entries|
    ensures l[..k] + entries[k - prev..] == l[..prev + |entries|]
  {
  }

  /** Extending the log to the end of the request, from the point where it already agrees. */
  lemma ExtendKeeps(id: PeerId, n: Node, log: Log, r: Stable, h: History, c: Conf)
    requires NodeInv(id, n, h, c) && LeaderLogsInv(h) && n.role == Follower && n.term in h.leaderLog
    requires n.log <= log <= h.leaderLog[n.term] && log != []
    requires r.FollowerStable? && r.term == n.term && r.upTo == |log|
    requires r.committed <= |h.leaderLog[n.term]| && Known(h.leaderLog[n.term][..r.committed], n.term, h, c)
    ensures NodeInv(id, n.(log := log, queue := n.queue + [Write(log, Some(r))]), h, c)
  {
    assert log == h.leaderLog[n.term][..|log|];
    LeaderPrefixIsVersion(n.term, |log|, h);
    EvolvesPrefix(n.log, log, n.term, h);
    ExtendKeepsLeaderPart(n.log, log, n.term, h);
    PushKeeps(id, n, Write(log, Some(r)), h, c);
  }

  /** The request is all there already: nothing changes but the waiting reply. */
  lemma DuplicateKeeps(id: PeerId, n: Node, last: nat, committed: nat, h: History, c: Conf)
    requires NodeInv(id, n, h, c) && n.role == Follower && n.term in h.leaderLog
    requires 1 <= last <= |n.log| && last <= |h.leaderLog[n.term]| && n.log[..last] == h.leaderLog[n.term][..last]
    requires committed <= |h.leaderLog[n.term]| && Known(h.leaderLog[n.term][..committed], n.term, h, c)
    ensures NodeInv(id, n.(queue := n.queue + [Write(n.log, Some(FollowerStable(n.term, last, committed)))]), h, c)
  {
    LogIsVersion(id, n, h);
    EvolvesRefl(n.log, n.term, h);
    ExtendKeepsLeaderPart(n.log, n.log, n.term, h);
    PushKeeps(id, n, Write(n.log, Some(FollowerStable(n.term, last, committed))), h, c);
    assert n.(log := n.log) == n;
  }

  /** Entries at or below the applied index are answered at once, without touching the log. */
  lemma AppliedKeeps(id: PeerId, n: Node, last: nat, committed: nat, h: History, c: Conf)
    requires NodeInv(id, n, h, c) && HistInv(h, c) && n.term in h.leaderLog && n.term in h.elections
    requires 1 <= last <= n.applied && last <= |h.leaderLog[n.term]|
    requires committed <= |h.leaderLog[n.term]| && Known(h.leaderLog[n.term][..committed], n.term, h, c)
    requires n.role == Follower
    ensures NodeInv(id, n.(ready := n.ready + [FollowerStable(n.term, last, committed)]), h, c)
  {
    hide NodeLogs, HistInv;
    AppliedReplies(n, last, committed, h, c);
    LaterTermLogs(id, n, n.(ready := n.ready + [FollowerStable(n.term, last, committed)]), h);
  }

  lemma AppliedReplies(n: Node, last: nat, committed: nat, h: History, c: Conf)
    requires NodeCommits(n, h, c) && NodeReplies(n, h, c) && HistInv(h, c) && n.term in h.leaderLog && n.term in h.elections
    requires 1 <= last <= n.applied && last <= |h.leaderLog[n.term]|
    requires committed <= |h.leaderLog[n.term]| && Known(h.leaderLog[n.term][..committed], n.term, h, c)
    ensures NodeReplies(n.(ready := n.ready + [FollowerStable(n.term, last, committed)]), h, c)
  {
    var r := FollowerStable(n.term, last, committed);
    var n' := n.(ready := n.ready + [r]);
    var l := h.leaderLog[n.term];
    CommittedMatches(n, n.term, h, c);
    assert l[..last] == n.log[..n.box.committed][..last];
    KnownPrefix(l[..last], n.log[..n.box.committed], n.term, h, c);
    assert Versions(n') == Versions(n);
    forall i | 0 <= i < |n'.queue| ensures QueuedOk(i, n', h, c) { assert QueuedOk(i, n, h, c); }
    forall x | x in n'.ready ensures ReadyOk(x, n', h, c) {
      if x != r { assert ReadyOk(x, n, h, c); }
    }
  }

  /** Cutting the log just below a conflict with the leader, above everything committed. */
  lemma CutKeeps(id: PeerId, n: Node, k: nat, h: History, c: Conf)
    requires NodeInv(id, n, h, c) && LeaderLogsInv(h) && n.role == Follower && n.term in h.leaderLog
    requires k < |n.log| && k < |h.leaderLog[n.term]| && n.log[k].term != h.leaderLog[n.term][k].term
    requires n.box.committed <= k && n.log[..k] == h.leaderLog[n.term][..k]
    ensures NodeInv(id, n.(log := n.log[..k], queue := n.queue + [Write(n.log[..k], None)]), h, c)
  {
    LeaderPrefixIsVersion(n.term, k, h);
    CutEvolves(id, n, k, h);
    CutKeepsLeaderPart(n.log, k, n.term, h);
    assert n.log[..n.box.committed] <= n.log[..k];
    PushKeeps(id, n, Write(n.log[..k], None), h, c);
  }

  lemma QueueTwo(q: seq<Write>, a: Write, b: Write)
    ensures q + [a] + [b] == q + [a, b]
  {
  }

  /** A conflict with the leader lies above everything committed here. */
  lemma ConflictAboveCommitted(n: Node, k: nat, h: History, c: Conf)
    requires NodeCommits(n, h, c) && HistInv(h, c) && n.term in h.elections && n.term in h.leaderLog
    requires k < |n.log| && k < |h.leaderLog[n.term]| && n.log[k].term != h.leaderLog[n.term][k].term
    ensures n.box.committed <= k
  {
    CommittedMatches(n, n.term, h, c);
    if k < n.box.committed { assert false; }
  }

  /** A mismatch inside the local log: the log is cut there and takes the leader's entries. */
  lemma ConflictKeeps(id: PeerId, n: Node, kept: Log, log: Log, r: Stable, h: History, c: Conf)
    requires NodeInv(id, n, h, c) && HistInv(h, c) && n.role == Follower
    requires n.term in h.leaderLog && n.term in h.elections
    requires |kept| < |n.log| && kept == n.log[..|kept|] && kept <= log <= h.leaderLog[n.term] && |kept| < |log|
    requires n.log[|kept|].term != log[|kept|].term
    requires r.FollowerStable? && r.term == n.term && r.upTo == |log|
    requires r.committed <= |h.leaderLog[n.term]| && Known(h.leaderLog[n.term][..r.committed], n.term, h, c)
    ensures n.box.committed <= |kept|
    ensures NodeInv(id, n.(log := log, queue := n.queue + [Write(kept, None), Write(log, Some(r))]), h, c)
  {
    var l := h.leaderLog[n.term];
    assert log[|kept|] == l[|kept|];
    assert l[..|kept|] == kept;
    ConflictAboveCommitted(n, |kept|, h, c);
    CutKeeps(id, n, |kept|, h, c);
    var n1 := n.(log := kept, queue := n.queue + [Write(kept, None)]);
    ExtendKeeps(id, n1, log, r, h, c);
    QueueTwo(n.queue, Write(kept, None), Write(log, Some(r)));
  }

  // The four ways FollowerAppend goes, each with the node it leaves behind.

  lemma CaseApplied(n: Node, req: AppendRequest)
    requires req.entries != [] && req.prev + |req.entries| <= n.applied && req.prev <= |n.log|
    ensures FollowerAppend(n, req) ==
      Handled(n.(ready := n.ready + [FollowerStable(n.term, req.prev + |req.entries|, req.committed)]), None)
  {
  }

  lemma CaseDuplicate(n: Node, req: AppendRequest)
    requires req.entries != [] && req.prev + |req.entries| > n.applied
    requires MatchCount(n.log, req.prev, req.entries) == |req.entries|
    requires req.prev + |req.entries| <= |n.log|
    ensures FollowerAppend(n, req) ==
      Handled(n.(queue := n.queue + [Write(n.log, Some(FollowerStable(n.term, req.prev + |req.entries|, req.committed)))]), None)
  {
  }

  lemma CaseExtend(n: Node, req: AppendRequest)
    requires req.entries != [] && req.prev + |req.entries| > n.applied
    requires MatchCount(n.log, req.prev, req.entries) < |req.entries|
    requires req.prev + MatchCount(n.log, req.prev, req.entries) == |n.log|
    ensures var log := n.log + req.entries[MatchCount(n.log, req.prev, req.entries)..];
      FollowerAppend(n, req) ==
      Handled(n.(log := log, queue := n.queue + [Write(log, Some(FollowerStable(n.term, req.prev + |req.entries|, req.committed)))]), None)
  {
    if req.prev == |n.log| { assert req.entries[0..] == req.entries; }
  }

  lemma CaseConflict(n: Node, req: AppendRequest, k: nat)
    requires req.entries != [] && req.prev + |req.entries| > n.applied
    requires k == req.prev + MatchCount(n.log, req.prev, req.entries) < req.prev + |req.entries|
    requires n.applied <= k < |n.log|
    ensures var log := n.log[..k] + req.entries[k - req.prev..];
      var done := FollowerStable(n.term, req.prev + |req.entries|, req.committed);
      FollowerAppend(n, req) ==
      Handled(n.(log := log, queue := n.queue + [Write(n.log[..k], None), Write(log, Some(done))]), None)
  {
    hide MatchCount;
    var c := MatchCount(n.log, req.prev, req.entries);
    assert req.prev != |n.log| && c < |req.entries| && req.prev + c == k;
  }

  /** What a follower's verdict has to be: the fatal branch is never taken. */
  ghost predicate Survives(id: PeerId, v: Verdict, h: History, c: Conf) {
    v.Handled? && NodeInv(id, v.node, h, c)
  }

  lemma MatchedKeeps(id: PeerId, n: Node, req: AppendRequest, h: History, c: Conf)
    requires NodeInv(id, n, h, c) && HistInv(h, c) && FromLeader(n, req, h, c) && req.entries != []
    requires req.prev + |req.entries| <= n.applied || MatchCount(n.log, req.prev, req.entries) == |req.entries|
    ensures Survives(id, FollowerAppend(n, req), h, c)
  {
    var last := req.prev + |req.entries|;
    if last <= n.applied {
      MatchedPart(id, n, req, h, c);
      AppliedKeeps(id, n, last, req.committed, h, c);
      CaseApplied(n, req);
    } else {
      MatchedPart(id, n, req, h, c);
      DuplicateKeeps(id, n, last, req.committed, h, c);
      CaseDuplicate(n, req);
    }
  }

  lemma ExtendedKeeps(id: PeerId, n: Node, req: AppendRequest, h: History, c: Conf)
    requires NodeInv(id, n, h, c) && HistInv(h, c) && FromLeader(n, req, h, c) && req.entries != []
    requires req.prev + |req.entries| > n.applied
    requires MatchCount(n.log, req.prev, req.entries) < |req.entries|
    requires req.prev + MatchCount(n.log, req.prev, req.entries) == |n.log|
    ensures Survives(id, FollowerAppend(n, req), h, c)
  {
    hide NodeInv, NodeLogs, NodeVotes, NodeLeads, NodeCommits, NodeReplies, HistInv, Known, FollowerAppend, LeaderLogsInv;
    NodeParts(id, n, h, c);
    HistParts(h, c);
    var m := MatchCount(n.log, req.prev, req.entries);
    var last := req.prev + |req.entries|;
    MatchedPart(id, n, req, h, c);
    assert n.log == n.log[..req.prev + m];
    Spliced(h.leaderLog[n.term], req.prev, req.entries, req.prev + m);
    ExtendKeeps(id, n, n.log + req.entries[m..], FollowerStable(n.term, last, req.committed), h, c);
    CaseExtend(n, req);
  }

  lemma ConflictingKeeps(id: PeerId, n: Node, req: AppendRequest, h: History, c: Conf)
    requires NodeInv(id, n, h, c) && HistInv(h, c) && FromLeader(n, req, h, c) && req.entries != []
    requires req.prev + |req.entries| > n.applied
    requires MatchCount(n.log, req.prev, req.entries) < |req.entries|
    requires req.prev + MatchCount(n.log, req.prev, req.entries) < |n.log|
    ensures Survives(id, FollowerAppend(n, req), h, c)
  {
    hide NodeInv, NodeLogs, NodeVotes, NodeLeads, NodeReplies, HistInv, Known, FollowerAppend, LeaderLogsInv;
    NodeParts(id, n, h, c);
    HistParts(h, c);
    var m := MatchCount(n.log, req.prev, req.entries);
    var k := req.prev + m;
    MatchedPart(id, n, req, h, c);
    assert TermAt(n.log, k + 1) != req.entries[m].term;
    Spliced(h.leaderLog[n.term], req.prev, req.entries, k);
    ConflictKeeps(id, n, n.log[..k], n.log[..k] + req.entries[m..], FollowerStable(n.term, req.prev + |req.entries|, req.committed), h, c);
    CaseConflict(n, req, k);
  }

  /** Resolving a request against the local log: never fatal, and the invariant survives. */
  lemma FollowerAppendKeeps(id: PeerId, n: Node, req: AppendRequest, h: History, c: Conf)
    requires NodeInv(id, n, h, c) && HistInv(h, c) && FromLeader(n, req, h, c) && req.entries != []
    ensures Survives(id, FollowerAppend(n, req), h, c)
  {
    var m := MatchCount(n.log, req.prev, req.entries);
    MatchedPart(id, n, req, h, c);
    if req.prev + |req.entries| <= n.applied || m == |req.entries| {
      MatchedKeeps(id, n, req, h, c);
    } else if req.prev + m == |n.log| {
      ExtendedKeeps(id, n, req, h, c);
    } else {
      ConflictingKeeps(id, n, req, h, c);
    }
  }
}
