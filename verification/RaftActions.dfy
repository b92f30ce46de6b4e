/** Every step of the protocol keeps the invariant. */
module RaftActions {
  import opened Quorum
  import opened LogTypes
  import opened BallotSpec
  import opened RaftNode
  import opened RaftHistory
  import opened RaftGrowth
  import opened RaftInvariant
  import opened RaftSteps
  import opened RaftProtocol

  // ----- steps that record nothing

  lemma SameRecord(id: PeerId, h: History, c: Conf)
    requires HistInv(h, c)
    ensures GrowsBy(id, h, h) && NewPiecesOk(h, h, c)
  {
  }

  /** What a step of `id` has to show when it leaves the record alone. */
  lemma QuietStep(s: State, s': State, id: PeerId, n': Node, sent: set<Msg>, c: Conf)
    requires Inv(s, c) && id in s.nodes && Moves(s, s', id, Effect(n', sent, s.hist))
    requires n'.term >= s.nodes[id].term && NodeInv(id, n', s.hist, c)
    requires forall m :: m in sent ==> MsgInv(m, s.hist, c)
    ensures Inv(s', c)
  {
    SameRecord(id, s.hist, c);
    StepKeepsInv(s, s', id, sent, c);
  }

  lemma InvNode(s: State, id: PeerId, c: Conf)
    requires Inv(s, c) && id in s.nodes
    ensures HistInv(s.hist, c) && NodeInv(id, s.nodes[id], s.hist, c)
  {
  }

  lemma InvMsg(s: State, m: Msg, c: Conf)
    requires Inv(s, c) && m in s.msgs
    ensures MsgInv(m, s.hist, c)
  {
  }

  lemma GiveUpKeeps(s: State, s': State, id: PeerId, term: nat, c: Conf)
    requires Inv(s, c) && id in s.nodes && Moves(s, s', id, Effect(StepDown(s.nodes[id], term), {}, s.hist))
    ensures Inv(s', c)
  {
    InvNode(s, id, c);
    StepDownKeeps(id, s.nodes[id], term, s.hist, c);
    QuietStep(s, s', id, StepDown(s.nodes[id], term), {}, c);
  }

  // ----- votes

  lemma WithVoteGrows(h: History, id: PeerId, t: nat, cand: PeerId, disk: Log, c: Conf)
    requires HistInv(h, c) && (id, t) !in h.votes
    requires VoteOk(id, t, WithVote(h, id, t, cand, disk))
    ensures GrowsBy(id, h, WithVote(h, id, t, cand, disk))
    ensures NewPiecesOk(h, WithVote(h, id, t, cand, disk), c)
  {
    var k := WithVote(h, id, t, cand, disk);
    forall v, u | (v, u) in k.votes && (v, u) !in h.votes ensures VoteOk(v, u, k) {
      assert v == id && u == t;
    }
  }

  /** What a node acknowledged in earlier terms is on its disk when it votes, or was lost. */
  lemma DiskRemembers(id: PeerId, n: Node, t: nat, h: History, k: History)
    requires NodeLogs(id, n, h) && AcksInv(h) && n.term <= t && Grows(h, k)
    requires k.leaderLog == h.leaderLog && k.acks == h.acks && k.elections == h.elections
    requires (id, t) in k.votes && k.votes[(id, t)].voterLog == n.disk
    requires t == n.term ==> t !in h.elections
    ensures VoteRemembers(id, t, k)
  {
    forall a, m: nat | a in k.acks && a.peer == id && a.term < t && a.term in k.leaderLog
                  && 1 <= m <= a.upTo && m <= |k.leaderLog[a.term]| && k.leaderLog[a.term][m - 1].term == a.term
      ensures Remembered(a, m, id, t, k)
    {
      assert AckOk(a, h);
      var l := h.leaderLog[a.term];
      var d :| d in h.disks[id] && l[..a.upTo] <= d;
      assert Evolves(d, n.disk, n.term, h);
      assert d[..m] == l[..m];
      assert Kept(d, n.disk, m, n.term, h);
      if !(l[..m] <= n.disk) { LostBefore(l[..m], n.term, t, h, k); }
    }
  }

  lemma LostBefore(p: Log, lo: nat, t: nat, h: History, k: History)
    requires p != [] && Lost(p, lo, h) && lo <= t && (lo == t ==> t !in h.elections)
    requires k.elections == h.elections
    ensures Lost(p, t - 1, k)
  {
    var u :| p[|p| - 1].term < u <= lo && StartsWithout(u, p, h);
    assert StartsWithout(u, p, k);
  }

  lemma VotersVoted(v: PeerId, t: nat, h: History, c: Conf)
    requires ElectionsInv(h, c) && t in h.elections && v in h.elections[t].voters
    ensures (v, t) in h.votes
  {
    assert ElectionOk(t, h, c);
    assert VoterOk(v, t, h);
  }

  /** A vote for `cand` in term `t`, cast on the log `n.disk`, is a well-formed record. */
  lemma VoteIsOk(id: PeerId, n: Node, t: nat, cand: PeerId, d: Log, h: History, c: Conf)
    requires HistInv(h, c) && NodeInv(id, n, h, c) && n.term <= t && t >= 1
    requires (id, t) !in h.votes
    requires cand in h.disks && d in h.disks[cand] && TermsBelow(d, t) && IdAtMost(LastId(n.disk), LastId(d))
    ensures VoteOk(id, t, WithVote(h, id, t, cand, n.disk))
  {
    var k := WithVote(h, id, t, cand, n.disk);
    assert Grows(h, k);
    assert VersionOk(Versions(n)[0], n.term, h);
    ValidGrows(n.disk, h, k);
    ValidGrows(d, h, k);
    assert Backed(k.votes[(id, t)], d, t, k);
    if Counts(id, t, k) {
      if t in h.elections {
        VotersVoted(id, t, h, c);
        assert false;
      }
      DiskRemembers(id, n, t, h, k);
    }
  }

  /** A node that has just voted in its (possibly raised) term keeps its invariant. */
  lemma VotedNodeKeeps(id: PeerId, n: Node, n': Node, cand: PeerId, disk: Log, h: History, c: Conf)
    requires HistInv(h, c) && NodeInv(id, n, h, c) && (id, n.term) !in h.votes
    requires n' == n.(votedFor := Some(cand)) && n.role == Follower
    requires GrowsBy(id, h, WithVote(h, id, n.term, cand, disk))
    ensures NodeInv(id, n', WithVote(h, id, n.term, cand, disk), c)
  {
    var k := WithVote(h, id, n.term, cand, disk);
    LogsGrow(id, n, h, k);
    LeadsGrow(id, n, h, k, c);
    KnownGrows(n.log[..n.box.committed], n.term, n.term, h, k, c);
    RepliesGrow(n, h, k, c);
    LaterTermLogs(id, n, n', k);
    SameReplies(n, n', k, c);
    assert Versions(n) == Versions(n');
  }

  lemma IdAtMostTrans(a: LogId, b: LogId, d: LogId)
    requires IdAtMost(a, b) && IdAtMost(b, d)
    ensures IdAtMost(a, d)
  {
  }

  /** The node part of casting a vote: `n1` is the voter in the term of the request, not yet committed to anyone. */
  lemma CastKeeps(id: PeerId, n: Node, req: VoteRequest, last: LogId, h: History, c: Conf)
    requires HistInv(h, c) && NodeInv(id, n, h, c) && ClaimOk(req, h) && req.term >= 1 && req.term >= n.term
    requires LastIdRead(id, n, last, h) && IdAtMost(last, req.last)
    requires req.term == n.term ==> n.votedFor.None?
    ensures var n' := StepDown(StepDown(n, req.term), req.term).(votedFor := Some(req.cand));
      var k := WithVote(h, id, req.term, req.cand, n.disk);
      && GrowsBy(id, h, k) && NewPiecesOk(h, k, c) && k.acks == h.acks
      && NodeInv(id, n', k, c) && n'.term >= n.term
      && MsgInv(VoteRep(VoteAnswer(id, n', req)), k, c)
  {
    var n1 := StepDown(n, req.term);
    StepDownKeeps(id, n, req.term, h, c);
    assert StepDown(n1, req.term) == n1;
    assert n1.votedFor.None?;
    var d :| d in h.disks[req.cand] && LastId(d) == req.last && TermsBelow(d, req.term);
    IdAtMostTrans(LastId(n.disk), last, req.last);
    VoteIsOk(id, n, req.term, req.cand, d, h, c);
    WithVoteGrows(h, id, req.term, req.cand, n.disk, c);
    VotedNodeKeeps(id, n1, n1.(votedFor := Some(req.cand)), req.cand, n.disk, h, c);
  }

  /** Which way HandleVote goes. */
  lemma VoteCases(n: Node, req: VoteRequest, last: LogId, votable: bool)
    ensures var n' := HandleVote(n, req, last, votable);
      var cast := n'.votedFor == Some(req.cand) && (n'.term != n.term || n.votedFor.None?);
      if Casts(n, req, last, votable)
      then cast && n' == StepDown(StepDown(n, req.term), req.term).(votedFor := Some(req.cand)) && n'.term == req.term
      else !cast && n' == (if votable && req.term > n.term then StepDown(n, req.term) else n)
  {
  }

  lemma CastStep(s: State, s': State, id: PeerId, req: VoteRequest, last: LogId, c: Conf)
    requires Inv(s, c) && id in s.nodes && VoteReq(req) in s.msgs
    requires LastIdRead(id, s.nodes[id], last, s.hist) && Casts(s.nodes[id], req, last, true)
    requires var n' := StepDown(StepDown(s.nodes[id], req.term), req.term).(votedFor := Some(req.cand));
      Moves(s, s', id, Effect(n', {VoteRep(VoteAnswer(id, n', req))}, WithVote(s.hist, id, req.term, req.cand, s.nodes[id].disk)))
    ensures Inv(s', c)
  {
    hide NodeInv;
    InvNode(s, id, c);
    InvMsg(s, VoteReq(req), c);
    CastKeeps(id, s.nodes[id], req, last, s.hist, c);
    var n' := StepDown(StepDown(s.nodes[id], req.term), req.term).(votedFor := Some(req.cand));
    StepKeepsInv(s, s', id, {VoteRep(VoteAnswer(id, n', req))}, c);
  }

  /** A vote answered without casting: granted only if it was cast before. */
  lemma NoCastStep(s: State, s': State, id: PeerId, req: VoteRequest, n': Node, c: Conf)
    requires Inv(s, c) && id in s.nodes
    requires n' == s.nodes[id] || (req.term > s.nodes[id].term && n' == StepDown(s.nodes[id], req.term))
    requires Moves(s, s', id, Effect(n', {VoteRep(VoteAnswer(id, n', req))}, s.hist))
    ensures Inv(s', c)
  {
    InvNode(s, id, c);
    if n' != s.nodes[id] { StepDownKeeps(id, s.nodes[id], req.term, s.hist, c); }
    QuietStep(s, s', id, n', {VoteRep(VoteAnswer(id, n', req))}, c);
  }

  // ----- a candidate

  /** A node that has just voted for itself may count votes. */
  lemma CandidateKeeps(id: PeerId, n: Node, h: History, c: Conf)
    requires NodeInv(id, n, h, c) && n.role == Follower && n.leaderId.None? && n.votes == {}
    requires n.votedFor == Some(id) && Flushed(n) && TermsBelow(n.log, n.term)
    requires forall t :: t in h.elections && h.elections[t].winner == id ==> t < n.term
    ensures NodeInv(id, n.(role := Candidate), h, c)
  {
    var n' := n.(role := Candidate);
    LaterTermLogs(id, n, n', h);
    SameReplies(n, n', h, c);
    assert Versions(n') == Versions(n);
  }

  /** Dropping closures and raising the term by one. */
  lemma FlushedFollower(id: PeerId, n: Node, h: History, c: Conf)
    requires NodeInv(id, n, h, c) && n.queue == []
    ensures var n1 := StepDown(n, n.term + 1).(ready := FollowerPart(n.ready));
      NodeInv(id, n1, h, c) && Flushed(n1) && TermsBelow(n1.log, n1.term)
  {
    var n1 := StepDown(n, n.term + 1);
    var n2 := n1.(ready := FollowerPart(n.ready));
    StepDownKeeps(id, n, n.term + 1, h, c);
    LaterTermLogs(id, n1, n2, h);
    SameReplies(n1, n2, h, c);
    assert Versions(n2) == Versions(n1);
    assert n.log == Versions(n)[0];
    assert VersionOk(Versions(n)[0], n.term, h);
  }

  lemma SelfVote(id: PeerId, n: Node, h: History, c: Conf)
    requires HistInv(h, c) && NodeInv(id, n, h, c) && n.queue == []
    ensures var k := WithVote(h, id, n.term + 1, id, n.disk);
      GrowsBy(id, h, k) && NewPiecesOk(h, k, c)
  {
    assert VersionOk(Versions(n)[0], n.term, h);
    VoteIsOk(id, n, n.term + 1, id, n.disk, h, c);
    WithVoteGrows(h, id, n.term + 1, id, n.disk, c);
  }

  lemma NoVoteYet(id: PeerId, n: Node, h: History, c: Conf)
    requires NodeInv(id, n, h, c) && n.votedFor.None?
    ensures (id, n.term) !in h.votes
  {
  }

  lemma NoElectionAhead(id: PeerId, n: Node, t: nat, h: History, c: Conf)
    requires NodeInv(id, n, h, c) && n.term < t
    ensures forall u :: u in h.elections && h.elections[u].winner == id ==> u < t
  {
  }

  /** Electing oneself is stepping down into the next term, voting for oneself and standing. */
  lemma ElectSelfSteps(id: PeerId, n: Node)
    requires n.role != Leader
    ensures var n1 := StepDown(n, n.term + 1).(ready := FollowerPart(n.ready));
      && n1.role == Follower && n1.leaderId.None? && n1.votes == {} && n1.votedFor.None? && n1.term == n.term + 1
      && ElectSelf(id, n) == n1.(votedFor := Some(id)).(role := Candidate)
  {
  }

  lemma ElectNodeKeeps(id: PeerId, n: Node, h: History, k: History, c: Conf)
    requires HistInv(h, c) && NodeInv(id, n, h, c) && n.queue == [] && n.role != Leader
    requires k == WithVote(h, id, n.term + 1, id, n.disk) && GrowsBy(id, h, k)
    ensures NodeInv(id, ElectSelf(id, n), k, c)
  {
    hide NodeInv;
    hide HistInv;
    hide GrowsBy;
    var n1 := StepDown(n, n.term + 1).(ready := FollowerPart(n.ready));
    ElectSelfSteps(id, n);
    FlushedFollower(id, n, h, c);
    NoVoteYet(id, n1, h, c);
    VotedNodeKeeps(id, n1, n1.(votedFor := Some(id)), id, n.disk, h, c);
    NoElectionAhead(id, n, n.term + 1, h, c);
    CandidateKeeps(id, n1.(votedFor := Some(id)), k, c);
  }

  lemma ClaimIsOk(id: PeerId, n: Node, last: LogId, h: History, k: History, c: Conf)
    requires NodeInv(id, n, h, c) && LastIdRead(id, n, last, h) && h.disks == k.disks
    ensures ClaimOk(VoteRequest(id, n.term + 1, last), k)
  {
    var d :| d in h.disks[id] && LastId(d) == last;
    assert VersionOk(d, n.term, h);
  }

  lemma ElectKeeps(s: State, s': State, id: PeerId, last: LogId, c: Conf)
    requires Inv(s, c) && id in s.nodes && s.nodes[id].role != Leader && LastIdRead(id, s.nodes[id], last, s.hist)
    requires var n := s.nodes[id];
      Moves(s, s', id, Effect(ElectSelf(id, n), {VoteReq(VoteRequest(id, n.term + 1, last))}, WithVote(s.hist, id, n.term + 1, id, n.disk)))
    ensures Inv(s', c)
  {
    hide NodeInv;
    InvNode(s, id, c);
    SelfVote(id, s.nodes[id], s.hist, c);
    ElectNodeKeeps(id, s.nodes[id], s.hist, s'.hist, c);
    ClaimIsOk(id, s.nodes[id], last, s.hist, s'.hist, c);
    StepKeepsInv(s, s', id, {VoteReq(VoteRequest(id, s.nodes[id].term + 1, last))}, c);
  }

  /** A candidate's votes may grow by peers that voted for it. */
  lemma VotesKeep(id: PeerId, n: Node, votes: set<PeerId>, h: History, c: Conf)
    requires NodeInv(id, n, h, c)
    requires n.role == Candidate ==> forall p :: p in votes ==> (p, n.term) in h.votes && h.votes[(p, n.term)].cand == id
    ensures NodeInv(id, n.(votes := votes), h, c)
  {
    var n' := n.(votes := votes);
    LaterTermLogs(id, n, n', h);
    SameReplies(n, n', h, c);
    assert Versions(n') == Versions(n);
  }

  lemma VoteReplyKeeps(id: PeerId, n: Node, r: VoteReply, withSelf: bool, h: History, c: Conf)
    requires NodeInv(id, n, h, c) && MsgInv(VoteRep(r), h, c) && r.cand == id
    ensures NodeInv(id, HandleVoteReply(id, n, r, withSelf), h, c)
  {
    if n.role == Candidate && r.reqTerm == n.term {
      if r.term > n.term {
        StepDownKeeps(id, n, r.term, h, c);
      } else if r.granted {
        VotesKeep(id, n, n.votes + {r.voter} + if withSelf then {id} else {}, h, c);
      }
    }
  }

  lemma TakeVoteKeeps(s: State, s': State, id: PeerId, r: VoteReply, withSelf: bool, c: Conf)
    requires Inv(s, c) && id in s.nodes && VoteRep(r) in s.msgs && r.cand == id
    requires Moves(s, s', id, Effect(HandleVoteReply(id, s.nodes[id], r, withSelf), {}, s.hist))
    ensures Inv(s', c)
  {
    InvNode(s, id, c);
    InvMsg(s, VoteRep(r), c);
    VoteReplyKeeps(id, s.nodes[id], r, withSelf, s.hist, c);
    QuietStep(s, s', id, HandleVoteReply(id, s.nodes[id], r, withSelf), {}, c);
  }

  lemma GrantSelfKeeps(s: State, s': State, id: PeerId, c: Conf)
    requires Inv(s, c) && id in s.nodes && s.nodes[id].role == Candidate
    requires Moves(s, s', id, Effect(s.nodes[id].(votes := s.nodes[id].votes + {id}), {}, s.hist))
    ensures Inv(s', c)
  {
    InvNode(s, id, c);
    VotesKeep(id, s.nodes[id], s.nodes[id].votes + {id}, s.hist, c);
    QuietStep(s, s', id, s.nodes[id].(votes := s.nodes[id].votes + {id}), {}, c);
  }
}
