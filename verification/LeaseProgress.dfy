/** What leases let through: when a leader keeps leading, when a follower votes, and how a candidate gets round a lease. */
module LeaseProgress {
  import opened Quorum
  import opened Leases
  import opened LeaseProtocol
  import R = RaftNode

  // ----- the leader's side

  /** The peers, with the leader itself, that were reached at or after `t`. */
  ghost predicate ReachedBy(n: Peer, id: PeerId, w: World, t: int) {
    && Majority(Reached(n.stamps, w.conf.peers, id, t) + {id}, w.conf.peers)
    && (w.conf.Stable() || Majority(Reached(n.stamps, w.conf.oldPeers, id, t) + {id}, w.conf.oldPeers))
  }

  lemma HalfIff(stamps: Stamps, peers: set<PeerId>, id: PeerId, clock: int, a: int, s: int)
    requires IsActiveSince(stamps, peers, id, clock, a) && id in peers && s <= clock
    ensures Majority(Reached(stamps, peers, id, s) + {id}, peers) <==> s <= a
  {
    if peers - {id} == {} {
      assert peers == {id};
      assert (Reached(stamps, peers, id, s) + {id}) * peers == {id};
    } else if s <= a {
      assert Reached(stamps, peers, id, a) + {id} <= Reached(stamps, peers, id, s) + {id};
      SubsetSize((Reached(stamps, peers, id, a) + {id}) * peers, (Reached(stamps, peers, id, s) + {id}) * peers);
    }
  }

  /** A majority was in contact at or after `s` exactly if `s` is not after the time the leader takes. */
  lemma ReachedIff(n: Peer, id: PeerId, w: World, now: nat, t: int, s: int)
    requires ActiveSince(n, id, w, now, t) && FullMember(w.conf, id) && s <= w.clk(id, now)
    ensures ReachedBy(n, id, w, s) <==> s <= t
  {
    hide Majority, Reached;
    var clock := w.clk(id, now);
    if w.conf.Stable() {
      HalfIff(n.stamps, w.conf.peers, id, clock, t, s);
    } else {
      var a, b :| IsActiveSince(n.stamps, w.conf.peers, id, clock, a) && IsActiveSince(n.stamps, w.conf.oldPeers, id, clock, b)
        && t == if a <= b then a else b;
      HalfIff(n.stamps, w.conf.peers, id, clock, a, s);
      HalfIff(n.stamps, w.conf.oldPeers, id, clock, b, s);
    }
  }

  /**
   A leader whose lease has run out keeps leading, in its term and with a valid lease, exactly if a majority was in contact
   less than an election timeout ago; else it steps down, in its term. A contact at time 0 counts as none.
   */
  lemma KeepsLeadingIff(g: Group, g': Group, id: PeerId, t: int, w: World)
    requires Step(g, g', id, Renew(t), w) && FullMember(w.conf, id) && w.et > 0
    ensures var n, n', clock := g.peers[id], g'.peers[id], w.clk(id, g.now);
      && n'.term == n.term && n'.votedFor == n.votedFor
      && (n'.role == R.Leader <==> t != 0 && ReachedBy(n, id, w, clock - w.et + 1))
      && (clock >= w.et && ReachedBy(n, id, w, clock - w.et + 1) ==> t != 0)
      && (n'.role == R.Leader ==> LeaseValid(id, n', w, g.now) && n'.lastActive == t && n' == n.(lastActive := t))
      && (n'.role != R.Leader ==> n'.role == R.Follower && n'.leaderId.None? && n'.lastActive == 0)
  {
    hide ActiveSince, ReachedBy;
    ReachedIff(g.peers[id], id, w, g.now, t, w.clk(id, g.now) - w.et + 1);
  }

  /** The lease that the first commit dates is valid exactly if a majority was in contact less than an election timeout ago. */
  lemma StartsValidIff(g: Group, g': Group, id: PeerId, t: int, w: World)
    requires Step(g, g', id, StartLease(t), w) && FullMember(w.conf, id) && w.et > 0
    ensures var n, n', clock := g.peers[id], g'.peers[id], w.clk(id, g.now);
      n' == n.(lastActive := t) && (LeaseValid(id, n', w, g.now) <==> t != 0 && ReachedBy(n, id, w, clock - w.et + 1))
  {
    hide ActiveSince, ReachedBy;
    ReachedIff(g.peers[id], id, w, g.now, t, w.clk(id, g.now) - w.et + 1);
  }

  /** An answer to the leader of the term moves the peer's stamp up to when the request left, and touches no other. */
  lemma AckMovesStamp(g: Group, g': Group, id: PeerId, ack: Message, w: World)
    requires Step(g, g', id, TakeAck(ack), w)
    ensures var n, n', t := g.peers[id], g'.peers[id], w.clk(id, ack.sent);
      if n.role == R.Leader && ack.term == n.term && ack.peer in n.stamps
      then && n'.role == R.Leader && n'.term == n.term && n'.lastActive == n.lastActive
           && n'.stamps.Keys == n.stamps.Keys
           && n'.stamps[ack.peer] == (if n.stamps[ack.peer] < t then t else n.stamps[ack.peer])
           && (forall p :: p in n.stamps && p != ack.peer ==> n'.stamps[p] == n.stamps[p])
           && (forall p :: p in n'.firstAcks <==> p in n.firstAcks || (ack.stored && p == ack.peer))
      else n' == n
  {
  }

  // ----- the follower's side

  /** The sender is the leader followed, or nobody else is followed in its term. */
  predicate MayFollow(n: Peer, app: Message)
    requires app.Append?
  {
    app.term > n.term || n.role != R.Follower || n.leaderId.None? || n.leaderId == Some(app.src)
  }

  /** An old term changes nothing; a leader that may be followed is, and renews the lease; a second leader of a term ends the term. */
  lemma HearingRenews(g: Group, g': Group, id: PeerId, app: Message, stored: bool, w: World)
    requires Step(g, g', id, Receive(app, stored), w)
    ensures var n, n', clock := g.peers[id], g'.peers[id], w.clk(id, g.now);
      if app.term < n.term then n' == n
      else if MayFollow(n, app) then
        && n'.term == app.term && n'.role == R.Follower && n'.leaderId == Some(app.src)
        && n'.lastLeader == Some(app.src) && n'.lastTs == clock && n'.votedFor == (if app.term > n.term then None else n.votedFor)
        && g'.msgs <= g.msgs + {Ack(id, app.term, app.sent, stored)}
      else
        && n'.term == app.term + 1 && n'.role == R.Follower && n'.leaderId.None? && n'.votedFor.None?
        && n'.lastLeader == n.lastLeader && n'.lastTs == n.lastTs && g'.msgs <= g.msgs
  {
  }

  /** The request names the leader that this node follows, in its term. */
  predicate Named(n: Peer, req: Message)
    requires req.VoteReq?
  {
    n.role == R.Follower && req.disrupted.Some? && req.disrupted.value.1 == n.term && n.leaderId == Some(req.disrupted.value.0)
  }

  /** No lease is in the way of the request: it has run out, or its leader has been disrupted and the clock has run for a whole one. */
  predicate Free(id: PeerId, n: Peer, req: Message, w: World, now: nat)
    requires req.VoteReq?
  {
    w.clk(id, now) - (if Named(n, req) then 0 else n.lastTs) >= w.et + w.drift
  }

  predicate Gives(id: PeerId, n: Peer, req: Message, logOk: bool, w: World, now: nat)
    requires req.VoteReq?
  {
    Free(id, n, req, w, now) && logOk && (req.term > n.term || (req.term == n.term && n.votedFor.None?))
  }

  /**
   A higher term is taken over, vote or no vote, exactly if no lease is in the way; the vote is given exactly then, to a good
   enough log, once a term.
   */
  lemma VoteGivenIff(id: PeerId, n: Peer, req: Message, logOk: bool, w: World, now: nat)
    requires req.VoteReq?
    ensures var n' := HandleVote(id, n, req, logOk, w, now);
      var raised := req.term > n.term && Free(id, n, req, w, now);
      && n'.term == (if raised then req.term else n.term)
      && n'.votedFor == (if Gives(id, n, req, logOk, w, now) then Some(req.cand) else if raised then None else n.votedFor)
      && (raised || Gives(id, n, req, logOk, w, now) ==> n'.role == R.Follower && n'.leaderId.None? && n'.lastActive == 0)
      && (!raised && !Gives(id, n, req, logOk, w, now) ==> n'.role == n.role && n'.leaderId == n.leaderId && n'.lastActive == n.lastActive)
      && n'.lastTs == (if Named(n, req) then 0 else n.lastTs) && n'.lastLeader == n.lastLeader
  {
  }

  /** What the answer says: the vote, whether only the lease was in the way, and whether a leader was unseated. */
  lemma AnswerTells(id: PeerId, n: Peer, req: Message, logOk: bool, w: World, now: nat)
    requires req.VoteReq?
    ensures var n' := HandleVote(id, n, req, logOk, w, now);
      var a := VoteAnswer(id, n, n', req, logOk, w, now);
      && a.voter == id && a.cand == req.cand && a.reqTerm == req.term && a.term == n'.term && a.previousTerm == n.term
      && (a.granted <==> Gives(id, n, req, logOk, w, now) || (req.term == n.term && n.votedFor == Some(req.cand)))
      && (a.rejectedByLease <==> req.term >= n.term && logOk && !Free(id, n, req, w, now))
      && (a.disrupts <==> n.role == R.Leader && req.term > n.term && Free(id, n, req, w, now))
  {
  }

  /** A candidate of the term counts a vote, and its own with that of the leader it followed last; it remembers a leader it has unseated. */
  lemma AnswerTaken(id: PeerId, n: Peer, rep: Message)
    requires rep.VoteRep?
    ensures var n' := HandleVoteReply(id, n, rep);
      if n.role != R.Candidate || rep.reqTerm != n.term then n' == n
      else if rep.term > n.term then n'.role == R.Follower && n'.term == rep.term && n'.votedFor.None? && n'.leaderId.None?
      else
        && n'.role == R.Candidate && n'.term == n.term && n'.votedFor == n.votedFor
        && n'.votes == (if rep.granted then n.votes + {rep.voter} + (if n.lastLeader == Some(rep.voter) then {id} else {}) else n.votes)
        && n'.disrupted == (if (rep.granted || rep.rejectedByLease) && rep.disrupts then Some((rep.voter, rep.previousTerm)) else n.disrupted)
  {
  }

  /**
   A leader whose log is no better and that has led for a whole lease gives way to a candidate of a later term. The candidate then
   knows whom it has unseated, and the followers of that leader vote for it at once, however fresh their leases are.
   */
  lemma UnseatedLeaderFreesFollowers(l: PeerId, leader: Peer, c: PeerId, cand: Peer, f: PeerId, follower: Peer, w: World, now: nat, later: nat)
    requires leader.role == R.Leader && leader.lastTs == 0 && w.clk(l, now) >= w.et + w.drift
    requires cand.role == R.Candidate && cand.term > leader.term
    requires follower.role == R.Follower && follower.leaderId == Some(l) && follower.term == leader.term
    requires w.clk(f, later) >= w.et + w.drift
    ensures var req := VoteReq(c, cand.term, cand.disrupted);
      var leader' := HandleVote(l, leader, req, true, w, now);
      var cand' := HandleVoteReply(c, cand, VoteAnswer(l, leader, leader', req, true, w, now));
      var again := VoteReq(c, cand'.term, cand'.disrupted);
      var follower' := HandleVote(f, follower, again, true, w, later);
      && leader'.role == R.Follower && l in cand'.votes && cand'.disrupted == Some((l, leader.term))
      && follower'.term == cand.term && follower'.votedFor == Some(c)
      && VoteAnswer(f, follower, follower', again, true, w, later).granted
  {
    var req := VoteReq(c, cand.term, cand.disrupted);
    VoteGivenIff(l, leader, req, true, w, now);
    AnswerTells(l, leader, req, true, w, now);
    var ans := VoteAnswer(l, leader, HandleVote(l, leader, req, true, w, now), req, true, w, now);
    AnswerTaken(c, cand, ans);
    var again := VoteReq(c, cand.term, Some((l, leader.term)));
    VoteGivenIff(f, follower, again, true, w, later);
    AnswerTells(f, follower, again, true, w, later);
    hide HandleVote, HandleVoteReply, VoteAnswer;
  }
}
