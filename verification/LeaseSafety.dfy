/** Lease safety over whole runs. */
module LeaseSafety {
  import opened Quorum
  import opened Leases
  import opened LeaseProtocol
  import opened LeaseInvariant
  import R = RaftNode

  lemma InvPeer(g: Group, id: PeerId, w: World)
    requires Inv(g, w) && id in g.peers
    ensures RecordOk(g.rec, w, g.now) && PeerInv(id, g.peers[id], g.rec, w, g.now)
  {
  }

  lemma InvMsg(g: Group, m: Message, w: World)
    requires Inv(g, w) && m in g.msgs
    ensures MsgOk(m, g.rec, g.now)
  {
  }

  // ----- leaving a leadership

  /** Recording a leadership as left is a well-formed addition, and the winner is accounted for after it. */
  lemma LeavingOk(g: Group, id: PeerId, n': Peer, h: Record, w: World)
    requires Inv(g, w) && id in g.peers && Grows(id, g.rec, h) && NewOk(id, g.rec, h, w, g.now)
    requires h.left == g.rec.left
    requires forall t :: t in h.elections && t !in g.rec.elections ==> n'.role == R.Leader && n'.term == t
    ensures var k := Leaving(h, id, g.peers[id], n');
      && Grows(id, g.rec, k) && NewOk(id, g.rec, k, w, g.now) && Grows(id, h, k)
      && forall t {:trigger t in k.elections} :: t in k.elections && k.elections[t].winner == id ==>
           (n'.role == R.Leader && n'.term == t) || (id, t) in k.left
  {
    var n, k := g.peers[id], Leaving(h, id, g.peers[id], n');
    InvPeer(g, id, w);
    forall t | (id, t) in k.counted && (id, t) !in g.rec.counted ensures CountedOk(id, t, k, w, g.now + 1) {
      assert CountedOk(id, t, h, w, g.now + 1);
      var i := h.counted[(id, t)];
      forall rc | rc in k.receipts && rc.peer == id && rc.term < t ensures Outlived(rc, i, k, w) {
        assert Outlived(rc, i, h, w);
        if Superseded(rc, i, h) { SupersededGrows(rc, i, i, id, h, k); }
      }
    }
    forall t | t in k.elections && t !in g.rec.elections ensures ElectionOk(t, k, w, g.now + 1) {
      assert ElectionOk(t, h, w, g.now + 1);
      forall v | v in k.elections[t].voters ensures VoterOk(v, t, k) { assert VoterOk(v, t, h); }
    }
    forall rc | rc in k.receipts && rc !in g.rec.receipts ensures ReceiptOk(rc, k, g.now + 1) {
      assert ReceiptOk(rc, h, g.now + 1);
    }
    forall t | t in k.elections && k.elections[t].winner == id
      ensures (n'.role == R.Leader && n'.term == t) || (id, t) in k.left
    {
      if t in g.rec.elections { assert Led(t, g); }
    }
  }

  lemma SameGrows(id: PeerId, h: Record)
    ensures Grows(id, h, h)
  {
  }

  lemma SameNewOk(id: PeerId, h: Record, w: World, now: nat)
    requires RecordOk(h, w, now)
    ensures NewOk(id, h, h, w, now)
  {
  }

  /** Time passes for a node that does nothing. */
  lemma TickKeeps(id: PeerId, n: Peer, h: Record, w: World, now: nat)
    requires PeerInv(id, n, h, w, now)
    ensures PeerInv(id, n, h, w, now + 1)
  {
    SameGrows(id, h);
    ReceiptsGrow(id, n, id, h, h, w, now);
  }

  /** Recording that this node left a leadership does not disturb its own invariant. */
  lemma LeftKeeps(id: PeerId, n: Peer, h: Record, k: Record, w: World, now: nat)
    requires PeerInv(id, n, h, w, now) && Grows(id, h, k)
    requires k == h || (n.role != R.Leader && k == h.(left := k.left))
    ensures PeerInv(id, n, k, w, now)
  {
    if k != h {
      forall rc | rc in k.receipts && rc.peer == id ensures HeardOk(rc, n, k, w, now) {
        assert HeardOk(rc, n, h, w, now);
        if Superseded(rc, now, h) { SupersededGrows(rc, now, now, id, h, k); }
      }
      LeadsGrow(id, n, id, h, k, w);
    }
  }

  /** From the node's own invariant and a well-formed addition to the record to the whole group. */
  lemma FinishStep(g: Group, g': Group, id: PeerId, n': Peer, sent: set<Message>, h: Record, w: World)
    requires Inv(g, w) && id in g.peers && Moves(g, g', id, Effect(n', sent, h))
    requires Grows(id, g.rec, h) && NewOk(id, g.rec, h, w, g.now) && h.left == g.rec.left
    requires PeerInv(id, n', h, w, g'.now)
    requires g.peers[id].role == R.Leader && n'.role == R.Leader ==> n'.term == g.peers[id].term
    requires forall t :: t in h.elections && t !in g.rec.elections ==> n'.role == R.Leader && n'.term == t
    requires forall m :: m in sent ==> MsgOk(m, g'.rec, g'.now)
    ensures Inv(g', w)
  {
    hide Inv, PeerInv, NewOk, Grows, MsgOk;
    LeavingOk(g, id, n', h, w);
    LeftKeeps(id, n', h, g'.rec, w, g'.now);
    StepKeeps(g, g', id, n', sent, w);
  }

  /** A step that records nothing (but perhaps that a leadership ended) and sends nothing. */
  lemma QuietStep(g: Group, g': Group, id: PeerId, n': Peer, w: World)
    requires Inv(g, w) && id in g.peers && Moves(g, g', id, Effect(n', {}, g.rec))
    requires PeerInv(id, n', g.rec, w, g.now + 1)
    requires g.peers[id].role == R.Leader && n'.role == R.Leader ==> n'.term == g.peers[id].term
    ensures Inv(g', w)
  {
    hide PeerInv, NewOk, Grows;
    InvPeer(g, id, w);
    SameGrows(id, g.rec);
    SameNewOk(id, g.rec, w, g.now);
    FinishStep(g, g', id, n', {}, g.rec, w);
  }

  // ----- stepping down and restarting

  lemma StepDownKeeps(id: PeerId, n: Peer, term: nat, h: Record, w: World, now: nat)
    requires PeerInv(id, n, h, w, now)
    ensures PeerInv(id, StepDown(n, term), h, w, now) && PeerInv(id, StepDown(n, term), h, w, now + 1)
  {
    var n' := StepDown(n, term);
    forall rc | rc in h.receipts && rc.peer == id ensures HeardOk(rc, n', h, w, now) { assert HeardOk(rc, n, h, w, now); }
    TickKeeps(id, n', h, w, now);
  }

  lemma GiveUpKeeps(g: Group, g': Group, id: PeerId, term: nat, w: World)
    requires Inv(g, w) && id in g.peers && Moves(g, g', id, Effect(StepDown(g.peers[id], term), {}, g.rec))
    ensures Inv(g', w)
  {
    hide PeerInv;
    InvPeer(g, id, w);
    StepDownKeeps(id, g.peers[id], term, g.rec, w, g.now);
    QuietStep(g, g', id, StepDown(g.peers[id], term), w);
  }

  /** After a restart the follower lease covers everything heard before, in nobody's name. */
  lemma RestartPeerKeeps(id: PeerId, n: Peer, h: Record, w: World, now: nat)
    requires PeerInv(id, n, h, w, now) && RecordOk(h, w, now) && GoodClocks(w)
    ensures PeerInv(id, RestartPeer(id, n, w, now), h, w, now + 1)
  {
    var n' := RestartPeer(id, n, w, now);
    forall rc | rc in h.receipts && rc.peer == id ensures HeardOk(rc, n', h, w, now + 1) {
      assert HeardOk(rc, n, h, w, now) && ReceiptOk(rc, h, now);
      assert ElectionOk(rc.term, h, w, now);
      assert Forward(w, id, rc.got, now);
    }
  }

  lemma RestartKeeps(g: Group, g': Group, id: PeerId, w: World)
    requires Inv(g, w) && GoodClocks(w) && id in g.peers
    requires Moves(g, g', id, Effect(RestartPeer(id, g.peers[id], w, g.now), {}, g.rec))
    ensures Inv(g', w)
  {
    hide PeerInv;
    InvPeer(g, id, w);
    RestartPeerKeeps(id, g.peers[id], g.rec, w, g.now);
    QuietStep(g, g', id, RestartPeer(id, g.peers[id], w, g.now), w);
  }

  // ----- votes

  lemma CastGrows(id: PeerId, t: nat, cand: PeerId, h: Record)
    requires (id, t) !in h.votes
    ensures Grows(id, h, Cast(h, id, t, cand))
  {
  }

  lemma ElectPeerKeeps(id: PeerId, n: Peer, h: Record, w: World, now: nat)
    requires PeerInv(id, n, h, w, now) && RecordOk(h, w, now) && n.role != R.Leader && FullMember(w.conf, id)
    ensures var k := Cast(h, id, n.term + 1, id);
      Grows(id, h, k) && NewOk(id, h, k, w, now) && PeerInv(id, ElectSelf(id, n), k, w, now + 1)
  {
    var k := Cast(h, id, n.term + 1, id);
    CastGrows(id, n.term + 1, id, h);
    var n1 := StepDown(n, n.term + 1);
    StepDownKeeps(id, n, n.term + 1, h, w, now);
    forall rc | rc in k.receipts && rc.peer == id ensures HeardOk(rc, ElectSelf(id, n), k, w, now + 1) {
      assert HeardOk(rc, n1, h, w, now + 1);
      if Superseded(rc, now + 1, h) { SupersededGrows(rc, now + 1, now + 1, id, h, k); }
    }
  }

  lemma ElectKeeps(g: Group, g': Group, id: PeerId, w: World)
    requires Inv(g, w) && id in g.peers && g.peers[id].role != R.Leader && FullMember(w.conf, id)
    requires Moves(g, g', id, Effect(ElectSelf(id, g.peers[id]), {}, Cast(g.rec, id, g.peers[id].term + 1, id)))
    ensures Inv(g', w)
  {
    hide PeerInv, NewOk, Grows;
    InvPeer(g, id, w);
    ElectPeerKeeps(id, g.peers[id], g.rec, w, g.now);
    FinishStep(g, g', id, ElectSelf(id, g.peers[id]), {}, Cast(g.rec, id, g.peers[id].term + 1, id), w);
  }

  lemma AskKeeps(g: Group, g': Group, id: PeerId, w: World)
    requires Inv(g, w) && id in g.peers
    requires Moves(g, g', id, Effect(g.peers[id], {VoteReq(id, g.peers[id].term, g.peers[id].disrupted)}, g.rec))
    ensures Inv(g', w)
  {
    InvPeer(g, id, w);
    SameGrows(id, g.rec);
    SameNewOk(id, g.rec, w, g.now);
    TickKeeps(id, g.peers[id], g.rec, w, g.now);
    FinishStep(g, g', id, g.peers[id], {VoteReq(id, g.peers[id].term, g.peers[id].disrupted)}, g.rec, w);
  }

  /** A vote counted while the follower lease has run out satisfies what a later argument needs of it. */
  lemma CountedNow(id: PeerId, n: Peer, t: nat, h: Record, k: Record, w: World, now: nat)
    requires PeerInv(id, n, h, w, now) && RecordOk(h, w, now) && GoodClocks(w)
    requires Grows(id, h, k) && k.receipts == h.receipts && (id, t) in k.votes
    requires (id, t) in k.counted && k.counted[(id, t)] == now
    requires forall rc :: rc in h.receipts && rc.peer == id && rc.term < t ==> n.lastTs + w.et + w.drift <= w.clk(id, now) || Superseded(rc, now, k)
    ensures CountedOk(id, t, k, w, now + 1)
  {
    forall rc | rc in k.receipts && rc.peer == id && rc.term < t ensures Outlived(rc, now, k, w) {
      assert HeardOk(rc, n, h, w, now) && ReceiptOk(rc, h, now);
      if Superseded(rc, now, h) { SupersededGrows(rc, now, now, id, h, k); }
    }
  }

  lemma SelfCounts(id: PeerId, n: Peer, h: Record, w: World, now: nat)
    requires PeerInv(id, n, h, w, now) && RecordOk(h, w, now) && GoodClocks(w) && n.role == R.Candidate
    requires forall rc :: rc in h.receipts && rc.peer == id && rc.term < n.term ==>
      n.lastTs + w.et + w.drift <= w.clk(id, now) || Superseded(rc, now, h)
    ensures var k := Counted(h, id, n.term, now);
      Grows(id, h, k) && NewOk(id, h, k, w, now) && (id, n.term) in k.counted
  {
    var k := Counted(h, id, n.term, now);
    SameGrows(id, h);
    SameNewOk(id, h, w, now);
    if k != h {
      forall rc | rc in h.receipts && rc.peer == id && rc.term < n.term
        ensures n.lastTs + w.et + w.drift <= w.clk(id, now) || Superseded(rc, now, k)
      {
        if Superseded(rc, now, h) { SupersededGrows(rc, now, now, id, h, k); }
      }
      CountedNow(id, n, n.term, h, k, w, now);
    }
  }

  /** A candidate may add counted votes for itself. */
  lemma VotesKeep(id: PeerId, n: Peer, votes: set<PeerId>, h: Record, k: Record, w: World, now: nat)
    requires PeerInv(id, n, h, w, now) && n.role == R.Candidate && Grows(id, h, k)
    requires k == h || k == h.(counted := k.counted)
    requires forall p :: p in votes ==> (p, n.term) in k.votes && k.votes[(p, n.term)] == id && (p, n.term) in k.counted
    ensures PeerInv(id, n.(votes := votes), k, w, now + 1)
  {
    var n' := n.(votes := votes);
    forall rc | rc in k.receipts && rc.peer == id ensures HeardOk(rc, n', k, w, now + 1) {
      assert HeardOk(rc, n, h, w, now);
      if Superseded(rc, now, h) { SupersededGrows(rc, now, now + 1, id, h, k); }
    }
  }

  lemma GrantSelfKeeps(g: Group, g': Group, id: PeerId, w: World)
    requires Inv(g, w) && GoodClocks(w) && id in g.peers && g.peers[id].role == R.Candidate && Votable(id, g.peers[id], w, g.now)
    requires Moves(g, g', id, Effect(g.peers[id].(votes := g.peers[id].votes + {id}), {}, Counted(g.rec, id, g.peers[id].term, g.now)))
    ensures Inv(g', w)
  {
    hide NewOk;
    var n := g.peers[id];
    InvPeer(g, id, w);
    SelfCounts(id, n, g.rec, w, g.now);
    VotesKeep(id, n, n.votes + {id}, g.rec, Counted(g.rec, id, n.term, g.now), w, g.now);
    FinishStep(g, g', id, n.(votes := n.votes + {id}), {}, Counted(g.rec, id, n.term, g.now), w);
  }

  /** A candidate names a leader it has really disrupted: nothing heard here is covered by a living lease. */
  lemma DisruptionKeeps(id: PeerId, n: Peer, req: Message, h: Record, w: World, now: nat)
    requires PeerInv(id, n, h, w, now) && RecordOk(h, w, now) && req.VoteReq? && MsgOk(req, h, now)
    ensures PeerInv(id, AfterDisruption(n, req), h, w, now)
  {
    var n0 := AfterDisruption(n, req);
    if n0 != n {
      var t := req.disrupted.value.1;
      assert ElectionOk(t, h, w, now);
      forall rc | rc in h.receipts && rc.peer == id ensures HeardOk(rc, n0, h, w, now) {
        assert HeardOk(rc, n, h, w, now) && ReceiptOk(rc, h, now);
        if rc.term < t { assert LaterElection(t, rc.term, now, h); }
      }
    }
  }

  lemma CountedVoted(v: PeerId, t: nat, h: Record, w: World, now: nat)
    requires RecordOk(h, w, now)
    ensures (v, t) in h.counted ==> (v, t) in h.votes
  {
    if (v, t) in h.counted { assert CountedOk(v, t, h, w, now); }
  }

  lemma CastPeerKeeps(id: PeerId, n0: Peer, req: Message, h: Record, w: World, now: nat)
    requires PeerInv(id, n0, h, w, now) && RecordOk(h, w, now) && GoodClocks(w) && req.VoteReq? && req.cand != id
    requires req.term >= n0.term && Votable(id, n0, w, now) && (req.term == n0.term ==> n0.votedFor.None?)
    ensures var n' := StepDown(n0, req.term).(votedFor := Some(req.cand));
      var k := Counted(Cast(h, id, req.term, req.cand), id, req.term, now);
      Grows(id, h, k) && NewOk(id, h, k, w, now) && PeerInv(id, n', k, w, now + 1)
  {
    var n1 := StepDown(n0, req.term);
    var n' := n1.(votedFor := Some(req.cand));
    var k0 := Cast(h, id, req.term, req.cand);
    var k := Counted(k0, id, req.term, now);
    StepDownKeeps(id, n0, req.term, h, w, now);
    assert (id, req.term) !in h.votes;
    CountedVoted(id, req.term, h, w, now);
    CastGrows(id, req.term, req.cand, h);
    assert Grows(id, h, k);
    CountedNow(id, n0, req.term, h, k, w, now);
    forall rc | rc in k.receipts && rc.peer == id ensures HeardOk(rc, n', k, w, now + 1) {
      assert HeardOk(rc, n1, h, w, now + 1);
      if Superseded(rc, now + 1, h) { SupersededGrows(rc, now + 1, now + 1, id, h, k); }
    }
  }

  predicate Casts(id: PeerId, n: Peer, req: Message, logOk: bool, w: World, now: nat)
    requires req.VoteReq?
  {
    var n0 := AfterDisruption(n, req);
    req.term >= n0.term && Votable(id, n0, w, now) && logOk && (req.term > n0.term || n0.votedFor.None?)
  }

  /** Which way HandleVote goes. */
  lemma VoteCases(id: PeerId, n: Peer, req: Message, logOk: bool, w: World, now: nat)
    requires req.VoteReq?
    ensures var n0, n' := AfterDisruption(n, req), HandleVote(id, n, req, logOk, w, now);
      var cast := n'.votedFor == Some(req.cand) && (n'.term != n.term || n.votedFor.None?);
      if Casts(id, n, req, logOk, w, now)
      then cast && n' == StepDown(n0, req.term).(votedFor := Some(req.cand)) && n'.term == req.term
      else !cast && (n' == n0 || (req.term > n.term && n' == StepDown(n0, req.term)))
    ensures HandleVote(id, n, req, logOk, w, now).role == R.Leader ==> HandleVote(id, n, req, logOk, w, now) == n
  {
  }

  lemma AnswerOk(g: Group, g': Group, id: PeerId, req: Message, logOk: bool, h: Record, w: World)
    requires Inv(g, w) && id in g.peers && req.VoteReq? && req.cand != id
    requires var n' := HandleVote(id, g.peers[id], req, logOk, w, g.now);
      && PeerInv(id, n', h, w, g.now + 1)
      && Moves(g, g', id, Effect(n', {VoteAnswer(id, g.peers[id], n', req, logOk, w, g.now)}, h))
    ensures var n' := HandleVote(id, g.peers[id], req, logOk, w, g.now);
      MsgOk(VoteAnswer(id, g.peers[id], n', req, logOk, w, g.now), g'.rec, g'.now)
  {
    VoteCases(id, g.peers[id], req, logOk, w, g.now);
  }

  lemma VotePeerKeeps(id: PeerId, n: Peer, req: Message, logOk: bool, h: Record, w: World, now: nat)
    requires PeerInv(id, n, h, w, now) && RecordOk(h, w, now) && GoodClocks(w)
    requires req.VoteReq? && req.cand != id && MsgOk(req, h, now)
    ensures var n' := HandleVote(id, n, req, logOk, w, now);
      var cast := n'.votedFor == Some(req.cand) && (n'.term != n.term || n.votedFor.None?);
      var k := if cast then Counted(Cast(h, id, n'.term, req.cand), id, n'.term, now) else h;
      Grows(id, h, k) && NewOk(id, h, k, w, now) && PeerInv(id, n', k, w, now + 1)
  {
    hide PeerInv, NewOk, Grows, HandleVote, MsgOk;
    var n0 := AfterDisruption(n, req);
    DisruptionKeeps(id, n, req, h, w, now);
    VoteCases(id, n, req, logOk, w, now);
    SameGrows(id, h);
    SameNewOk(id, h, w, now);
    if Casts(id, n, req, logOk, w, now) {
      CastPeerKeeps(id, n0, req, h, w, now);
    } else {
      TickKeeps(id, n0, h, w, now);
      StepDownKeeps(id, n0, req.term, h, w, now);
    }
  }

  lemma VoteKeeps(g: Group, g': Group, id: PeerId, req: Message, logOk: bool, w: World)
    requires Inv(g, w) && GoodClocks(w) && id in g.peers && req in g.msgs && req.VoteReq? && req.cand != id
    requires var n := g.peers[id];
      var n' := HandleVote(id, n, req, logOk, w, g.now);
      var cast := n'.votedFor == Some(req.cand) && (n'.term != n.term || n.votedFor.None?);
      Moves(g, g', id, Effect(n', {VoteAnswer(id, n, n', req, logOk, w, g.now)},
                              if cast then Counted(Cast(g.rec, id, n'.term, req.cand), id, n'.term, g.now) else g.rec))
    ensures Inv(g', w)
  {
    hide PeerInv, NewOk, Grows, MsgOk, Moves, Inv, AfterDisruption, RecordOk;
    var n := g.peers[id];
    var n' := HandleVote(id, n, req, logOk, w, g.now);
    var cast := n'.votedFor == Some(req.cand) && (n'.term != n.term || n.votedFor.None?);
    var k := if cast then Counted(Cast(g.rec, id, n'.term, req.cand), id, n'.term, g.now) else g.rec;
    InvPeer(g, id, w);
    InvMsg(g, req, w);
    VotePeerKeeps(id, n, req, logOk, g.rec, w, g.now);
    NextNow(g, g', id, Effect(n', {VoteAnswer(id, n, n', req, logOk, w, g.now)}, k));
    AnswerOk(g, g', id, req, logOk, k, w);
    VoteCases(id, n, req, logOk, w, g.now);
    FinishStep(g, g', id, n', {VoteAnswer(id, n, n', req, logOk, w, g.now)}, k, w);
  }

  lemma NextNow(g: Group, g': Group, id: PeerId, e: Effect)
    requires id in g.peers && Moves(g, g', id, e)
    ensures g'.now == g.now + 1
  {
  }

  /** The last leader's vote for this candidate shows that it has left the term in which it was heard. */
  lemma LastLeaderLeft(g: Group, id: PeerId, rc: Receipt, voter: PeerId, w: World)
    requires Inv(g, w) && id in g.peers && rc in g.rec.receipts && rc.peer == id && rc.term < g.peers[id].term
    requires g.peers[id].lastLeader == Some(voter) && (voter, g.peers[id].term) in g.rec.votes
    ensures Superseded(rc, g.now, g.rec)
  {
    var n := g.peers[id];
    InvPeer(g, id, w);
    assert HeardOk(rc, n, g.rec, w, g.now) && ReceiptOk(rc, g.rec, g.now);
    if !Superseded(rc, g.now, g.rec) {
      assert Led(rc.term, g);
      InvPeer(g, voter, w);
      assert false;
    }
  }

  lemma TakenVotes(g: Group, id: PeerId, rep: Message, w: World)
    requires Inv(g, w) && GoodClocks(w) && id in g.peers && rep.VoteRep? && rep.cand == id && MsgOk(rep, g.rec, g.now)
    requires g.peers[id].role == R.Candidate && rep.reqTerm == g.peers[id].term && rep.term <= g.peers[id].term
    requires rep.granted || rep.rejectedByLease
    ensures var n := g.peers[id];
      var n', k := HandleVoteReply(id, n, rep), if id in HandleVoteReply(id, n, rep).votes then Counted(g.rec, id, n.term, g.now) else g.rec;
      Grows(id, g.rec, k) && NewOk(id, g.rec, k, w, g.now) && PeerInv(id, n', k, w, g.now + 1) && n'.term == n.term
  {
    hide NewOk, Inv, HeardOk, PeerInv, MsgOk, RecordOk, Grows, Superseded;
    var n := g.peers[id];
    InvPeer(g, id, w);
    CandidateVotes(id, n, g.rec, w, g.now);
    CountedHere(id, n, g.rec, w, rep, g.now);
    var n1 := if rep.disrupts then n.(disrupted := Some((rep.voter, rep.previousTerm))) else n;
    var n' := HandleVoteReply(id, n, rep);
    if rep.disrupts { DisruptedKeeps(id, n, rep, g.rec, w, g.now); }
    SameGrows(id, g.rec);
    SameNewOk(id, g.rec, w, g.now);
    if id in n'.votes && id !in n.votes {
      forall rc | rc in g.rec.receipts && rc.peer == id && rc.term < n.term ensures Superseded(rc, g.now, g.rec) {
        LastLeaderLeft(g, id, rc, rep.voter, w);
      }
      SelfCounts(id, n, g.rec, w, g.now);
      VotesKeep(id, n1, n'.votes, g.rec, Counted(g.rec, id, n.term, g.now), w, g.now);
    } else {
      VotesKeep(id, n1, n'.votes, g.rec, g.rec, w, g.now);
    }
  }

  lemma CandidateVotes(id: PeerId, n: Peer, h: Record, w: World, now: nat)
    requires PeerInv(id, n, h, w, now) && n.role == R.Candidate
    ensures (id, n.term) in h.votes && h.votes[(id, n.term)] == id
    ensures forall p :: p in n.votes ==> (p, n.term) in h.votes && h.votes[(p, n.term)] == id && (p, n.term) in h.counted
  {
  }

  lemma CountedHere(id: PeerId, n: Peer, h: Record, w: World, rep: Message, now: nat)
    requires PeerInv(id, n, h, w, now) && RecordOk(h, w, now) && n.role == R.Candidate
    requires rep.VoteRep? && rep.cand == id && rep.reqTerm == n.term && MsgOk(rep, h, now)
    ensures id in n.votes ==> Counted(h, id, n.term, now) == h
    ensures rep.granted ==> rep.voter != id && (rep.voter, n.term) in h.votes && h.votes[(rep.voter, n.term)] == id && (rep.voter, n.term) in h.counted
  {
    if rep.granted { assert h.votes[(rep.voter, n.term)] != rep.voter; }
  }

  lemma DisruptedKeeps(id: PeerId, n: Peer, rep: Message, h: Record, w: World, now: nat)
    requires PeerInv(id, n, h, w, now) && rep.VoteRep? && MsgOk(rep, h, now) && rep.disrupts && n.role == R.Candidate
    ensures PeerInv(id, n.(disrupted := Some((rep.voter, rep.previousTerm))), h, w, now)
  {
    var n' := n.(disrupted := Some((rep.voter, rep.previousTerm)));
    forall rc | rc in h.receipts && rc.peer == id ensures HeardOk(rc, n', h, w, now) { assert HeardOk(rc, n, h, w, now); }
  }

  lemma TakeVoteKeeps(g: Group, g': Group, id: PeerId, rep: Message, w: World)
    requires Inv(g, w) && GoodClocks(w) && id in g.peers && rep in g.msgs && rep.VoteRep? && rep.cand == id
    requires var n := g.peers[id];
      var n' := HandleVoteReply(id, n, rep);
      Moves(g, g', id, Effect(n', {}, if n.role == R.Candidate && id in n'.votes then Counted(g.rec, id, n.term, g.now) else g.rec))
    ensures Inv(g', w)
  {
    hide PeerInv, NewOk, Grows, MsgOk, Inv, RecordOk;
    var n := g.peers[id];
    var n' := HandleVoteReply(id, n, rep);
    var k := if n.role == R.Candidate && id in n'.votes then Counted(g.rec, id, n.term, g.now) else g.rec;
    InvPeer(g, id, w);
    InvMsg(g, rep, w);
    if n.role == R.Candidate && rep.reqTerm == n.term && rep.term <= n.term && (rep.granted || rep.rejectedByLease) {
      TakenVotes(g, id, rep, w);
      FinishStep(g, g', id, n', {}, k, w);
    } else {
      NotCandidateVotes(id, n, g.rec, w, g.now);
      TickKeeps(id, n, g.rec, w, g.now);
      StepDownKeeps(id, n, rep.term, g.rec, w, g.now);
      QuietStep(g, g', id, n', w);
    }
  }

  lemma NotCandidateVotes(id: PeerId, n: Peer, h: Record, w: World, now: nat)
    requires PeerInv(id, n, h, w, now)
    ensures id in n.votes && n.role == R.Candidate ==> Counted(h, id, n.term, now) == h
  {
  }

  // ----- winning

  /** Two quorums of one term share a voter, so a term has one winner. */
  lemma WinnerIs(id: PeerId, votes: set<PeerId>, t: nat, h: Record, w: World, now: nat)
    requires RecordOk(h, w, now) && t in h.elections && Granted(votes, w.conf)
    requires forall p :: p in votes ==> (p, t) in h.votes && h.votes[(p, t)] == id
    ensures h.elections[t].winner == id
  {
    assert ElectionOk(t, h, w, now);
    var v := GrantedMeet(votes, h.elections[t].voters, w.conf);
    assert VoterOk(v, t, h);
  }

  lemma TermIsFree(id: PeerId, n: Peer, h: Record, w: World, now: nat)
    requires PeerInv(id, n, h, w, now) && RecordOk(h, w, now) && n.role == R.Candidate && Granted(n.votes, w.conf)
    ensures n.term !in h.elections
  {
    if n.term in h.elections {
      WinnerIs(id, n.votes, n.term, h, w, now);
      assert false;
    }
  }

  function Won(h: Record, id: PeerId, n: Peer, now: nat): Record {
    h.(elections := h.elections[n.term := Election(id, n.votes, now)])
  }

  lemma WonRecord(id: PeerId, n: Peer, h: Record, w: World, now: nat)
    requires PeerInv(id, n, h, w, now) && RecordOk(h, w, now) && n.role == R.Candidate && Granted(n.votes, w.conf)
    ensures Grows(id, h, Won(h, id, n, now)) && NewOk(id, h, Won(h, id, n, now), w, now)
  {
    var k := Won(h, id, n, now);
    TermIsFree(id, n, h, w, now);
    assert ElectionOk(n.term, k, w, now + 1) by {
      forall v | v in n.votes ensures VoterOk(v, n.term, k) { assert CountedOk(v, n.term, h, w, now); }
    }
  }

  lemma LeaderKeeps(id: PeerId, n: Peer, stamps: Stamps, h: Record, w: World, now: nat)
    requires PeerInv(id, n, h, w, now) && RecordOk(h, w, now) && n.role == R.Candidate && Granted(n.votes, w.conf)
    requires forall p :: p in stamps ==> stamps[p] <= w.clk(id, now)
    ensures PeerInv(id, BecomeLeader(id, n, stamps), Won(h, id, n, now), w, now + 1)
  {
    var n', k := BecomeLeader(id, n, stamps), Won(h, id, n, now);
    TermIsFree(id, n, h, w, now);
    forall rc | rc in k.receipts && rc.peer == id ensures HeardOk(rc, n', k, w, now + 1) {
      assert HeardOk(rc, n, h, w, now) && ReceiptOk(rc, h, now);
      assert LaterElection(n.term, rc.term, now + 1, k);
    }
  }

  lemma LeadKeeps(g: Group, g': Group, id: PeerId, stamps: Stamps, w: World)
    requires Inv(g, w) && id in g.peers && g.peers[id].role == R.Candidate && Granted(g.peers[id].votes, w.conf)
    requires forall p :: p in stamps ==> stamps[p] <= w.clk(id, g.now)
    requires Moves(g, g', id, Effect(BecomeLeader(id, g.peers[id], stamps), {}, Won(g.rec, id, g.peers[id], g.now)))
    ensures Inv(g', w)
  {
    hide PeerInv, NewOk, Grows, Inv, RecordOk, Granted;
    InvPeer(g, id, w);
    WonRecord(id, g.peers[id], g.rec, w, g.now);
    LeaderKeeps(id, g.peers[id], stamps, g.rec, w, g.now);
    NextNow(g, g', id, Effect(BecomeLeader(id, g.peers[id], stamps), {}, Won(g.rec, id, g.peers[id], g.now)));
    FinishStep(g, g', id, BecomeLeader(id, g.peers[id], stamps), {}, Won(g.rec, id, g.peers[id], g.now), w);
  }

  // ----- contact

  lemma SendKeeps(g: Group, g': Group, id: PeerId, first: bool, w: World)
    requires Inv(g, w) && id in g.peers && g.peers[id].role == R.Leader
    requires Moves(g, g', id, Effect(g.peers[id], {Append(id, g.peers[id].term, g.now, first)}, g.rec))
    ensures Inv(g', w)
  {
    var n := g.peers[id];
    InvPeer(g, id, w);
    SameGrows(id, g.rec);
    SameNewOk(id, g.rec, w, g.now);
    TickKeeps(id, n, g.rec, w, g.now);
    assert ElectionOk(n.term, g.rec, w, g.now);
    FinishStep(g, g', id, n, {Append(id, n.term, g.now, first)}, g.rec, w);
  }

  /** The sender of a message of some term is the leader its receiver follows in that term. */
  lemma FollowsSender(id: PeerId, n: Peer, app: Message, h: Record, w: World, now: nat)
    requires PeerInv(id, n, h, w, now) && app.Append? && MsgOk(app, h, now) && app.src != id && app.term >= n.term
    ensures var n1 := CheckStepDown(n, app.term, app.src);
      PeerInv(id, n1, h, w, now) && n1.leaderId == Some(app.src) && n1.role == R.Follower && n1.term == app.term
  {
    var n0 := if app.term > n.term || n.role != R.Follower || n.leaderId.None? then StepDown(n, app.term) else n;
    if n0 != n { StepDownKeeps(id, n, app.term, h, w, now); }
    if n0.leaderId.None? {
      var n1 := n0.(leaderId := Some(app.src));
      forall rc | rc in h.receipts && rc.peer == id ensures HeardOk(rc, n1, h, w, now) { assert HeardOk(rc, n0, h, w, now); }
    }
  }

  function Got(h: Record, id: PeerId, app: Message, now: nat): Record
    requires app.Append?
  {
    h.(receipts := h.receipts + {Receipt(id, app.src, app.term, app.sent, now)})
  }

  /** Being heard renews the lease: it covers everything heard, in the name of the current leader. */
  lemma RenewKeeps(id: PeerId, n1: Peer, app: Message, h: Record, w: World, now: nat)
    requires PeerInv(id, n1, h, w, now) && RecordOk(h, w, now) && GoodClocks(w)
    requires app.Append? && MsgOk(app, h, now) && app.src != id
    requires n1.leaderId == Some(app.src) && n1.role == R.Follower && n1.term == app.term
    ensures var k := Got(h, id, app, now);
      && Grows(id, h, k) && NewOk(id, h, k, w, now)
      && PeerInv(id, n1.(lastLeader := Some(app.src), lastTs := w.clk(id, now)), k, w, now + 1)
  {
    var n' := n1.(lastLeader := Some(app.src), lastTs := w.clk(id, now));
    var k := Got(h, id, app, now);
    var newest := Receipt(id, app.src, app.term, app.sent, now);
    assert ElectionOk(app.term, h, w, now);
    forall rc | rc in k.receipts && rc.peer == id ensures HeardOk(rc, n', k, w, now + 1) {
      if rc in h.receipts {
        assert HeardOk(rc, n1, h, w, now) && ReceiptOk(rc, h, now);
        assert Forward(w, id, rc.got, now);
        if rc.term < app.term { assert LaterElection(app.term, rc.term, now + 1, k); }
      }
    }
    forall t | (id, t) in h.counted ensures t <= app.term { assert CountedOk(id, t, h, w, now); }
    assert ReceiptOk(newest, k, now + 1);
  }

  lemma ReceiveKeeps(g: Group, g': Group, id: PeerId, app: Message, stored: bool, w: World)
    requires Inv(g, w) && GoodClocks(w) && id in g.peers && app in g.msgs && app.Append? && app.src != id
    requires var n := g.peers[id];
      var n' := HandleAppend(id, n, app, w, g.now);
      Moves(g, g', id,
        if n'.leaderId == Some(app.src) && n'.term == app.term && app.term >= n.term
        then Effect(n', {Ack(id, app.term, app.sent, stored)}, Got(g.rec, id, app, g.now))
        else Effect(n', {}, g.rec))
    ensures Inv(g', w)
  {
    hide PeerInv, NewOk, Grows, Inv, RecordOk, CheckStepDown;
    var n := g.peers[id];
    InvPeer(g, id, w);
    InvMsg(g, app, w);
    if app.term >= n.term {
      var n1 := CheckStepDown(n, app.term, app.src);
      FollowsSender(id, n, app, g.rec, w, g.now);
      RenewKeeps(id, n1, app, g.rec, w, g.now);
      var rc := Receipt(id, app.src, app.term, app.sent, g.now);
      assert rc in g'.rec.receipts;
      FinishStep(g, g', id, HandleAppend(id, n, app, w, g.now), {Ack(id, app.term, app.sent, stored)}, Got(g.rec, id, app, g.now), w);
    } else {
      TickKeeps(id, n, g.rec, w, g.now);
      QuietStep(g, g', id, n, w);
    }
  }

  /** An answer shows that its sender was heard, no earlier than the request was sent, and after the election. */
  lemma AckHeard(id: PeerId, ack: Message, h: Record, w: World, now: nat)
    requires RecordOk(h, w, now) && GoodClocks(w) && ack.Ack? && MsgOk(ack, h, now)
    requires ack.term in h.elections && h.elections[ack.term].winner == id
    ensures Heard(ack.peer, id, ack.term, w.clk(id, h.elections[ack.term].at), h, w)
    ensures Heard(ack.peer, id, ack.term, w.clk(id, ack.sent), h, w)
  {
    var rc :| rc in h.receipts && rc.peer == ack.peer && rc.term == ack.term && rc.sent == ack.sent;
    assert ReceiptOk(rc, h, now);
    assert Forward(w, id, h.elections[ack.term].at, rc.sent);
  }

  lemma AckLeads(id: PeerId, n: Peer, ack: Message, h: Record, w: World)
    requires PeerLeads(id, n, h, w) && ack.Ack? && n.role == R.Leader && ack.term == n.term
    requires Heard(ack.peer, id, n.term, w.clk(id, h.elections[n.term].at), h, w)
    requires Heard(ack.peer, id, n.term, w.clk(id, ack.sent), h, w)
    ensures PeerLeads(id, HandleAck(id, n, ack, w), h, w)
  {
    hide Heard, HeardBy, Witnessed;
    var n' := HandleAck(id, n, ack, w);
    forall q | q in n'.stamps ensures StampOk(q, id, n', h, w) {
      if q in n.stamps { assert StampOk(q, id, n, h, w); }
    }
    if n'.lastActive != 0 { GrantedMonotone(n.firstAcks + {id}, n'.firstAcks + {id}, w.conf); }
  }

  lemma AckPeerKeeps(id: PeerId, n: Peer, ack: Message, h: Record, w: World, now: nat)
    requires PeerInv(id, n, h, w, now) && RecordOk(h, w, now) && GoodClocks(w) && ack.Ack? && MsgOk(ack, h, now)
    ensures PeerInv(id, HandleAck(id, n, ack, w), h, w, now)
  {
    hide Heard, HeardBy, Witnessed, RecordOk, GoodClocks, MsgOk, StampOk;
    var n' := HandleAck(id, n, ack, w);
    if n.role == R.Leader && ack.term == n.term {
      AckHeard(id, ack, h, w, now);
      AckLeads(id, n, ack, h, w);
      forall x | x in h.receipts && x.peer == id ensures HeardOk(x, n', h, w, now) { assert HeardOk(x, n, h, w, now); }
    }
  }

  lemma TakeAckKeeps(g: Group, g': Group, id: PeerId, ack: Message, w: World)
    requires Inv(g, w) && GoodClocks(w) && id in g.peers && ack in g.msgs && ack.Ack?
    requires Moves(g, g', id, Effect(HandleAck(id, g.peers[id], ack, w), {}, g.rec))
    ensures Inv(g', w)
  {
    hide PeerInv, Inv, RecordOk, MsgOk;
    InvPeer(g, id, w);
    InvMsg(g, ack, w);
    AckPeerKeeps(id, g.peers[id], ack, g.rec, w, g.now);
    TickKeeps(id, HandleAck(id, g.peers[id], ack, w), g.rec, w, g.now);
    QuietStep(g, g', id, HandleAck(id, g.peers[id], ack, w), w);
  }

  // ----- the leader lease

  lemma ActiveMajority(stamps: Stamps, peers: set<PeerId>, id: PeerId, clock: int, a: int, t: int, q: set<PeerId>)
    requires IsActiveSince(stamps, peers, id, clock, a) && id in peers && t <= a
    requires id in q && Reached(stamps, peers, id, t) <= q
    ensures Majority(q, peers)
  {
    if peers - {id} == {} {
      assert peers == {id};
      assert q * peers == {id};
    } else {
      assert Reached(stamps, peers, id, a) + {id} <= q;
      SubsetSize((Reached(stamps, peers, id, a) + {id}) * peers, q * peers);
    }
  }

  ghost function Contacts(n: Peer, id: PeerId, c: Conf, t: int): set<PeerId> {
    Reached(n.stamps, c.peers, id, t) + Reached(n.stamps, c.oldPeers, id, t) + {id}
  }

  lemma ContactsGranted(n: Peer, id: PeerId, w: World, now: nat, t: int)
    requires ActiveSince(n, id, w, now, t) && FullMember(w.conf, id)
    ensures Granted(Contacts(n, id, w.conf, t), w.conf)
  {
    var clock := w.clk(id, now);
    var q := Contacts(n, id, w.conf, t);
    if w.conf.Stable() {
      ActiveMajority(n.stamps, w.conf.peers, id, clock, t, t, q);
    } else {
      var a, b :| IsActiveSince(n.stamps, w.conf.peers, id, clock, a) && IsActiveSince(n.stamps, w.conf.oldPeers, id, clock, b)
        && t == if a <= b then a else b;
      ActiveMajority(n.stamps, w.conf.peers, id, clock, a, t, q);
      ActiveMajority(n.stamps, w.conf.oldPeers, id, clock, b, t, q);
    }
  }

  /** Stamps later than the election were set by contact. */
  lemma ContactsHeard(id: PeerId, n: Peer, t: int, h: Record, w: World)
    requires PeerLeads(id, n, h, w) && n.role == R.Leader && t > w.clk(id, h.elections[n.term].at) >= 0
    ensures forall p :: p in Contacts(n, id, w.conf, t) && p != id ==> Heard(p, id, n.term, t, h, w)
  {
    forall p | p in Contacts(n, id, w.conf, t) && p != id ensures Heard(p, id, n.term, t, h, w) {
      assert StampOk(p, id, n, h, w);
      HeardEarlier(p, id, n.term, n.stamps[p], t, h, w);
    }
  }

  lemma HeardEarlier(q: PeerId, id: PeerId, term: nat, t: int, s: int, h: Record, w: World)
    requires Heard(q, id, term, t, h, w) && s <= t
    ensures Heard(q, id, term, s, h, w)
  {
  }

  /** Those that stored the first entry were in contact after the election. */
  lemma FirstAcksHeard(id: PeerId, n: Peer, t: int, h: Record, w: World)
    requires PeerLeads(id, n, h, w) && n.role == R.Leader && t <= w.clk(id, h.elections[n.term].at)
    ensures forall p :: p in n.firstAcks + {id} && p != id ==> Heard(p, id, n.term, t, h, w)
  {
    forall p | p in n.firstAcks ensures Heard(p, id, n.term, t, h, w) {
      HeardEarlier(p, id, n.term, w.clk(id, h.elections[n.term].at), t, h, w);
    }
  }

  /** What the leader takes as its lease's start is witnessed: stamps set without contact never outrun the first entry's quorum. */
  lemma ActiveIsWitnessed(id: PeerId, n: Peer, t: int, h: Record, w: World, now: nat)
    requires PeerLeads(id, n, h, w) && RecordOk(h, w, now) && GoodClocks(w) && n.role == R.Leader
    requires Granted(n.firstAcks + {id}, w.conf) && ActiveSince(n, id, w, now, t)
    ensures Witnessed(id, n.term, t, h, w)
  {
    hide Granted, ActiveSince, Heard, StampOk, Contacts;
    assert ElectionOk(n.term, h, w, now);
    var at := h.elections[n.term].at;
    assert Forward(w, id, at, at);
    if t <= w.clk(id, at) {
      FirstAcksHeard(id, n, t, h, w);
      assert HeardBy(n.firstAcks + {id}, id, n.term, t, h, w);
    } else {
      ContactsGranted(n, id, w, now, t);
      ContactsHeard(id, n, t, h, w);
      assert HeardBy(Contacts(n, id, w.conf, t), id, n.term, t, h, w);
    }
  }

  lemma LeaseKeeps(id: PeerId, n: Peer, t: int, h: Record, w: World, now: nat)
    requires PeerInv(id, n, h, w, now) && RecordOk(h, w, now) && GoodClocks(w) && n.role == R.Leader
    requires Granted(n.firstAcks + {id}, w.conf) && ActiveSince(n, id, w, now, t)
    ensures PeerInv(id, n.(lastActive := t), h, w, now)
  {
    var n' := n.(lastActive := t);
    ActiveIsWitnessed(id, n, t, h, w, now);
    forall q | q in n'.stamps ensures StampOk(q, id, n', h, w) { assert StampOk(q, id, n, h, w); }
    forall x | x in h.receipts && x.peer == id ensures HeardOk(x, n', h, w, now) { assert HeardOk(x, n, h, w, now); }
  }

  lemma StartLeaseKeeps(g: Group, g': Group, id: PeerId, t: int, w: World)
    requires Inv(g, w) && GoodClocks(w) && id in g.peers && g.peers[id].role == R.Leader
    requires Granted(g.peers[id].firstAcks + {id}, w.conf) && ActiveSince(g.peers[id], id, w, g.now, t)
    requires Moves(g, g', id, Effect(g.peers[id].(lastActive := t), {}, g.rec))
    ensures Inv(g', w)
  {
    hide PeerInv, Inv, RecordOk, Granted, ActiveSince;
    InvPeer(g, id, w);
    LeaseKeeps(id, g.peers[id], t, g.rec, w, g.now);
    TickKeeps(id, g.peers[id].(lastActive := t), g.rec, w, g.now);
    QuietStep(g, g', id, g.peers[id].(lastActive := t), w);
  }

  lemma StartedBefore(id: PeerId, n: Peer, h: Record, w: World, now: nat)
    requires PeerInv(id, n, h, w, now) && n.role == R.Leader && n.lastActive != 0
    ensures Granted(n.firstAcks + {id}, w.conf)
  {
  }

  lemma RenewLeaseKeeps(g: Group, g': Group, id: PeerId, t: int, w: World)
    requires Inv(g, w) && GoodClocks(w) && id in g.peers && g.peers[id].role == R.Leader && g.peers[id].lastActive != 0
    requires ActiveSince(g.peers[id], id, w, g.now, t)
    requires Moves(g, g', id, Effect(RenewLease(id, g.peers[id], t, w, g.now), {}, g.rec))
    ensures Inv(g', w)
  {
    hide PeerInv, Inv, RecordOk, Granted, ActiveSince;
    var n := g.peers[id];
    InvPeer(g, id, w);
    StartedBefore(id, n, g.rec, w, g.now);
    LeaseKeeps(id, n, t, g.rec, w, g.now);
    TickKeeps(id, n.(lastActive := t), g.rec, w, g.now);
    StepDownKeeps(id, n.(lastActive := t), n.term, g.rec, w, g.now);
    QuietStep(g, g', id, RenewLease(id, n, t, w, g.now), w);
  }

  // ----- all steps, all runs

  lemma InitKeeps(g: Group, w: World)
    requires Init(g)
    ensures Inv(g, w)
  {
  }

  lemma ElectionSteps(g: Group, g': Group, id: PeerId, a: Action, w: World)
    requires Inv(g, w) && GoodClocks(w) && Step(g, g', id, a, w)
    requires a.Elect? || a.Ask? || a.GrantSelf? || a.Vote? || a.TakeVote? || a.Lead?
    ensures Inv(g', w)
  {
    hide Inv, Moves, GoodClocks;
    match a
    case Elect => ElectKeeps(g, g', id, w);
    case Ask => AskKeeps(g, g', id, w);
    case GrantSelf => GrantSelfKeeps(g, g', id, w);
    case Vote(req, logOk) => VoteKeeps(g, g', id, req, logOk, w);
    case TakeVote(rep) => TakeVoteKeeps(g, g', id, rep, w);
    case Lead(stamps) => LeadKeeps(g, g', id, stamps, w);
  }

  lemma ContactSteps(g: Group, g': Group, id: PeerId, a: Action, w: World)
    requires Inv(g, w) && GoodClocks(w) && Step(g, g', id, a, w)
    requires !(a.Elect? || a.Ask? || a.GrantSelf? || a.Vote? || a.TakeVote? || a.Lead?)
    ensures Inv(g', w)
  {
    hide Inv, Moves, GoodClocks;
    match a
    case Send(first) => SendKeeps(g, g', id, first, w);
    case Receive(app, stored) => ReceiveKeeps(g, g', id, app, stored, w);
    case TakeAck(ack) => TakeAckKeeps(g, g', id, ack, w);
    case StartLease(t) => StartLeaseKeeps(g, g', id, t, w);
    case Renew(t) => RenewLeaseKeeps(g, g', id, t, w);
    case GiveUp(term) => GiveUpKeeps(g, g', id, term, w);
    case Restart => RestartKeeps(g, g', id, w);
  }

  lemma {:induction false} RunInv(r: seq<Group>, i: nat, w: World)
    requires Run(r, w) && GoodClocks(w) && i < |r|
    ensures Inv(r[i], w)
  {
    hide Inv, GoodClocks, Step;
    if i == 0 {
      InitKeeps(r[0], w);
    } else {
      RunInv(r, i - 1, w);
      assert SomeStep(r[i - 1], r[i], w);
      var id, a :| Step(r[i - 1], r[i], id, a, w);
      if a.Elect? || a.Ask? || a.GrantSelf? || a.Vote? || a.TakeVote? || a.Lead? {
        ElectionSteps(r[i - 1], r[i], id, a, w);
      } else {
        ContactSteps(r[i - 1], r[i], id, a, w);
      }
    }
  }

  /** While one node's leader lease is valid, no node leads, or has ever led, a later term. */
  lemma NoLaterLeader(r: seq<Group>, i: nat, a: PeerId, b: PeerId, w: World)
    requires Run(r, w) && GoodClocks(w) && i < |r| && a in r[i].peers && b in r[i].peers
    requires LeaseValid(a, r[i].peers[a], w, r[i].now)
    ensures r[i].peers[b].role == R.Leader ==> r[i].peers[b].term <= r[i].peers[a].term
    ensures forall u :: u in r[i].rec.elections ==> u <= r[i].peers[a].term
  {
    RunInv(r, i, w);
    InvPeer(r[i], b, w);
    forall u | u in r[i].rec.elections ensures u <= r[i].peers[a].term { ValidMeansNewest(a, u, r[i], w); }
  }

  /** At most one node of a group holds a valid leader lease. */
  lemma OneValidLease(r: seq<Group>, i: nat, a: PeerId, b: PeerId, w: World)
    requires Run(r, w) && GoodClocks(w) && i < |r| && a in r[i].peers && b in r[i].peers
    requires LeaseValid(a, r[i].peers[a], w, r[i].now) && LeaseValid(b, r[i].peers[b], w, r[i].now)
    ensures a == b
  {
    NoLaterLeader(r, i, a, b, w);
    NoLaterLeader(r, i, b, a, w);
    RunInv(r, i, w);
    InvPeer(r[i], a, w);
    InvPeer(r[i], b, w);
  }
}
