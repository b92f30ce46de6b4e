/** What every step of LeaseProtocol keeps. */
module LeaseInvariant {
  import opened Quorum
  import opened Leases
  import opened LeaseProtocol
  import R = RaftNode

  // ----- the record

  ghost predicate LaterElection(u: nat, term: nat, before: nat, h: Record) {
    u in h.elections && u > term && h.elections[u].at < before
  }

  /** The leader that was heard is no longer the newest: it has left, or a later one was elected. */
  ghost predicate Superseded(rc: Receipt, before: nat, h: Record) {
    (rc.leader, rc.term) in h.left || exists u :: LaterElection(u, rc.term, before, h)
  }

  /** At step `i` the lease given by `rc` had run out, or its leader was superseded. */
  ghost predicate Lapsed(rc: Receipt, i: nat, h: Record, w: World) {
    w.clk(rc.peer, i) - w.clk(rc.peer, rc.got) >= w.et + w.drift || Superseded(rc, i, h)
  }

  ghost predicate Outlived(rc: Receipt, i: nat, h: Record, w: World) {
    rc.got <= i && Lapsed(rc, i, h, w)
  }

  /** When the vote was first counted, no earlier leader the voter had heard held its lease. */
  ghost predicate CountedOk(v: PeerId, t: nat, h: Record, w: World, now: nat)
    requires (v, t) in h.counted
  {
    && (v, t) in h.votes && h.counted[(v, t)] < now
    && forall rc {:trigger Outlived(rc, h.counted[(v, t)], h, w)} ::
         rc in h.receipts && rc.peer == v && rc.term < t ==> Outlived(rc, h.counted[(v, t)], h, w)
  }

  ghost predicate VoterOk(v: PeerId, t: nat, h: Record)
    requires t in h.elections
  {
    && (v, t) in h.votes && h.votes[(v, t)] == h.elections[t].winner
    && (v, t) in h.counted && h.counted[(v, t)] <= h.elections[t].at
  }

  ghost predicate ElectionOk(t: nat, h: Record, w: World, now: nat)
    requires t in h.elections
  {
    && t >= 2 && h.elections[t].at < now && Granted(h.elections[t].voters, w.conf)
    && FullMember(w.conf, h.elections[t].winner)
    && forall v {:trigger VoterOk(v, t, h)} :: v in h.elections[t].voters ==> VoterOk(v, t, h)
  }

  ghost predicate ReceiptOk(rc: Receipt, h: Record, now: nat) {
    && rc.term in h.elections && h.elections[rc.term].winner == rc.leader && rc.peer != rc.leader
    && h.elections[rc.term].at < rc.sent <= rc.got < now
  }

  ghost predicate RecordOk(h: Record, w: World, now: nat) {
    && (forall v, t {:trigger CountedOk(v, t, h, w, now)} :: (v, t) in h.counted ==> CountedOk(v, t, h, w, now))
    && (forall t {:trigger ElectionOk(t, h, w, now)} :: t in h.elections ==> ElectionOk(t, h, w, now))
    && (forall rc {:trigger ReceiptOk(rc, h, now)} :: rc in h.receipts ==> ReceiptOk(rc, h, now))
    && (forall v, t {:trigger h.votes[(v, t)]} :: (v, t) in h.votes && h.votes[(v, t)] != v ==> (v, t) in h.counted)
    && (forall p, t {:trigger (p, t) in h.left} :: (p, t) in h.left ==> t in h.elections && h.elections[t].winner == p)
  }

  // ----- one node

  ghost predicate PeerVotes(id: PeerId, n: Peer, h: Record, w: World) {
    && n.term >= 1
    && (forall t {:trigger (id, t) in h.votes} :: (id, t) in h.votes ==>
          t <= n.term && (t == n.term ==> n.votedFor == Some(h.votes[(id, t)])))
    && (n.votedFor.Some? ==> (id, n.term) in h.votes)
    && (forall t {:trigger h.elections[t]} :: t in h.elections && h.elections[t].winner == id ==>
          t <= n.term && (t == n.term ==> n.role != R.Candidate))
    && (n.leaderId.Some? ==> n.term in h.elections && h.elections[n.term].winner == n.leaderId.value)
    && (n.role == R.Candidate ==>
          && n.term >= 2 && n.votedFor == Some(id) && FullMember(w.conf, id)
          && forall p :: p in n.votes ==> (p, n.term) in h.votes && h.votes[(p, n.term)] == id && (p, n.term) in h.counted)
    && (n.disrupted.Some? ==> n.disrupted.value in h.left)
    && (n.role == R.Leader ==> (id, n.term) !in h.left)
  }

  /** The follower lease still covers what was heard, in the name of the leader heard last; or that leader is superseded. */
  ghost predicate Covered(rc: Receipt, n: Peer, h: Record, w: World, now: nat) {
    || (n.lastTs >= w.clk(rc.peer, rc.got) && (n.lastLeader.None? || n.lastLeader == Some(rc.leader)))
    || Superseded(rc, now, h)
  }

  ghost predicate HeardOk(rc: Receipt, n: Peer, h: Record, w: World, now: nat) {
    rc.term <= n.term && Covered(rc, n, h, w, now)
  }

  ghost predicate PeerReceipts(id: PeerId, n: Peer, h: Record, w: World, now: nat) {
    forall rc {:trigger HeardOk(rc, n, h, w, now)} :: rc in h.receipts && rc.peer == id ==> HeardOk(rc, n, h, w, now)
  }

  /** `q` heard the leader `id` of `term` by a message that `id` sent at its own time `t` or later. */
  ghost predicate Heard(q: PeerId, id: PeerId, term: nat, t: int, h: Record, w: World) {
    exists rc :: rc in h.receipts && rc.peer == q && rc.leader == id && rc.term == term && w.clk(id, rc.sent) >= t
  }

  ghost predicate HeardBy(q: set<PeerId>, id: PeerId, term: nat, t: int, h: Record, w: World) {
    Granted(q, w.conf) && forall p :: p in q ==> p == id || Heard(p, id, term, t, h, w)
  }

  /** A quorum, counting the leader, was in contact at or after `t`. */
  ghost predicate Witnessed(id: PeerId, term: nat, t: int, h: Record, w: World) {
    exists q :: HeardBy(q, id, term, t, h, w)
  }

  ghost predicate StampOk(q: PeerId, id: PeerId, n: Peer, h: Record, w: World)
    requires n.term in h.elections && q in n.stamps
  {
    n.stamps[q] <= w.clk(id, h.elections[n.term].at) || Heard(q, id, n.term, n.stamps[q], h, w)
  }

  ghost predicate PeerLeads(id: PeerId, n: Peer, h: Record, w: World) {
    if n.role == R.Leader then
      && n.term in h.elections && h.elections[n.term].winner == id
      && (forall q {:trigger StampOk(q, id, n, h, w)} :: q in n.stamps ==> StampOk(q, id, n, h, w))
      && (forall q {:trigger q in n.firstAcks} :: q in n.firstAcks ==> Heard(q, id, n.term, w.clk(id, h.elections[n.term].at), h, w))
      && (n.lastActive != 0 ==> Granted(n.firstAcks + {id}, w.conf) && Witnessed(id, n.term, n.lastActive, h, w))
    else n.lastActive == 0
  }

  ghost predicate PeerInv(id: PeerId, n: Peer, h: Record, w: World, now: nat) {
    PeerVotes(id, n, h, w) && PeerReceipts(id, n, h, w, now) && PeerLeads(id, n, h, w)
  }

  ghost predicate MsgOk(m: Message, h: Record, now: nat) {
    match m
    case VoteReq(_, _, disrupted) => disrupted.Some? ==> disrupted.value in h.left
    case VoteRep(voter, cand, reqTerm, term, granted, _, disrupts, previousTerm) =>
      && (granted ==> term == reqTerm && (voter, term) in h.votes && h.votes[(voter, term)] == cand && voter != cand)
      && (disrupts ==> (voter, previousTerm) in h.left)
    case Append(src, term, sent, _) =>
      term in h.elections && h.elections[term].winner == src && h.elections[term].at < sent < now
    case Ack(peer, term, sent, _) =>
      exists rc :: rc in h.receipts && rc.peer == peer && rc.term == term && rc.sent == sent
  }

  /** A winner still leads its term, or has left it. */
  ghost predicate Led(t: nat, g: Group)
    requires t in g.rec.elections
  {
    var p := g.rec.elections[t].winner;
    p in g.peers && ((g.peers[p].role == R.Leader && g.peers[p].term == t) || (p, t) in g.rec.left)
  }

  ghost predicate Inv(g: Group, w: World) {
    && RecordOk(g.rec, w, g.now)
    && (forall id {:trigger PeerInv(id, g.peers[id], g.rec, w, g.now)} :: id in g.peers ==> PeerInv(id, g.peers[id], g.rec, w, g.now))
    && (forall m {:trigger MsgOk(m, g.rec, g.now)} :: m in g.msgs ==> MsgOk(m, g.rec, g.now))
    && (forall t {:trigger Led(t, g)} :: t in g.rec.elections ==> Led(t, g))
    && (forall v, t {:trigger (v, t) in g.rec.votes} :: (v, t) in g.rec.votes ==> v in g.peers)
  }

  // ----- growth

  /** `k` extends `h`; everything new concerns node `id`, and nothing is heard in a term below its votes. */
  ghost predicate Grows(id: PeerId, h: Record, k: Record) {
    && (forall v, t {:trigger (v, t) in k.votes} {:trigger (v, t) in h.votes} ::
          ((v, t) in h.votes ==> (v, t) in k.votes && k.votes[(v, t)] == h.votes[(v, t)])
          && ((v, t) in k.votes && (v, t) !in h.votes ==> v == id))
    && (forall v, t {:trigger (v, t) in k.counted} {:trigger (v, t) in h.counted} ::
          ((v, t) in h.counted ==> (v, t) in k.counted && k.counted[(v, t)] == h.counted[(v, t)])
          && ((v, t) in k.counted && (v, t) !in h.counted ==> v == id))
    && (forall t {:trigger t in k.elections} {:trigger t in h.elections} ::
          (t in h.elections ==> t in k.elections && k.elections[t] == h.elections[t])
          && (t in k.elections && t !in h.elections ==> k.elections[t].winner == id))
    && h.receipts <= k.receipts && (forall rc :: rc in k.receipts && rc !in h.receipts ==> rc.peer == id)
    && h.left <= k.left && (forall x {:trigger x in k.left} :: x in k.left && x !in h.left ==> x.0 == id)
  }

  lemma SupersededGrows(rc: Receipt, i: nat, j: nat, id: PeerId, h: Record, k: Record)
    requires Grows(id, h, k) && Superseded(rc, i, h) && i <= j
    ensures Superseded(rc, j, k)
  {
    if (rc.leader, rc.term) !in h.left {
      var u :| LaterElection(u, rc.term, i, h);
      assert LaterElection(u, rc.term, j, k);
    }
  }

  lemma HeardGrows(q: PeerId, leader: PeerId, term: nat, t: int, s: int, id: PeerId, h: Record, k: Record, w: World)
    requires Grows(id, h, k) && Heard(q, leader, term, t, h, w) && s <= t
    ensures Heard(q, leader, term, s, k, w)
  {
  }

  lemma WitnessedGrows(leader: PeerId, term: nat, t: int, id: PeerId, h: Record, k: Record, w: World)
    requires Grows(id, h, k) && Witnessed(leader, term, t, h, w)
    ensures Witnessed(leader, term, t, k, w)
  {
    var q :| HeardBy(q, leader, term, t, h, w);
    forall p | p in q ensures p == leader || Heard(p, leader, term, t, k, w) {
      if p != leader { HeardGrows(p, leader, term, t, t, id, h, k, w); }
    }
    assert HeardBy(q, leader, term, t, k, w);
  }

  lemma CountedGrows(v: PeerId, t: nat, id: PeerId, h: Record, k: Record, w: World, now: nat)
    requires Grows(id, h, k) && (v, t) in h.counted && CountedOk(v, t, h, w, now)
    requires forall rc :: rc in k.receipts && rc !in h.receipts && rc.peer == v ==> rc.term >= t
    ensures CountedOk(v, t, k, w, now + 1)
  {
    var i := h.counted[(v, t)];
    forall rc | rc in k.receipts && rc.peer == v && rc.term < t ensures Outlived(rc, i, k, w) {
      assert Outlived(rc, i, h, w);
      if Superseded(rc, i, h) { SupersededGrows(rc, i, i, id, h, k); }
    }
  }

  lemma ElectionGrows(t: nat, id: PeerId, h: Record, k: Record, w: World, now: nat)
    requires Grows(id, h, k) && t in h.elections && ElectionOk(t, h, w, now)
    ensures ElectionOk(t, k, w, now + 1)
  {
    forall v | v in k.elections[t].voters ensures VoterOk(v, t, k) { assert VoterOk(v, t, h); }
  }

  /** What has to be checked of a record that has grown: only what is new. */
  ghost predicate NewOk(id: PeerId, h: Record, k: Record, w: World, now: nat) {
    && (forall t {:trigger CountedOk(id, t, k, w, now + 1)} :: (id, t) in k.counted && (id, t) !in h.counted ==> CountedOk(id, t, k, w, now + 1))
    && (forall t {:trigger ElectionOk(t, k, w, now + 1)} :: t in k.elections && t !in h.elections ==> ElectionOk(t, k, w, now + 1))
    && (forall rc {:trigger ReceiptOk(rc, k, now + 1)} :: rc in k.receipts && rc !in h.receipts ==> ReceiptOk(rc, k, now + 1))
    && (forall rc, t {:trigger rc in k.receipts, (id, t) in h.counted} ::
          rc in k.receipts && rc !in h.receipts && (id, t) in h.counted ==> rc.term >= t)
    && (forall t {:trigger k.votes[(id, t)]} :: (id, t) in k.votes && (id, t) !in h.votes && k.votes[(id, t)] != id ==> (id, t) in k.counted)
    && (forall x {:trigger x in k.left} :: x in k.left && x !in h.left ==> x.1 in k.elections && k.elections[x.1].winner == x.0)
  }

  lemma RecordGrows(id: PeerId, h: Record, k: Record, w: World, now: nat)
    requires RecordOk(h, w, now) && Grows(id, h, k) && NewOk(id, h, k, w, now)
    ensures RecordOk(k, w, now + 1)
  {
    forall v, t | (v, t) in k.counted ensures CountedOk(v, t, k, w, now + 1) {
      if (v, t) in h.counted {
        assert CountedOk(v, t, h, w, now);
        CountedGrows(v, t, id, h, k, w, now);
      }
    }
    forall t | t in k.elections ensures ElectionOk(t, k, w, now + 1) {
      if t in h.elections {
        assert ElectionOk(t, h, w, now);
        ElectionGrows(t, id, h, k, w, now);
      }
    }
    forall rc | rc in k.receipts ensures ReceiptOk(rc, k, now + 1) {
      if rc in h.receipts { assert ReceiptOk(rc, h, now); }
    }
    forall v, t | (v, t) in k.votes && k.votes[(v, t)] != v ensures (v, t) in k.counted {
      if (v, t) in h.votes { assert h.votes[(v, t)] != v; }
    }
  }

  lemma ReceiptsGrow(j: PeerId, n: Peer, id: PeerId, h: Record, k: Record, w: World, now: nat)
    requires Grows(id, h, k) && PeerReceipts(j, n, h, w, now)
    requires forall rc :: rc in k.receipts && rc.peer == j ==> rc in h.receipts
    ensures PeerReceipts(j, n, k, w, now + 1)
  {
    forall rc | rc in k.receipts && rc.peer == j ensures HeardOk(rc, n, k, w, now + 1) {
      assert HeardOk(rc, n, h, w, now);
      if Superseded(rc, now, h) { SupersededGrows(rc, now, now + 1, id, h, k); }
    }
  }

  lemma LeadsGrow(j: PeerId, n: Peer, id: PeerId, h: Record, k: Record, w: World)
    requires Grows(id, h, k) && PeerLeads(j, n, h, w)
    ensures PeerLeads(j, n, k, w)
  {
    if n.role == R.Leader {
      var at := w.clk(j, h.elections[n.term].at);
      forall q | q in n.stamps ensures StampOk(q, j, n, k, w) {
        assert StampOk(q, j, n, h, w);
        if n.stamps[q] > at { HeardGrows(q, j, n.term, n.stamps[q], n.stamps[q], id, h, k, w); }
      }
      forall q | q in n.firstAcks ensures Heard(q, j, n.term, at, k, w) { HeardGrows(q, j, n.term, at, at, id, h, k, w); }
      if n.lastActive != 0 { WitnessedGrows(j, n.term, n.lastActive, id, h, k, w); }
    }
  }

  /** Nodes that do not act are not disturbed. */
  lemma OthersKeep(j: PeerId, n: Peer, id: PeerId, h: Record, k: Record, w: World, now: nat)
    requires Grows(id, h, k) && j != id && PeerInv(j, n, h, w, now)
    ensures PeerInv(j, n, k, w, now + 1)
  {
    ReceiptsGrow(j, n, id, h, k, w, now);
    LeadsGrow(j, n, id, h, k, w);
  }

  lemma MsgGrows(m: Message, id: PeerId, h: Record, k: Record, now: nat)
    requires Grows(id, h, k) && MsgOk(m, h, now)
    ensures MsgOk(m, k, now + 1)
  {
    if m.VoteRep? && m.granted { assert (m.voter, m.term) in h.votes; }
    if m.Append? { assert m.term in h.elections; }
    if m.Ack? {
      var rc :| rc in h.receipts && rc.peer == m.peer && rc.term == m.term && rc.sent == m.sent;
      assert rc in k.receipts;
    }
  }

  /** One node acts: it suffices to look at that node, what it sends and what is new in the record. */
  lemma StepKeeps(g: Group, g': Group, id: PeerId, n': Peer, sent: set<Message>, w: World)
    requires Inv(g, w) && id in g.peers
    requires g'.peers == g.peers[id := n'] && g'.msgs <= g.msgs + sent && g'.now == g.now + 1
    requires Grows(id, g.rec, g'.rec) && NewOk(id, g.rec, g'.rec, w, g.now)
    requires PeerInv(id, n', g'.rec, w, g'.now)
    requires forall m :: m in sent ==> MsgOk(m, g'.rec, g'.now)
    requires forall t {:trigger t in g'.rec.elections} :: t in g'.rec.elections && g'.rec.elections[t].winner == id ==>
      (n'.role == R.Leader && n'.term == t) || (id, t) in g'.rec.left
    ensures Inv(g', w)
  {
    RecordGrows(id, g.rec, g'.rec, w, g.now);
    forall j | j in g'.peers ensures PeerInv(j, g'.peers[j], g'.rec, w, g'.now) {
      if j != id {
        assert PeerInv(j, g.peers[j], g.rec, w, g.now);
        OthersKeep(j, g.peers[j], id, g.rec, g'.rec, w, g.now);
      }
    }
    forall m | m in g'.msgs ensures MsgOk(m, g'.rec, g'.now) {
      if m in g.msgs {
        assert MsgOk(m, g.rec, g.now);
        MsgGrows(m, id, g.rec, g'.rec, g.now);
      }
    }
    forall t | t in g'.rec.elections ensures Led(t, g') {
      if t in g.rec.elections { assert Led(t, g); }
    }
  }

  // ----- the argument: a later election means that some peer of any quorum has been silent for a whole lease

  /** A leader cannot have heard all of a quorum within its lease when a later leader was elected. */
  lemma {:induction false} LeaseEnds(id: PeerId, u: nat, q: set<PeerId>, t: int, g: Group, w: World)
    requires Inv(g, w) && GoodClocks(w) && id in g.peers && g.peers[id].role == R.Leader
    requires u in g.rec.elections && u > g.peers[id].term
    requires HeardBy(q, id, g.peers[id].term, t, g.rec, w)
    ensures w.clk(id, g.rec.elections[u].at) - t >= w.et
    decreases g.rec.elections[u].at
  {
    var h, n := g.rec, g.peers[id];
    var e := h.elections[u];
    assert PeerInv(id, n, h, w, g.now);
    assert ElectionOk(u, h, w, g.now);
    var v := GrantedMeet(q, e.voters, w.conf);
    assert VoterOk(v, u, h);
    assert v != id;
    var rc :| rc in h.receipts && rc.peer == v && rc.leader == id && rc.term == n.term && w.clk(id, rc.sent) >= t;
    var i := h.counted[(v, u)];
    assert CountedOk(v, u, h, w, g.now);
    assert Outlived(rc, i, h, w) && ReceiptOk(rc, h, g.now);
    assert Forward(w, id, rc.sent, rc.got) && Forward(w, id, i, e.at);
    if Superseded(rc, i, h) {
      var u' :| LaterElection(u', rc.term, i, h);
      LeaseEnds(id, u', q, t, g, w);
      assert Forward(w, id, h.elections[u'].at, e.at);
    } else {
      assert InStep(w, id, v, rc.got, i);
    }
  }

  /** While a leader's lease is valid, nobody has been elected in a later term. */
  lemma ValidMeansNewest(id: PeerId, u: nat, g: Group, w: World)
    requires Inv(g, w) && GoodClocks(w) && id in g.peers && LeaseValid(id, g.peers[id], w, g.now)
    requires u in g.rec.elections
    ensures u <= g.peers[id].term
  {
    var n := g.peers[id];
    assert PeerInv(id, n, g.rec, w, g.now);
    if u > n.term {
      var q :| HeardBy(q, id, n.term, n.lastActive, g.rec, w);
      assert ElectionOk(u, g.rec, w, g.now);
      assert Forward(w, id, g.rec.elections[u].at, g.now);
      LeaseEnds(id, u, q, n.lastActive, g, w);
      assert false;
    }
  }
}
