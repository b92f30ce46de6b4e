/** The state of a whole group and the invariant its steps keep, node by node and message by message. */
module RaftInvariant {
  import opened Quorum
  import opened LogTypes
  import opened BallotSpec
  import opened RaftNode
  import opened RaftHistory
  import opened RaftGrowth

  datatype Msg =
    | VoteReq(vreq: VoteRequest)
    | VoteRep(vrep: VoteReply)
    | AppendReq(areq: AppendRequest)
    | AppendRep(arep: AppendReply)

  datatype State = State(nodes: map<PeerId, Node>, msgs: set<Msg>, hist: History)

  function QueueLogs(q: seq<Write>): (v: seq<Log>)
    ensures |v| == |q|
    ensures forall i :: 0 <= i < |q| ==> v[i] == q[i].log
  {
    if q == [] then [] else QueueLogs(q[..|q| - 1]) + [q[|q| - 1].log]
  }

  /** The logs the disk holds now and will hold as the queue drains. */
  function Versions(n: Node): (v: seq<Log>)
    ensures |v| == |n.queue| + 1
    ensures v[0] == n.disk
    ensures forall i :: 0 <= i < |n.queue| ==> v[i + 1] == n.queue[i].log
  {
    [n.disk] + QueueLogs(n.queue)
  }

  ghost predicate VersionOk(x: Log, term: nat, h: History) {
    ValidLog(x, h) && TermsBelow(x, term + 1)
  }

  /** One disk task loses only what some later leader was elected without. */
  ghost predicate Turns(v: seq<Log>, i: nat, term: nat, h: History)
    requires i + 1 < |v|
  {
    Evolves(v[i], v[i + 1], term, h)
  }

  ghost predicate NodeLogs(id: PeerId, n: Node, h: History) {
    var v := Versions(n);
    && n.log == v[|v| - 1]
    && id in h.disks && n.disk in h.disks[id]
    && (forall i {:trigger VersionOk(v[i], n.term, h)} :: 0 <= i < |v| ==> VersionOk(v[i], n.term, h))
    && (forall d {:trigger VersionOk(d, n.term, h)} :: d in h.disks[id] ==> VersionOk(d, n.term, h))
    && (forall d {:trigger Evolves(d, n.disk, n.term, h)} :: d in h.disks[id] ==> Evolves(d, n.disk, n.term, h))
    && (forall i {:trigger Turns(v, i, n.term, h)} :: 0 <= i < |v| - 1 ==> Turns(v, i, n.term, h))
  }

  ghost predicate NodeVotes(id: PeerId, n: Node, h: History) {
    && (forall t {:trigger (id, t) in h.votes} :: (id, t) in h.votes ==>
          t <= n.term && (t == n.term ==> n.votedFor == Some(h.votes[(id, t)].cand)))
    && (n.votedFor.Some? ==> (id, n.term) in h.votes)
    && (forall t {:trigger h.elections[t]} :: t in h.elections && h.elections[t].winner == id ==>
          t <= n.term && (t == n.term ==> n.role != Candidate))
    && (n.leaderId.Some? ==> n.term in h.elections && h.elections[n.term].winner == n.leaderId.value)
    && (n.role == Candidate ==>
          && n.votedFor == Some(id)
          && Flushed(n) && TermsBelow(n.log, n.term)
          && forall p :: p in n.votes ==> (p, n.term) in h.votes && h.votes[(p, n.term)].cand == id)
  }

  /** `p` has the leader's log up to `i` on disk, or everything up to `i` is chosen anyway. */
  ghost predicate Supported(p: PeerId, t: nat, i: nat, h: History, c: Conf) {
    && t in h.leaderLog && i <= |h.leaderLog[t]|
    && ((exists a :: a in h.acks && a.peer == p && a.term == t && a.upTo >= i)
        || Known(h.leaderLog[t][..i], t, h, c))
  }

  ghost predicate BallotOk(b: BallotView, t: nat, index: nat, h: History, c: Conf) {
    && b.conf == c
    && forall p {:trigger Supported(p, t, index, h, c)} :: p in b.votes ==> Supported(p, t, index, h, c)
  }

  ghost predicate BallotAt(b: Box, i: nat, t: nat, h: History, c: Conf)
    requires i < |b.ballots|
  {
    BallotOk(b.ballots[i], t, b.pendingIndex + i, h, c)
  }

  ghost predicate BallotsOk(b: Box, t: nat, h: History, c: Conf) {
    forall i {:trigger BallotAt(b, i, t, h, c)} :: 0 <= i < |b.ballots| ==> BallotAt(b, i, t, h, c)
  }

  ghost predicate OwnStableOk(r: Stable, upper: Log) {
    r.LeaderStable? ==> r.last <= |upper|
  }

  ghost predicate Rising(v: seq<Log>, i: nat)
    requires i + 1 < |v|
  {
    v[i] <= v[i + 1]
  }

  ghost predicate NodeLeads(id: PeerId, n: Node, h: History, c: Conf) {
    if n.role == Leader then
      var v := Versions(n);
      && n.term in h.elections && h.elections[n.term].winner == id
      && n.term in h.leaderLog && n.log == h.leaderLog[n.term]
      && n.box.pendingIndex >= |h.elections[n.term].start| + 1
      && n.box.NextIndex() == |n.log| + 1
      && n.box.committed < n.box.pendingIndex
      && BallotsOk(n.box, n.term, h, c)
      && (forall i {:trigger Rising(v, i)} :: 0 <= i < |v| - 1 ==> Rising(v, i))
      && (forall r :: r in n.ready ==> OwnStableOk(r, n.disk))
      && (forall i {:trigger n.queue[i]} :: 0 <= i < |n.queue| && n.queue[i].done.Some? ==> OwnStableOk(n.queue[i].done.value, n.queue[i].log))
    else n.box.pendingIndex == 0 && n.box.ballots == []
  }

  ghost predicate NodeCommits(n: Node, h: History, c: Conf) {
    && n.applied <= n.box.committed <= |n.log|
    && Known(n.log[..n.box.committed], n.term, h, c)
  }

  /** From position `from` on, every version of the log keeps `p`. */
  ghost predicate Covers(n: Node, from: nat, p: Log) {
    forall j {:trigger Versions(n)[j]} :: from <= j <= |n.queue| ==> p <= Versions(n)[j]
  }

  /** A waiting reply to the current leader speaks of entries this node really holds. */
  ghost predicate ReplyOk(r: Stable, n: Node, h: History, c: Conf) {
    r.FollowerStable? ==> r.term <= n.term && (r.term == n.term ==>
      && r.term in h.leaderLog
      && 1 <= r.upTo <= |h.leaderLog[r.term]| && r.committed <= |h.leaderLog[r.term]|
      && Known(h.leaderLog[r.term][..r.committed], r.term, h, c)
      && h.leaderLog[r.term][..r.upTo] <= n.log)
  }

  ghost predicate QueuedOk(i: nat, n: Node, h: History, c: Conf)
    requires i < |n.queue|
  {
    n.queue[i].done.Some? ==>
      var r := n.queue[i].done.value;
      && ReplyOk(r, n, h, c)
      && (r.FollowerStable? && r.term == n.term ==> Covers(n, i + 1, h.leaderLog[r.term][..r.upTo]))
  }

  ghost predicate ReadyOk(r: Stable, n: Node, h: History, c: Conf) {
    && ReplyOk(r, n, h, c)
    && (r.FollowerStable? && r.term == n.term ==>
          || Known(h.leaderLog[r.term][..r.upTo], r.term, h, c)
          || Covers(n, 0, h.leaderLog[r.term][..r.upTo]))
  }

  ghost predicate NodeReplies(n: Node, h: History, c: Conf) {
    && (forall i {:trigger QueuedOk(i, n, h, c)} :: 0 <= i < |n.queue| ==> QueuedOk(i, n, h, c))
    && (forall r {:trigger ReadyOk(r, n, h, c)} :: r in n.ready ==> ReadyOk(r, n, h, c))
  }

  ghost predicate NodeInv(id: PeerId, n: Node, h: History, c: Conf) {
    && NodeLogs(id, n, h) && NodeVotes(id, n, h) && NodeLeads(id, n, h, c)
    && NodeCommits(n, h, c) && NodeReplies(n, h, c)
  }

  ghost predicate RequestOk(r: AppendRequest, h: History, c: Conf) {
    && r.term in h.elections && h.elections[r.term].winner == r.src
    && r.term in h.leaderLog
    && r.prev + |r.entries| <= |h.leaderLog[r.term]|
    && r.entries == h.leaderLog[r.term][r.prev..r.prev + |r.entries|]
    && r.prevTerm == TermAt(h.leaderLog[r.term], r.prev)
    && r.committed <= |h.leaderLog[r.term]|
    && Known(h.leaderLog[r.term][..r.committed], r.term, h, c)
  }

  ghost predicate ClaimOk(r: VoteRequest, h: History) {
    r.cand in h.disks && exists d :: d in h.disks[r.cand] && LastId(d) == r.last && TermsBelow(d, r.term)
  }

  ghost predicate MsgInv(m: Msg, h: History, c: Conf) {
    match m
    case VoteReq(r) => r.term >= 1 && ClaimOk(r, h)
    case VoteRep(r) =>
      r.granted ==> r.term == r.reqTerm && (r.voter, r.reqTerm) in h.votes && h.votes[(r.voter, r.reqTerm)].cand == r.cand
    case AppendReq(r) => RequestOk(r, h, c)
    case AppendRep(r) => r.success && r.hasEntries ==> Supported(r.peer, r.reqTerm, r.upTo, h, c)
  }

  ghost predicate Bounds(s: State) {
    && (forall a {:trigger a in s.hist.acks} :: a in s.hist.acks && a.peer in s.nodes ==> a.term <= s.nodes[a.peer].term)
    && (forall v, t {:trigger (v, t) in s.hist.votes} :: (v, t) in s.hist.votes ==> v in s.nodes)
    && (forall t {:trigger s.hist.elections[t]} :: t in s.hist.elections ==> s.hist.elections[t].winner in s.nodes)
  }

  ghost predicate Inv(s: State, c: Conf) {
    && HistInv(s.hist, c)
    && (forall id {:trigger NodeInv(id, s.nodes[id], s.hist, c)} :: id in s.nodes ==> NodeInv(id, s.nodes[id], s.hist, c))
    && (forall m {:trigger MsgInv(m, s.hist, c)} :: m in s.msgs ==> MsgInv(m, s.hist, c))
    && Bounds(s)
  }

  // ----- growth of the record does not disturb the nodes that did not act

  /** `k` extends `h` only with records of node `actor`. */
  ghost predicate GrowsBy(actor: PeerId, h: History, k: History) {
    && Grows(h, k)
    && (forall v, t {:trigger (v, t) in k.votes} :: (v, t) in k.votes && (v, t) !in h.votes ==> v == actor)
    && (forall t {:trigger k.elections[t]} :: t in k.elections && t !in h.elections ==> k.elections[t].winner == actor)
    && (forall t {:trigger k.leaderLog[t]} :: t in k.leaderLog && t in h.leaderLog && t in k.elections && k.leaderLog[t] != h.leaderLog[t] ==>
          k.elections[t].winner == actor)
    && (forall n {:trigger k.disks[n]} :: n in k.disks && n != actor ==> n in h.disks && k.disks[n] == h.disks[n])
  }

  lemma VersionGrows(x: Log, lo: nat, hi: nat, h: History, k: History)
    requires Grows(h, k) && VersionOk(x, lo, h) && lo <= hi
    ensures VersionOk(x, hi, k)
  {
    ValidGrows(x, h, k);
  }

  lemma SupportedGrows(p: PeerId, t: nat, i: nat, h: History, k: History, c: Conf)
    requires Grows(h, k) && Supported(p, t, i, h, c)
    ensures Supported(p, t, i, k, c)
  {
    assert LogGrows(t, h, k);
    assert h.leaderLog[t][..i] == k.leaderLog[t][..i];
    if Known(h.leaderLog[t][..i], t, h, c) { KnownGrows(h.leaderLog[t][..i], t, t, h, k, c); }
  }

  lemma ReplyGrows(r: Stable, n: Node, h: History, k: History, c: Conf)
    requires Grows(h, k) && ReplyOk(r, n, h, c)
    ensures ReplyOk(r, n, k, c)
    ensures r.FollowerStable? && r.term == n.term ==> h.leaderLog[r.term][..r.upTo] == k.leaderLog[r.term][..r.upTo]
  {
    if r.FollowerStable? && r.term == n.term {
      assert LogGrows(r.term, h, k);
      KnownGrows(h.leaderLog[r.term][..r.committed], r.term, r.term, h, k, c);
      assert h.leaderLog[r.term][..r.committed] == k.leaderLog[r.term][..r.committed];
      assert h.leaderLog[r.term][..r.upTo] == k.leaderLog[r.term][..r.upTo];
    }
  }

  lemma RepliesGrow(n: Node, h: History, k: History, c: Conf)
    requires Grows(h, k) && NodeReplies(n, h, c)
    ensures NodeReplies(n, k, c)
  {
    forall i | 0 <= i < |n.queue| ensures QueuedOk(i, n, k, c) {
      assert QueuedOk(i, n, h, c);
      if n.queue[i].done.Some? { ReplyGrows(n.queue[i].done.value, n, h, k, c); }
    }
    forall r | r in n.ready ensures ReadyOk(r, n, k, c) {
      assert ReadyOk(r, n, h, c);
      ReplyGrows(r, n, h, k, c);
      if r.FollowerStable? && r.term == n.term && Known(h.leaderLog[r.term][..r.upTo], r.term, h, c) {
        KnownGrows(h.leaderLog[r.term][..r.upTo], r.term, r.term, h, k, c);
      }
    }
  }

  lemma LogsGrow(id: PeerId, n: Node, h: History, k: History)
    requires Grows(h, k) && NodeLogs(id, n, h) && id in k.disks && k.disks[id] == h.disks[id]
    ensures NodeLogs(id, n, k)
  {
    var v := Versions(n);
    forall i | 0 <= i < |v| ensures VersionOk(v[i], n.term, k) {
      assert VersionOk(v[i], n.term, h);
      VersionGrows(v[i], n.term, n.term, h, k);
    }
    forall d | d in k.disks[id] ensures VersionOk(d, n.term, k) {
      assert VersionOk(d, n.term, h);
      VersionGrows(d, n.term, n.term, h, k);
    }
    forall d | d in k.disks[id] ensures Evolves(d, n.disk, n.term, k) {
      EvolvesGrows(d, n.disk, n.term, n.term, h, k);
    }
    forall i | 0 <= i < |v| - 1 ensures Turns(v, i, n.term, k) {
      assert Turns(v, i, n.term, h);
      EvolvesGrows(v[i], v[i + 1], n.term, n.term, h, k);
    }
  }

  lemma BallotsGrow(b: Box, t: nat, h: History, k: History, c: Conf)
    requires Grows(h, k) && BallotsOk(b, t, h, c)
    ensures BallotsOk(b, t, k, c)
  {
    forall i | 0 <= i < |b.ballots| ensures BallotAt(b, i, t, k, c) {
      assert BallotAt(b, i, t, h, c);
      forall p | p in b.ballots[i].votes ensures Supported(p, t, b.pendingIndex + i, k, c) {
        SupportedGrows(p, t, b.pendingIndex + i, h, k, c);
      }
    }
  }

  lemma LeadsGrow(id: PeerId, n: Node, h: History, k: History, c: Conf)
    requires Grows(h, k) && NodeLeads(id, n, h, c)
    requires n.role == Leader ==> n.term in k.leaderLog && k.leaderLog[n.term] == h.leaderLog[n.term]
    ensures NodeLeads(id, n, k, c)
  {
    if n.role == Leader { BallotsGrow(n.box, n.term, h, k, c); }
  }

  /** A node that does not act keeps its invariant while another one adds to the record. */
  lemma OthersKeep(actor: PeerId, id: PeerId, n: Node, h: History, k: History, c: Conf)
    requires GrowsBy(actor, h, k) && id != actor && NodeInv(id, n, h, c) && h.elections.Keys == h.leaderLog.Keys
    ensures NodeInv(id, n, k, c)
  {
    assert DisksGrow(id, h, k);
    LogsGrow(id, n, h, k);
    if n.role == Leader {
      assert LogGrows(n.term, h, k);
      assert k.elections[n.term].winner == id;
    }
    LeadsGrow(id, n, h, k, c);
    KnownGrows(n.log[..n.box.committed], n.term, n.term, h, k, c);
    RepliesGrow(n, h, k, c);
  }

  lemma RequestGrows(r: AppendRequest, h: History, k: History, c: Conf)
    requires Grows(h, k) && RequestOk(r, h, c)
    ensures RequestOk(r, k, c)
  {
    assert LogGrows(r.term, h, k);
    var l, m := h.leaderLog[r.term], k.leaderLog[r.term];
    assert m[..|l|] == l;
    assert m[..r.committed] == l[..r.committed];
    KnownGrows(l[..r.committed], r.term, r.term, h, k, c);
  }

  lemma MsgGrows(m: Msg, h: History, k: History, c: Conf)
    requires Grows(h, k) && MsgInv(m, h, c)
    ensures MsgInv(m, k, c)
  {
    match m
    case VoteReq(r) => assert DisksGrow(r.cand, h, k);
    case VoteRep(r) =>
    case AppendReq(r) => RequestGrows(r, h, k, c);
    case AppendRep(r) =>
      if r.success && r.hasEntries { SupportedGrows(r.peer, r.reqTerm, r.upTo, h, k, c); }
  }

  lemma NodesKeep(s: State, s': State, id: PeerId, c: Conf)
    requires Inv(s, c) && id in s.nodes && id in s'.nodes
    requires s'.nodes == s.nodes[id := s'.nodes[id]]
    requires GrowsBy(id, s.hist, s'.hist)
    requires NodeInv(id, s'.nodes[id], s'.hist, c)
    ensures forall j :: j in s'.nodes ==> NodeInv(j, s'.nodes[j], s'.hist, c)
  {
    forall j | j in s'.nodes ensures NodeInv(j, s'.nodes[j], s'.hist, c) {
      if j != id {
        assert NodeInv(j, s.nodes[j], s.hist, c);
        OthersKeep(id, j, s.nodes[j], s.hist, s'.hist, c);
      }
    }
  }

  lemma MsgsKeep(s: State, s': State, sent: set<Msg>, c: Conf)
    requires Inv(s, c) && s'.msgs <= s.msgs + sent && Grows(s.hist, s'.hist)
    requires forall m :: m in sent ==> MsgInv(m, s'.hist, c)
    ensures forall m :: m in s'.msgs ==> MsgInv(m, s'.hist, c)
  {
    forall m | m in s'.msgs ensures MsgInv(m, s'.hist, c) {
      if m in s.msgs {
        assert MsgInv(m, s.hist, c);
        MsgGrows(m, s.hist, s'.hist, c);
      }
    }
  }

  lemma BoundsKeep(s: State, s': State, id: PeerId)
    requires Bounds(s) && id in s.nodes && id in s'.nodes
    requires s'.nodes == s.nodes[id := s'.nodes[id]]
    requires GrowsBy(id, s.hist, s'.hist)
    requires s'.nodes[id].term >= s.nodes[id].term
    requires forall a :: a in s'.hist.acks && a !in s.hist.acks ==> a.peer == id && a.term <= s'.nodes[id].term
    ensures Bounds(s')
  {
  }

  /** One node acts: it suffices to look at that node, what it sends, and what it records. */
  lemma StepKeepsInv(s: State, s': State, id: PeerId, sent: set<Msg>, c: Conf)
    requires Inv(s, c) && id in s.nodes && id in s'.nodes
    requires s'.nodes == s.nodes[id := s'.nodes[id]] && s'.msgs <= s.msgs + sent
    requires GrowsBy(id, s.hist, s'.hist) && NewPiecesOk(s.hist, s'.hist, c)
    requires s'.nodes[id].term >= s.nodes[id].term
    requires forall a :: a in s'.hist.acks && a !in s.hist.acks ==> a.peer == id && a.term <= s'.nodes[id].term
    requires NodeInv(id, s'.nodes[id], s'.hist, c)
    requires forall m :: m in sent ==> MsgInv(m, s'.hist, c)
    ensures Inv(s', c)
  {
    HistInvGrows(s.hist, s'.hist, c);
    NodesKeep(s, s', id, c);
    MsgsKeep(s, s', sent, c);
    BoundsKeep(s, s', id);
  }
}
