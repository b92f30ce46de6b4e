/** One ballot: two vectors of peers with `found` marks and two counters that count down to a quorum. */
module Ballots {
  import opened Quorum
  import opened BallotSpec

  datatype UnfoundPeerId = UnfoundPeerId(peerId: PeerId, found: bool)

  /** Where the last grant found its peer in each vector; -1 for nowhere. */
  datatype PosHint = PosHint(pos0: int, pos1: int)

  predicate Listed(v: seq<UnfoundPeerId>, peer: PeerId) { exists i :: 0 <= i < |v| && v[i].peerId == peer }

  /** The vector lists every peer of `conf` once, and marks those in `votes`. */
  ghost predicate Marks(v: seq<UnfoundPeerId>, conf: set<PeerId>, votes: set<PeerId>) {
    && (forall i, j :: 0 <= i < j < |v| ==> v[i].peerId != v[j].peerId)
    && (forall i :: 0 <= i < |v| ==> v[i].peerId in conf)
    && (forall p :: p in conf ==> Listed(v, p))
    && (forall i :: 0 <= i < |v| ==> (v[i].found <==> v[i].peerId in votes))
  }

  /** The counter holds what is missing to a strict majority, and goes on below zero. */
  ghost predicate Counts(quorum: int, conf: set<PeerId>, votes: set<PeerId>) {
    quorum == |conf| / 2 + 1 - |votes * conf|
  }

  lemma CountOneMore(conf: set<PeerId>, votes: set<PeerId>, p: PeerId)
    ensures |(votes + {p}) * conf| == |votes * conf| + if p in conf && p !in votes then 1 else 0
  {
    if p in conf && p !in votes {
      assert (votes + {p}) * conf == votes * conf + {p};
    } else {
      assert (votes + {p}) * conf == votes * conf;
    }
  }

  /** Marking the one place that lists `p` records its vote. */
  lemma MarkOne(v: seq<UnfoundPeerId>, conf: set<PeerId>, votes: set<PeerId>, i: nat)
    requires Marks(v, conf, votes) && i < |v|
    ensures Marks(v[i := v[i].(found := true)], conf, votes + {v[i].peerId})
  {
    var w := v[i := v[i].(found := true)];
    forall p | p in conf ensures Listed(w, p) {
      assert Listed(v, p);
      var k :| 0 <= k < |v| && v[k].peerId == p;
      assert w[k].peerId == p;
    }
  }

  method FindPeer(peer: PeerId, v: seq<UnfoundPeerId>, posHint: int) returns (i: nat)
    ensures i <= |v|
    ensures i < |v| ==> v[i].peerId == peer
    ensures i == |v| ==> !Listed(v, peer)
  {
    if posHint < 0 || posHint >= |v| || v[posHint].peerId != peer {
      i := 0;
      while i < |v|
        invariant i <= |v|
        invariant forall k :: 0 <= k < i ==> v[k].peerId != peer
      {
        if v[i].peerId == peer { return; }
        i := i + 1;
      }
      return;
    }
    return posHint;
  }

  lemma NoMarks(votes: set<PeerId>)
    ensures Marks([], {}, votes)
  {
  }

  lemma MarksMore(v: seq<UnfoundPeerId>, conf: set<PeerId>, p: PeerId)
    requires Marks(v, conf, {}) && p !in conf
    ensures Marks(v + [UnfoundPeerId(p, false)], conf + {p}, {})
  {
    var w := v + [UnfoundPeerId(p, false)];
    forall q | q in conf + {p} ensures Listed(w, q) {
      if q == p {
        assert w[|v|].peerId == p;
      } else {
        assert Listed(v, q);
        var k :| 0 <= k < |v| && v[k].peerId == q;
        assert w[k].peerId == q;
      }
    }
  }

  method ListPeers(conf: set<PeerId>) returns (v: seq<UnfoundPeerId>)
    ensures Marks(v, conf, {}) && |v| == |conf|
  {
    v := [];
    var rest := conf;
    NoMarks({});
    assert conf - rest == {};
    hide Marks;
    while rest != {}
      invariant rest <= conf
      invariant Marks(v, conf - rest, {}) && |v| == |conf - rest|
      decreases rest
    {
      var p :| p in rest;
      MarksMore(v, conf - rest, p);
      assert conf - (rest - {p}) == (conf - rest) + {p};
      v, rest := v + [UnfoundPeerId(p, false)], rest - {p};
    }
    assert conf - rest == conf;
  }

  /** One vector and its counter: a peer that is listed and not marked yet is marked and counted. */
  method GrantIn(peer: PeerId, v: seq<UnfoundPeerId>, quorum: int, posHint: int, ghost conf: set<PeerId>, ghost votes: set<PeerId>)
      returns (w: seq<UnfoundPeerId>, q: int, pos: int)
    requires Marks(v, conf, votes)
    ensures Marks(w, conf, votes + {peer}) && |w| == |v|
    ensures Counts(quorum, conf, votes) ==> Counts(q, conf, votes + {peer})
    ensures -1 <= pos < |w| && (pos >= 0 ==> w[pos].peerId == peer)
  {
    CountOneMore(conf, votes, peer);
    w, q := v, quorum;
    var i := FindPeer(peer, v, posHint);
    if i == |v| {
      NotListed(v, conf, votes, peer);
      return w, q, -1;
    }
    MarkOne(v, conf, votes, i);
    MarkedIn(v, conf, votes, i);
    pos := i;
    if !v[i].found { w, q := v[i := v[i].(found := true)], quorum - 1; }
  }

  lemma NotListed(v: seq<UnfoundPeerId>, conf: set<PeerId>, votes: set<PeerId>, p: PeerId)
    requires Marks(v, conf, votes) && !Listed(v, p)
    ensures p !in conf && Marks(v, conf, votes + {p})
  {
  }

  lemma MarkedIn(v: seq<UnfoundPeerId>, conf: set<PeerId>, votes: set<PeerId>, i: nat)
    requires Marks(v, conf, votes) && i < |v|
    ensures v[i].peerId in conf && (v[i].found <==> v[i].peerId in votes)
    ensures v[i].found ==> v[i := v[i].(found := true)] == v
  {
  }

  lemma NoneListed(conf: set<PeerId>, votes: set<PeerId>)
    requires Marks([], conf, votes)
    ensures conf == {} && forall more :: Marks([], conf, more)
  {
    assert forall p :: p in conf ==> Listed([], p);
  }

  lemma SomeListed(v: seq<UnfoundPeerId>, conf: set<PeerId>, votes: set<PeerId>)
    requires Marks(v, conf, votes) && v != []
    ensures conf != {}
  {
    assert v[0].peerId in conf;
  }

  class Ballot {
    var peers: seq<UnfoundPeerId>
    var quorum: int
    var oldPeers: seq<UnfoundPeerId>
    var oldQuorum: int

    /** What the ballot was opened under and who has granted it. */
    ghost var view: BallotView

    /** False for a ballot opened with an old configuration of no peers: its second counter starts at 1 for good. */
    ghost var grantable: bool

    ghost predicate Valid() reads this {
      && Marks(peers, view.conf.peers, view.votes) && Counts(quorum, view.conf.peers, view.votes)
      && Marks(oldPeers, view.conf.oldPeers, view.votes)
      && (!view.conf.Stable() ==> grantable)
      && if view.conf.Stable() then oldQuorum == (if grantable then 0 else 1) else Counts(oldQuorum, view.conf.oldPeers, view.votes)
    }

    /** Opens the ballot; `oldConf` is absent unless the joint stage is on. */
    constructor (conf: set<PeerId>, oldConf: Option<set<PeerId>>)
      ensures grantable == (oldConf != Some({}))
      ensures Valid() && view == BallotView(Conf(conf, if oldConf.Some? then oldConf.value else {}), {})
    {
      new;
      hide Marks;
      NoMarks({});
      grantable := oldConf != Some({});
      view := BallotView(Conf(conf, if oldConf.Some? then oldConf.value else {}), {});
      peers := ListPeers(conf);
      quorum := |peers| / 2 + 1;
      oldPeers, oldQuorum := [], 0;
      assert {} * conf == {};
      if oldConf.Some? {
        oldPeers := ListPeers(oldConf.value);
        oldQuorum := |oldPeers| / 2 + 1;
        assert {} * oldConf.value == {};
      }
    }

    /** Any hint, right or wrong, leaves the same ballot behind. */
    method Grant(peer: PeerId, hint: PosHint) returns (next: PosHint)
      requires Valid()
      modifies this
      ensures Valid() && view == BallotSpec.Grant(old(view), peer) && grantable == old(grantable)
      ensures -1 <= next.pos0 < |peers| && (next.pos0 >= 0 ==> peers[next.pos0].peerId == peer)
    {
      hide Marks, Counts;
      next := hint;
      ghost var votes := view.votes;
      var pos;
      peers, quorum, pos := GrantIn(peer, peers, quorum, hint.pos0, view.conf.peers, votes);
      next := next.(pos0 := pos);
      if oldPeers == [] {
        NoneListed(view.conf.oldPeers, votes);
        next := next.(pos1 := -1);
      } else {
        SomeListed(oldPeers, view.conf.oldPeers, votes);
        oldPeers, oldQuorum, pos := GrantIn(peer, oldPeers, oldQuorum, hint.pos1, view.conf.oldPeers, votes);
        next := next.(pos1 := pos);
      }
      view := BallotSpec.Grant(view, peer);
    }

    /** The counters say exactly whether a majority of each configuration has granted. */
    method Granted() returns (g: bool)
      requires Valid()
      ensures g == (grantable && view.IsGranted())
    {
      g := quorum <= 0 && oldQuorum <= 0;
    }
  }
}
