/** Peers, configurations and the majority rule shared by votes and log commits. */
module Quorum {

  type PeerId = nat

  datatype Option<+T> = None | Some(value: T)

  /** A configuration: `oldPeers` is empty for a plain one, non-empty in the joint stage. */
  datatype Conf = Conf(peers: set<PeerId>, oldPeers: set<PeerId>) {
    predicate Stable() { oldPeers == {} }

    predicate Contains(p: PeerId) { p in peers || p in oldPeers }
  }

  /** `granted` holds a strict majority of `peers`; no set holds a majority of the empty set. */
  predicate Majority(granted: set<PeerId>, peers: set<PeerId>) {
    |granted * peers| >= |peers| / 2 + 1
  }

  predicate Granted(granted: set<PeerId>, c: Conf) {
    Majority(granted, c.peers) && (c.Stable() || Majority(granted, c.oldPeers))
  }

  lemma DisjointSizes(a: set<PeerId>, b: set<PeerId>, u: set<PeerId>)
    requires a <= u && b <= u && a * b == {}
    ensures |a| + |b| <= |u|
  {
    SubsetSize(a + b, u);
    assert |a + b| == |a| + |b|;
  }

  lemma SubsetSize(a: set<PeerId>, b: set<PeerId>)
    requires a <= b
    ensures |a| <= |b|
  {
    assert |b| == |a| + |b - a| by {
      assert b == a + (b - a);
    }
  }

  lemma MajoritiesMeet(g: set<PeerId>, h: set<PeerId>, peers: set<PeerId>)
    requires Majority(g, peers) && Majority(h, peers)
    ensures g * h * peers != {}
  {
    if g * h * peers == {} {
      assert (g * peers) * (h * peers) == g * h * peers;
      DisjointSizes(g * peers, h * peers, peers);
    }
  }

  /** Two sets granted under one configuration, plain or joint, share a peer. */
  lemma GrantedMeet(g: set<PeerId>, h: set<PeerId>, c: Conf) returns (p: PeerId)
    requires Granted(g, c) && Granted(h, c)
    ensures p in g && p in h && p in c.peers
  {
    MajoritiesMeet(g, h, c.peers);
    p :| p in g * h * c.peers;
  }

  lemma GrantedMonotone(g: set<PeerId>, h: set<PeerId>, c: Conf)
    requires Granted(g, c) && g <= h
    ensures Granted(h, c)
  {
    SubsetSize(g * c.peers, h * c.peers);
    SubsetSize(g * c.oldPeers, h * c.oldPeers);
  }
}
