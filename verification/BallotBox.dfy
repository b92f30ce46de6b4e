/** Ballots, the queue of pending ballots, and the objects that maintain them. */
module BallotSpec {
  import opened Quorum

  /** What one ballot means: the configuration it was opened under and the peers that granted it. */
  datatype BallotView = BallotView(conf: Conf, votes: set<PeerId>) {
    predicate IsGranted() { Granted(votes, conf) }
  }

  /** `pendingIndex == 0` says that this node is not leading. */
  datatype Box = Box(pendingIndex: nat, ballots: seq<BallotView>, committed: nat) {
    function NextIndex(): nat { pendingIndex + |ballots| }
  }

  datatype Outcome = Done | Invalid | OutOfRange

  function Grant(b: BallotView, p: PeerId): BallotView { b.(votes := b.votes + {p}) }

  /** `peer` granted to the ballots at positions [lo, hi). */
  function GrantRange(bs: seq<BallotView>, lo: nat, hi: nat, peer: PeerId): (r: seq<BallotView>)
    ensures |r| == |bs|
    ensures forall i :: 0 <= i < |bs| ==> r[i] == if lo <= i < hi then Grant(bs[i], peer) else bs[i]
  {
    if bs == [] then []
    else
      var k := |bs| - 1;
      GrantRange(bs[..k], lo, hi, peer) + [if lo <= k < hi then Grant(bs[k], peer) else bs[k]]
  }

  /** One past the last granted position in [lo, hi); `lo` when there is none. */
  function LastGranted(bs: seq<BallotView>, lo: nat, hi: nat): (r: nat)
    requires hi <= |bs|
    ensures lo <= r && (r > lo ==> r <= hi)
  {
    if hi <= lo then lo
    else if bs[hi - 1].IsGranted() then hi
    else LastGranted(bs, lo, hi - 1)
  }

  lemma {:induction false} LastGrantedIsLast(bs: seq<BallotView>, lo: nat, hi: nat)
    requires hi <= |bs|
    ensures var r := LastGranted(bs, lo, hi);
      && (r > lo ==> bs[r - 1].IsGranted())
      && forall i :: r <= i < hi ==> !bs[i].IsGranted()
  {
    if lo < hi && !bs[hi - 1].IsGranted() { LastGrantedIsLast(bs, lo, hi - 1); }
  }

  /** The ballots up to position `r - 1` are dropped and their last index is committed. */
  function Pop(b: Box, r: nat): Box
    requires 1 <= b.pendingIndex + r && r <= |b.ballots|
  {
    Box(b.pendingIndex + r, b.ballots[r..], b.pendingIndex + r - 1)
  }

  function Mark(b: Box, lo: nat, hi: nat, peer: PeerId): Box {
    b.(ballots := GrantRange(b.ballots, lo, hi, peer))
  }

  /** Everything up to the last granted ballot in [lo, hi) is committed, whatever its own votes. */
  function Settle(b: Box, lo: nat, hi: nat): Box
    requires b.pendingIndex > 0 && hi <= |b.ballots|
  {
    var r := LastGranted(b.ballots, lo, hi);
    if r <= lo then b else Pop(b, r)
  }

  /** Logs in [first, last] are stable at `peer`. */
  function CommitAt(b: Box, first: nat, last: nat, peer: PeerId): (Box, Outcome) {
    if b.pendingIndex == 0 then (b, Invalid)
    else if last < b.pendingIndex then (b, Done)
    else if last >= b.NextIndex() then (b, OutOfRange)
    else
      var lo := if first <= b.pendingIndex then 0 else first - b.pendingIndex;
      var hi := last + 1 - b.pendingIndex;
      (Settle(Mark(b, lo, hi, peer), lo, hi), Done)
  }

  function Cleared(b: Box): Box { Box(0, [], b.committed) }

  function Reset(b: Box, newPending: nat): Box { Box(newPending, [], b.committed) }

  function Append(b: Box, conf: Conf): Box { b.(ballots := b.ballots + [BallotView(conf, {})]) }

  function SetCommitted(b: Box, index: nat): Box {
    if b.pendingIndex == 0 && b.ballots == [] && index > b.committed then b.(committed := index) else b
  }
}
