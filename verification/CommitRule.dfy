/**
 Committing everything up to a granted ballot, although earlier ballots may lack their own quorum.
 `stored[p]` is how far peer `p` holds the leader's log; a peer holds a prefix of it.
 */
module CommitRule {
  import opened Quorum
  import opened BallotSpec

  type Stored = map<PeerId, nat>

  predicate Holds(stored: Stored, p: PeerId, index: nat) { p in stored && stored[p] >= index }

  /** Every peer that granted ballot `i` holds the log up to its index. */
  ghost predicate Backed(b: Box, i: nat, stored: Stored)
    requires i < |b.ballots|
  {
    forall p :: p in b.ballots[i].votes ==> Holds(stored, p, b.pendingIndex + i)
  }

  ghost predicate AllBacked(b: Box, stored: Stored) {
    forall i {:trigger Backed(b, i, stored)} :: 0 <= i < |b.ballots| ==> Backed(b, i, stored)
  }

  predicate Ripe(b: Box, i: nat)
    requires i < |b.ballots|
  {
    b.ballots[i].IsGranted()
  }

  ghost predicate NoneRipe(b: Box) {
    forall i {:trigger Ripe(b, i)} :: 0 <= i < |b.ballots| ==> !Ripe(b, i)
  }

  /** Votes are backed by stored logs, and nothing that could be committed is still waiting. */
  ghost predicate Sound(b: Box, stored: Stored) {
    && AllBacked(b, stored) && NoneRipe(b)
    && (b.pendingIndex == 0 ==> b.ballots == [])
    && (b.pendingIndex > 0 ==> b.committed < b.pendingIndex)
  }

  /** A quorum of the configuration of the entry at `index` holds every entry up to `index`. */
  ghost predicate CoveredBy(index: nat, bl: BallotView, stored: Stored) {
    bl.IsGranted() && forall p, j :: p in bl.votes && 0 <= j <= index ==> Holds(stored, p, j)
  }

  lemma MarkBacked(b: Box, lo: nat, hi: nat, last: nat, peer: PeerId, stored: Stored)
    requires AllBacked(b, stored) && hi <= |b.ballots| && b.pendingIndex + hi == last + 1 && Holds(stored, peer, last)
    ensures AllBacked(Mark(b, lo, hi, peer), stored)
  {
    var m := Mark(b, lo, hi, peer);
    forall i | 0 <= i < |m.ballots| ensures Backed(m, i, stored) { assert Backed(b, i, stored); }
  }

  /** After settling, no ballot that is left has a quorum, and the votes left are still backed. */
  lemma SettleLeavesNone(b: Box, lo: nat, hi: nat, stored: Stored)
    requires b.pendingIndex > 0 && hi <= |b.ballots| && AllBacked(b, stored) && b.committed < b.pendingIndex
    requires forall i {:trigger Ripe(b, i)} :: 0 <= i < |b.ballots| && !(lo <= i < hi) ==> !Ripe(b, i)
    ensures Sound(Settle(b, lo, hi), stored)
  {
    hide Granted, LastGranted;
    var r := LastGranted(b.ballots, lo, hi);
    LastGrantedIsLast(b.ballots, lo, hi);
    var s := Settle(b, lo, hi);
    forall i | 0 <= i < |s.ballots| ensures !Ripe(s, i) && Backed(s, i, stored) {
      var k := if r > lo then r + i else i;
      assert s.ballots[i] == b.ballots[k];
      assert Backed(b, k, stored);
      if !(lo <= k < hi) { assert !Ripe(b, k); }
    }
  }

  /** Where commit_at settles, once its bounds checks have passed. */
  lemma InRange(b: Box, first: nat, last: nat, peer: PeerId) returns (lo: nat, hi: nat)
    requires 0 < b.pendingIndex <= last < b.NextIndex()
    ensures lo == if first <= b.pendingIndex then 0 else first - b.pendingIndex
    ensures hi == last + 1 - b.pendingIndex && 1 <= hi <= |b.ballots|
    ensures CommitAt(b, first, last, peer).0 == Settle(Mark(b, lo, hi, peer), lo, hi)
  {
    lo, hi := if first <= b.pendingIndex then 0 else first - b.pendingIndex, last + 1 - b.pendingIndex;
  }

  /** Outside the range of a report no ballot changes, so none becomes ripe there. */
  lemma MarkRipens(b: Box, lo: nat, hi: nat, peer: PeerId)
    requires NoneRipe(b)
    ensures forall i {:trigger Ripe(Mark(b, lo, hi, peer), i)} ::
      0 <= i < |b.ballots| && !(lo <= i < hi) ==> !Ripe(Mark(b, lo, hi, peer), i)
  {
    hide Granted;
    var m := Mark(b, lo, hi, peer);
    forall i | 0 <= i < |m.ballots| && !(lo <= i < hi) ensures !Ripe(m, i) { assert !Ripe(b, i); }
  }

  /** Whatever commit_at commits, it stays sound and only moves forward. */
  lemma CommitStaysSound(b: Box, first: nat, last: nat, peer: PeerId, stored: Stored)
    requires Sound(b, stored) && Holds(stored, peer, last)
    ensures var b' := CommitAt(b, first, last, peer).0;
      Sound(b', stored) && b'.committed >= b.committed && b'.NextIndex() == b.NextIndex()
  {
    hide Granted, LastGranted, GrantRange, AllBacked, NoneRipe;
    if b.pendingIndex > 0 && b.pendingIndex <= last < b.NextIndex() {
      var lo, hi := InRange(b, first, last, peer);
      MarkBacked(b, lo, hi, last, peer, stored);
      MarkRipens(b, lo, hi, peer);
      SettleLeavesNone(Mark(b, lo, hi, peer), lo, hi, stored);
    }
  }

  /** The unproved claim of commit_at: the quorum of the newly committed entry holds every earlier pending entry too. */
  lemma CommitCoversEarlier(b: Box, first: nat, last: nat, peer: PeerId, stored: Stored) returns (bl: BallotView)
    requires Sound(b, stored) && Holds(stored, peer, last)
    requires CommitAt(b, first, last, peer).0.committed != b.committed
    ensures var n := CommitAt(b, first, last, peer).0.committed;
      && b.pendingIndex <= n <= last
      && bl.conf == b.ballots[n - b.pendingIndex].conf
      && CoveredBy(n, bl, stored)
  {
    hide Granted, LastGranted, GrantRange, NoneRipe;
    var lo, hi := InRange(b, first, last, peer);
    var m := Mark(b, lo, hi, peer);
    MarkBacked(b, lo, hi, last, peer, stored);
    LastGrantedIsLast(m.ballots, lo, hi);
    var r := LastGranted(m.ballots, lo, hi);
    bl := m.ballots[r - 1];
    assert Backed(m, r - 1, stored);
  }

  /** The ballot at position `k` gets its quorum with this peer's vote. */
  predicate Decides(b: Box, k: nat, peer: PeerId) {
    k < |b.ballots| && Grant(b.ballots[k], peer).IsGranted()
  }

  /** Entry `n` commits exactly when a reported entry at or after it gets its own quorum. */
  lemma CommitsIffDecided(b: Box, first: nat, last: nat, peer: PeerId, n: nat, stored: Stored)
    requires Sound(b, stored)
    requires 0 < b.pendingIndex <= last < b.NextIndex() && b.pendingIndex <= n < b.NextIndex()
    ensures CommitAt(b, first, last, peer).0.committed >= n <==>
      exists k: nat :: n <= b.pendingIndex + k <= last && first <= b.pendingIndex + k && Decides(b, k, peer)
  {
    hide Granted, LastGranted, GrantRange, NoneRipe;
    var lo, hi := InRange(b, first, last, peer);
    var m := Mark(b, lo, hi, peer);
    LastGrantedIsLast(m.ballots, lo, hi);
    var r := LastGranted(m.ballots, lo, hi);
    if k: nat :| n <= b.pendingIndex + k <= last && first <= b.pendingIndex + k && Decides(b, k, peer) {
      assert m.ballots[k].IsGranted();
    }
    if r > lo { assert Decides(b, r - 1, peer); }
  }

  lemma AppendStaysSound(b: Box, conf: Conf, stored: Stored)
    requires Sound(b, stored) && b.pendingIndex > 0
    ensures Sound(Append(b, conf), stored)
  {
    assert {} * conf.peers == {};
    var a := Append(b, conf);
    forall i | 0 <= i < |a.ballots| ensures !Ripe(a, i) && Backed(a, i, stored) {
      if i < |b.ballots| { assert a.ballots[i] == b.ballots[i] && Backed(b, i, stored) && !Ripe(b, i); }
    }
  }

  // ----- every life of a leader's box

  datatype Event =
    | Opened(conf: Conf)
    | Reported(first: nat, last: nat, peer: PeerId)

  /** The box after a leader's term so far; a report is believed as far as the peer's log reaches. */
  function Life(start: nat, committed: nat, events: seq<Event>): Box
    requires start > committed
  {
    if events == [] then Reset(Box(0, [], committed), start)
    else
      var b := Life(start, committed, events[..|events| - 1]);
      match events[|events| - 1]
      case Opened(conf) => Append(b, conf)
      case Reported(first, last, peer) => CommitAt(b, first, last, peer).0
  }

  lemma {:induction false} LifeIsSound(start: nat, committed: nat, events: seq<Event>, stored: Stored)
    requires start > committed
    requires forall e :: e in events && e.Reported? ==> Holds(stored, e.peer, e.last)
    ensures Sound(Life(start, committed, events), stored)
    ensures Life(start, committed, events).committed >= committed
    ensures Life(start, committed, events).pendingIndex >= start
  {
    if events != [] {
      var k := |events| - 1;
      LifeIsSound(start, committed, events[..k], stored);
      var b := Life(start, committed, events[..k]);
      match events[k]
      case Opened(conf) => AppendStaysSound(b, conf, stored);
      case Reported(first, last, peer) =>
        assert events[k] in events;
        CommitStaysSound(b, first, last, peer, stored);
    }
  }

  /** Removing one of four peers: entry 1 is committed with 2 of 4 votes, because entry 2 needs only 2 of 3. */
  lemma EarlierBallotMayLackQuorum()
    ensures var four, three := Conf({1, 2, 3, 4}, {}), Conf({1, 2, 3}, {});
      var b := Box(1, [BallotView(four, {1}), BallotView(three, {1})], 0);
      && Sound(b, map[1 := 2])
      && CommitAt(b, 1, 2, 2).0 == Box(3, [], 2)
      && !Grant(b.ballots[0], 2).IsGranted()
  {
    var four, three := Conf({1, 2, 3, 4}, {}), Conf({1, 2, 3}, {});
    var bs := [BallotView(four, {1}), BallotView(three, {1})];
    var marked := [BallotView(four, {1, 2}), BallotView(three, {1, 2})];
    assert {1} * {1, 2, 3} == {1} && {1} * {1, 2, 3, 4} == {1};
    assert {1, 2} * {1, 2, 3} == {1, 2} && {1, 2} * {1, 2, 3, 4} == {1, 2};
    assert {1} + {2} == {1, 2};
    var r := GrantRange(bs, 0, 2, 2);
    assert r[0] == marked[0] && r[1] == marked[1];
    assert r == marked;
    assert marked[1].IsGranted();
    assert LastGranted(marked, 0, 2) == 2;
  }
}
