/** Leader and follower leases as the objects keep them, and how a leader dates its contact with a majority. */
module Leases {
  import opened Quorum

  datatype LeaseState = Expired | NotReady | Valid | Suspect

  datatype LeaseInfo = LeaseInfo(state: LeaseState, term: nat, epoch: nat)

  // ----- the leader's lease as a history of calls

  datatype LeaseEvent =
    | LeaderStart(term: nat)
    | LeaderStop
    | LeaseStart(expectEpoch: nat, stamp: int)
    | Renewed(stamp: int)

  datatype LeaderView = LeaderView(term: nat, epoch: nat, lastActive: int)

  function Happen(v: LeaderView, e: LeaseEvent): LeaderView {
    match e
    case LeaderStart(term) => LeaderView(term, v.epoch + 1, 0)
    case LeaderStop => v.(term := 0, lastActive := 0)
    case LeaseStart(expectEpoch, stamp) => if v.term != 0 && expectEpoch == v.epoch then v.(lastActive := stamp) else v
    case Renewed(stamp) => v.(lastActive := stamp)
  }

  function Lived(es: seq<LeaseEvent>): LeaderView {
    if es == [] then LeaderView(0, 0, 0) else Happen(Lived(es[..|es| - 1]), es[|es| - 1])
  }

  /** How often this node has come to lead. */
  function Starts(es: seq<LeaseEvent>): nat {
    if es == [] then 0 else Starts(es[..|es| - 1]) + if es[|es| - 1].LeaderStart? then 1 else 0
  }

  predicate Ends(e: LeaseEvent) { e.LeaderStart? || e.LeaderStop? }

  /** The leadership that began with event `k` is still on. */
  predicate Current(es: seq<LeaseEvent>, k: nat) {
    && k < |es| && es[k].LeaderStart? && es[k].term != 0
    && forall i :: k < i < |es| ==> !Ends(es[i])
  }

  /** Event `j` is a renewal, or a start meant for the leadership that began with event `k`. */
  predicate OwnStamp(es: seq<LeaseEvent>, k: nat, j: nat)
    requires k < |es| && j < |es|
  {
    es[j].Renewed? || (es[j].LeaseStart? && es[j].expectEpoch == Starts(es[..k + 1]))
  }

  /** Of the stamps of the leadership that began with event `k`, the one of event `j` is the last. */
  predicate LastStamp(es: seq<LeaseEvent>, k: nat, j: nat)
    requires k < |es|
  {
    && k < j < |es| && OwnStamp(es, k, j)
    && forall i :: j < i < |es| ==> !OwnStamp(es, k, i)
  }

  predicate ValidAt(v: LeaderView, electionTimeout: int, now: int) {
    v.term != 0 && v.lastActive != 0 && now - v.lastActive < electionTimeout
  }

  /** Where the lease stands: the leadership that is on, and its last stamp, if any. */
  lemma {:induction false} LeaseStands(es: seq<LeaseEvent>) returns (k: nat, j: nat)
    ensures Lived(es).epoch == Starts(es)
    ensures Lived(es).term != 0 ==> Current(es, k) && es[k].term == Lived(es).term && Starts(es[..k + 1]) == Starts(es)
    ensures Lived(es).term == 0 ==> forall i :: !Current(es, i)
    ensures Lived(es).term != 0 && j < |es| ==> LastStamp(es, k, j) && es[j].stamp == Lived(es).lastActive
    ensures Lived(es).term != 0 && j >= |es| ==> Lived(es).lastActive == 0 && forall i :: k < i < |es| ==> !OwnStamp(es, k, i)
  {
    if es == [] {
      k, j := 0, 0;
    } else {
      var n := |es| - 1;
      var rest := es[..n];
      k, j := LeaseStands(rest);
      var e := es[n];
      if Ends(e) {
        k, j := n, n + 1;
        assert es[..n + 1] == es;
      } else if Lived(rest).term != 0 {
        assert es[..k + 1] == rest[..k + 1];
        assert forall i :: k < i < n ==> OwnStamp(es, k, i) == OwnStamp(rest, k, i) by {
          assert es[..k + 1] == rest[..k + 1];
        }
        j := if OwnStamp(es, k, n) then n else if j >= n then n + 1 else j;
      } else {
        forall i ensures !Current(es, i) { if Current(es, i) { assert Current(rest, i); } }
      }
    }
  }

  /** A lease is valid exactly by the last stamp of the leadership that is on; stamps meant for an earlier one never count. */
  lemma LeaseIsOwn(es: seq<LeaseEvent>, electionTimeout: int, now: int)
    ensures ValidAt(Lived(es), electionTimeout, now) <==>
      exists k: nat, j: nat :: Current(es, k) && LastStamp(es, k, j) && es[j].stamp != 0 && now - es[j].stamp < electionTimeout
  {
    var k, j := LeaseStands(es);
    if ValidAt(Lived(es), electionTimeout, now) {
      assert Current(es, k) && LastStamp(es, k, j);
    }
    forall a: nat, b: nat | Current(es, a) && LastStamp(es, a, b) && es[b].stamp != 0 && now - es[b].stamp < electionTimeout
      ensures ValidAt(Lived(es), electionTimeout, now)
    {
      assert a == k;
    }
  }

  /** Clock readings come in as `now`; leases are enabled throughout. */
  class LeaderLease {
    var electionTimeout: int
    var lastActive: int
    var term: nat
    var epoch: nat

    function View(): LeaderView reads this { LeaderView(term, epoch, lastActive) }

    constructor (electionTimeout: int)
      ensures this.electionTimeout == electionTimeout && View() == Lived([])
    {
      this.electionTimeout, lastActive, term, epoch := electionTimeout, 0, 0, 0;
    }

    /** Until a start of the new epoch or a renewal, no lease is valid. */
    method OnLeaderStart(term: nat)
      modifies this`epoch, this`term, this`lastActive
      ensures View() == Happen(old(View()), LeaderStart(term))
      ensures forall now :: !ValidAt(View(), electionTimeout, now)
    {
      epoch, this.term, lastActive := epoch + 1, term, 0;
    }

    method OnLeaderStop()
      modifies this`lastActive, this`term
      ensures View() == Happen(old(View()), LeaderStop)
      ensures forall now :: !ValidAt(View(), electionTimeout, now)
    {
      lastActive, term := 0, 0;
    }

    /** A start that belongs to an earlier leadership is ignored. */
    method OnLeaseStart(expectEpoch: nat, timestamp: int)
      modifies this`lastActive
      ensures View() == Happen(old(View()), LeaseStart(expectEpoch, timestamp))
    {
      if term == 0 || expectEpoch != epoch { return; }
      lastActive := timestamp;
    }

    method Renew(timestamp: int)
      modifies this`lastActive
      ensures View() == Happen(old(View()), Renewed(timestamp))
    {
      lastActive := timestamp;
    }

    /** Valid means: leading, started, and less than an election timeout since a majority was reached. */
    method GetLeaseInfo(now: int) returns (info: LeaseInfo)
      ensures info.state == Valid <==> ValidAt(View(), electionTimeout, now)
      ensures info.state == Expired <==> term == 0
      ensures info.state == NotReady <==> term != 0 && lastActive == 0
      ensures info.state == Valid ==> info.term == term && info.epoch == epoch
    {
      if term == 0 { return LeaseInfo(Expired, 0, 0); }
      if lastActive == 0 { return LeaseInfo(NotReady, 0, 0); }
      if now < lastActive + electionTimeout { return LeaseInfo(Valid, term, epoch); }
      info := LeaseInfo(Suspect, 0, 0);
    }
  }

  predicate RunOut(lastLeaderTimestamp: int, electionTimeout: int, maxClockDrift: int, now: int) {
    now - lastLeaderTimestamp >= electionTimeout + maxClockDrift
  }

  class FollowerLease {
    var electionTimeout: int
    var maxClockDrift: int
    var lastLeader: Option<PeerId>
    var lastLeaderTimestamp: int

    /** After a restart the old lease is unknown, so it is taken to begin now. */
    constructor (electionTimeout: int, maxClockDrift: int, now: int)
      ensures this.electionTimeout == electionTimeout && this.maxClockDrift == maxClockDrift
      ensures lastLeader == None && lastLeaderTimestamp == now
    {
      this.electionTimeout, this.maxClockDrift := electionTimeout, maxClockDrift;
      lastLeader, lastLeaderTimestamp := None, now;
    }

    method Renew(leader: PeerId, now: int)
      modifies this`lastLeader, this`lastLeaderTimestamp
      ensures lastLeader == Some(leader) && lastLeaderTimestamp == now
    {
      lastLeader, lastLeaderTimestamp := Some(leader), now;
    }

    method Reset()
      modifies this`lastLeader, this`lastLeaderTimestamp
      ensures lastLeader == None && lastLeaderTimestamp == 0
    {
      lastLeader, lastLeaderTimestamp := None, 0;
    }

    /** Ends the lease, but only on a clock that has run for a whole lease; the leader is still remembered. */
    method Expire()
      modifies this`lastLeaderTimestamp
      ensures lastLeaderTimestamp == 0
      ensures forall now :: RunOut(lastLeaderTimestamp, electionTimeout, maxClockDrift, now) <==> now >= electionTimeout + maxClockDrift
    {
      lastLeaderTimestamp := 0;
    }

    /** How long this node still refuses to vote; 0 exactly when the lease has run out. */
    method VotableTimeFromNow(now: int) returns (wait: int)
      ensures wait == 0 <==> RunOut(lastLeaderTimestamp, electionTimeout, maxClockDrift, now)
      ensures wait >= 0 && (wait > 0 ==> (now + wait) - lastLeaderTimestamp == electionTimeout + maxClockDrift)
    {
      var votable := lastLeaderTimestamp + electionTimeout + maxClockDrift;
      if now >= votable { return 0; }
      wait := votable - now;
    }
  }

  // ----- the time at or after which a majority was last reached

  type Stamps = map<PeerId, int>

  /** A peer without a replicator counts as never reached. */
  function StampOf(stamps: Stamps, p: PeerId): int { if p in stamps then stamps[p] else 0 }

  ghost function Reached(stamps: Stamps, peers: set<PeerId>, self: PeerId, t: int): set<PeerId> {
    set p | p in peers && p != self && StampOf(stamps, p) >= t
  }

  /** `t` is the largest time such that a majority, counting the leader, was reached at or after it. */
  ghost predicate IsActiveSince(stamps: Stamps, peers: set<PeerId>, self: PeerId, now: int, t: int) {
    if peers - {self} == {} then t == now
    else
      && Majority(Reached(stamps, peers, self, t) + {self}, peers)
      && forall later {:trigger Reached(stamps, peers, self, later)} :: later > t ==>
           !Majority(Reached(stamps, peers, self, later) + {self}, peers)
  }

  function CountAtLeast(s: seq<int>, t: int): (c: nat)
    ensures c <= |s|
  {
    if s == [] then 0 else CountAtLeast(s[..|s| - 1], t) + if s[|s| - 1] >= t then 1 else 0
  }

  lemma {:induction false} CountConcat(a: seq<int>, b: seq<int>, t: int)
    ensures CountAtLeast(a + b, t) == CountAtLeast(a, t) + CountAtLeast(b, t)
  {
    if b == [] {
      assert a + b == a;
    } else {
      CountConcat(a, b[..|b| - 1], t);
      assert (a + b)[..|a + b| - 1] == a + b[..|b| - 1];
    }
  }

  /** Taking out one element lowers the count by one, exactly for the bounds it meets. */
  lemma CountWithout(s: seq<int>, i: nat, t: int)
    requires i < |s|
    ensures CountAtLeast(s[..i] + s[i + 1..], t) == CountAtLeast(s, t) - if s[i] >= t then 1 else 0
  {
    CountConcat(s[..i], s[i + 1..], t);
    CountConcat(s[..i + 1], s[i + 1..], t);
    assert s[..i + 1] + s[i + 1..] == s;
    assert s[..i + 1][..i] == s[..i];
  }

  lemma {:induction false} CountAll(s: seq<int>, t: int)
    requires forall i :: 0 <= i < |s| ==> s[i] >= t
    ensures CountAtLeast(s, t) == |s|
  {
    if s != [] { CountAll(s[..|s| - 1], t); }
  }

  lemma {:induction false} CountNotAll(s: seq<int>, i: nat, t: int)
    requires i < |s| && s[i] < t
    ensures CountAtLeast(s, t) < |s|
  {
    CountWithout(s, i, t);
  }

  /** The smallest element and its place: what pop_heap brings to the back. */
  method FindMin(s: seq<int>) returns (m: nat)
    requires s != []
    ensures m < |s| && forall i :: 0 <= i < |s| ==> s[m] <= s[i]
  {
    m := 0;
    var i := 1;
    while i < |s|
      invariant 1 <= i <= |s| && m < i && forall k :: 0 <= k < i ==> s[m] <= s[k]
    {
      if s[i] < s[m] { m := i; }
      i := i + 1;
    }
  }

  function Min(a: nat, b: nat): nat { if a <= b then a else b }

  /** The heap bounded to `k` elements holds, above every bound, as many stamps as there are, up to `k`. */
  ghost predicate KeepsLargest(heap: seq<int>, all: seq<int>, k: nat) {
    && |heap| == Min(k, |all|)
    && forall t :: CountAtLeast(heap, t) == Min(k, CountAtLeast(all, t))
  }

  lemma CountPush(s: seq<int>, x: int)
    ensures forall t :: CountAtLeast(s + [x], t) == CountAtLeast(s, t) + (if x >= t then 1 else 0)
  {
    assert (s + [x])[..|s|] == s;
  }

  lemma NoneKept(k: nat)
    ensures KeepsLargest([], [], k)
  {
  }

  /** One push, and one pop when the bound is exceeded. */
  method PushBounded(heap: seq<int>, x: int, k: nat, ghost all: seq<int>) returns (next: seq<int>)
    requires KeepsLargest(heap, all, k)
    ensures KeepsLargest(next, all + [x], k)
  {
    next := heap + [x];
    CountPush(heap, x);
    CountPush(all, x);
    if |next| > k {
      var m := FindMin(next);
      ghost var full := next;
      next := next[..m] + next[m + 1..];
      forall t ensures CountAtLeast(next, t) == Min(k, CountAtLeast(all + [x], t)) {
        CountWithout(full, m, t);
        if full[m] >= t { CountAll(full, t); } else { CountNotAll(full, m, t); }
      }
    }
  }

  /** Stamps of the listed peers other than the leader. */
  function StampList(stamps: Stamps, list: seq<PeerId>, self: PeerId): seq<int> {
    if list == [] then []
    else
      var p := list[|list| - 1];
      StampList(stamps, list[..|list| - 1], self) + if p == self then [] else [StampOf(stamps, p)]
  }

  ghost predicate Lists(list: seq<PeerId>, peers: set<PeerId>) {
    && (forall i, j :: 0 <= i < j < |list| ==> list[i] != list[j])
    && (forall p :: p in peers <==> p in list)
  }

  lemma ReachedNext(stamps: Stamps, peers: set<PeerId>, self: PeerId, t: int, p: PeerId)
    requires p in peers
    ensures |Reached(stamps, peers, self, t)|
      == |Reached(stamps, peers - {p}, self, t)| + if p != self && StampOf(stamps, p) >= t then 1 else 0
  {
    var before, after := Reached(stamps, peers - {p}, self, t), Reached(stamps, peers, self, t);
    if p != self && StampOf(stamps, p) >= t {
      assert after == before + {p};
    } else {
      assert after == before;
    }
  }

  lemma OthersNext(peers: set<PeerId>, self: PeerId, p: PeerId)
    requires p in peers
    ensures |peers - {self}| == |peers - {p} - {self}| + if p != self then 1 else 0
  {
    if p == self {
      assert peers - {self} == peers - {p} - {self};
    } else {
      assert peers - {self} == (peers - {p} - {self}) + {p};
    }
  }

  lemma ListsRest(list: seq<PeerId>, peers: set<PeerId>)
    requires Lists(list, peers) && list != []
    ensures list[|list| - 1] in peers && Lists(list[..|list| - 1], peers - {list[|list| - 1]})
  {
    var p, rest := list[|list| - 1], list[..|list| - 1];
    forall q ensures q in peers - {p} <==> q in rest {
      if q in list && q != p { assert q in rest; }
    }
  }

  lemma NoneReached(stamps: Stamps, peers: set<PeerId>, self: PeerId, t: int)
    requires Lists([], peers)
    ensures |Reached(stamps, peers, self, t)| == 0 && |peers - {self}| == 0
  {
    var none: seq<PeerId> := [];
    assert forall p :: p in peers ==> p in none;
    assert peers == {};
    assert Reached(stamps, peers, self, t) == {};
  }

  lemma StampListNext(stamps: Stamps, list: seq<PeerId>, self: PeerId, t: int)
    requires list != []
    ensures var p, rest := list[|list| - 1], StampList(stamps, list[..|list| - 1], self);
      && |StampList(stamps, list, self)| == |rest| + (if p != self then 1 else 0)
      && CountAtLeast(StampList(stamps, list, self), t) == CountAtLeast(rest, t) + (if p != self && StampOf(stamps, p) >= t then 1 else 0)
  {
    var p, rest := list[|list| - 1], StampList(stamps, list[..|list| - 1], self);
    CountPush(rest, StampOf(stamps, p));
    assert rest + [] == rest;
  }

  lemma {:induction false} CountIsReached(stamps: Stamps, list: seq<PeerId>, peers: set<PeerId>, self: PeerId, t: int)
    requires Lists(list, peers)
    ensures CountAtLeast(StampList(stamps, list, self), t) == |Reached(stamps, peers, self, t)|
    ensures |StampList(stamps, list, self)| == |peers - {self}|
  {
    if list == [] {
      NoneReached(stamps, peers, self, t);
    } else {
      hide Lists, Reached;
      var p, rest := list[|list| - 1], list[..|list| - 1];
      ListsRest(list, peers);
      CountIsReached(stamps, rest, peers - {p}, self, t);
      ReachedNext(stamps, peers, self, t, p);
      OthersNext(peers, self, p);
      StampListNext(stamps, list, self, t);
    }
  }

  /** With the leader among the peers, `k` others make a majority exactly when `k` is half of them. */
  lemma MajorityWithSelf(stamps: Stamps, peers: set<PeerId>, self: PeerId, t: int)
    requires self in peers
    ensures Majority(Reached(stamps, peers, self, t) + {self}, peers) <==> |Reached(stamps, peers, self, t)| >= |peers| / 2
  {
    var r := Reached(stamps, peers, self, t);
    assert (r + {self}) * peers == r + {self};
    assert |r + {self}| == |r| + 1;
  }

  /** What the loop answers: with one peer or none the time it is, else the largest time that half of the peers reach. */
  ghost predicate Selected(stamps: Stamps, peers: set<PeerId>, self: PeerId, now: int, t: int) {
    if |peers| <= 1 then t == now
    else |Reached(stamps, peers, self, t)| >= |peers| / 2 && |Reached(stamps, peers, self, t + 1)| < |peers| / 2
  }

  /** The loop of last_leader_active_timestamp, for the peers in any order. */
  method LastLeaderActiveTimestamp(list: seq<PeerId>, self: PeerId, stamps: Stamps, now: int, ghost peers: set<PeerId>)
      returns (t: int)
    requires Lists(list, peers)
    ensures self in peers ==> IsActiveSince(stamps, peers, self, now, t)
    ensures Selected(stamps, peers, self, now, t)
  {
    hide Lists, Reached, CountAtLeast, KeepsLargest;
    var heap: seq<int> := [];
    NoneKept(|list| / 2);
    var i := 0;
    while i < |list|
      invariant i <= |list|
      invariant KeepsLargest(heap, StampList(stamps, list[..i], self), |list| / 2)
    {
      assert list[..i + 1][..i] == list[..i];
      if list[i] != self {
        heap := PushBounded(heap, StampOf(stamps, list[i]), |list| / 2, StampList(stamps, list[..i], self));
      } else {
        assert StampList(stamps, list[..i + 1], self) == StampList(stamps, list[..i], self);
      }
      i := i + 1;
    }
    assert list[..i] == list;
    ListSize(list, peers);
    CountIsReached(stamps, list, peers, self, 0);
    OthersSize(peers, self);
    if heap == [] {
      NothingKept(StampList(stamps, list, self), |list| / 2);
      return now;
    }
    var m := FindMin(heap);
    t := heap[m];
    SelectionIsRight(heap, m, stamps, list, peers, self);
  }

  lemma {:induction false} ListSize(list: seq<PeerId>, peers: set<PeerId>)
    requires Lists(list, peers)
    ensures |list| == |peers|
  {
    if list == [] {
      assert peers == {};
    } else {
      ListsRest(list, peers);
      ListSize(list[..|list| - 1], peers - {list[|list| - 1]});
    }
  }

  lemma NothingKept(all: seq<int>, k: nat)
    requires KeepsLargest([], all, k)
    ensures k == 0 || all == []
  {
  }

  lemma OthersSize(peers: set<PeerId>, self: PeerId)
    ensures |peers - {self}| == |peers| - if self in peers then 1 else 0
    ensures |peers - {self}| == 0 <==> peers - {self} == {}
  {
    if self in peers {
      assert peers == (peers - {self}) + {self};
    } else {
      assert peers - {self} == peers;
    }
  }

  /** The smallest kept stamp is the order statistic asked for. */
  lemma SelectionIsRight(heap: seq<int>, m: nat, stamps: Stamps, list: seq<PeerId>, peers: set<PeerId>, self: PeerId)
    requires Lists(list, peers) && KeepsLargest(heap, StampList(stamps, list, self), |list| / 2)
    requires m < |heap| && forall i :: 0 <= i < |heap| ==> heap[m] <= heap[i]
    ensures |peers - {self}| >= |peers| / 2 ==> forall t {:trigger Reached(stamps, peers, self, t)} ::
      |Reached(stamps, peers, self, t)| >= |peers| / 2 <==> t <= heap[m]
    ensures self in peers ==> forall now :: IsActiveSince(stamps, peers, self, now, heap[m])
  {
    ListSize(list, peers);
    OthersSize(peers, self);
    CountIsReached(stamps, list, peers, self, 0);
    if |peers - {self}| >= |peers| / 2 {
      forall t ensures |Reached(stamps, peers, self, t)| >= |peers| / 2 <==> t <= heap[m] {
        CountIsReached(stamps, list, peers, self, t);
        if t <= heap[m] { CountAll(heap, t); } else { CountNotAll(heap, m, t); }
      }
      if self in peers {
        forall t ensures Majority(Reached(stamps, peers, self, t) + {self}, peers) <==> t <= heap[m] {
          MajorityWithSelf(stamps, peers, self, t);
        }
      }
    }
  }

  /** Just `k` of the peers are reached at or after some time: no tie covers the place that is missing. */
  ghost predicate SomeTimeExactly(stamps: Stamps, peers: set<PeerId>, self: PeerId, k: nat) {
    exists s {:trigger Reached(stamps, peers, self, s)} :: |Reached(stamps, peers, self, s)| == k
  }

  lemma ReachedLess(stamps: Stamps, peers: set<PeerId>, self: PeerId, s: int, t: int)
    requires s <= t
    ensures |Reached(stamps, peers, self, t)| <= |Reached(stamps, peers, self, s)|
  {
    SubsetSize(Reached(stamps, peers, self, t), Reached(stamps, peers, self, s));
  }

  lemma MajorityWithoutSelf(stamps: Stamps, peers: set<PeerId>, self: PeerId, t: int)
    requires self !in peers
    ensures Majority(Reached(stamps, peers, self, t) + {self}, peers) <==> |Reached(stamps, peers, self, t)| > |peers| / 2
  {
    var r := Reached(stamps, peers, self, t);
    assert (r + {self}) * peers == r;
  }

  /** A leader outside two or more peers would need one more of them than the heap keeps. */
  lemma OutsideNeedsTie(stamps: Stamps, peers: set<PeerId>, self: PeerId, now: int, t: int)
    requires self !in peers && |peers| >= 2 && Selected(stamps, peers, self, now, t)
    ensures IsActiveSince(stamps, peers, self, now, t) <==> !SomeTimeExactly(stamps, peers, self, |peers| / 2)
  {
    hide Reached;
    OthersSize(peers, self);
    forall s ensures Majority(Reached(stamps, peers, self, s) + {self}, peers) <==> |Reached(stamps, peers, self, s)| > |peers| / 2 {
      MajorityWithoutSelf(stamps, peers, self, s);
    }
    forall s | s > t ensures |Reached(stamps, peers, self, s)| < |peers| / 2 { ReachedLess(stamps, peers, self, t + 1, s); }
    forall s | s <= t ensures |Reached(stamps, peers, self, s)| >= |Reached(stamps, peers, self, t)| {
      ReachedLess(stamps, peers, self, s, t);
    }
  }

  /** A leader outside a single peer is answered the time it is: right only for a peer reached that very moment. */
  lemma OutsideOfOne(stamps: Stamps, p: PeerId, self: PeerId, now: int)
    requires p != self
    ensures IsActiveSince(stamps, {p}, self, now, now) <==> StampOf(stamps, p) == now
  {
    assert {p} - {self} == {p};
    forall s ensures Majority(Reached(stamps, {p}, self, s) + {self}, {p}) <==> StampOf(stamps, p) >= s {
      OneReached(stamps, p, self, s);
    }
    hide Reached, Majority;
    if StampOf(stamps, p) > now { assert Majority(Reached(stamps, {p}, self, StampOf(stamps, p)) + {self}, {p}); }
  }

  lemma OneReached(stamps: Stamps, p: PeerId, self: PeerId, s: int)
    requires p != self
    ensures Majority(Reached(stamps, {p}, self, s) + {self}, {p}) <==> StampOf(stamps, p) >= s
  {
    MajorityWithoutSelf(stamps, {p}, self, s);
    assert Reached(stamps, {p}, self, s) == if StampOf(stamps, p) >= s then {p} else {};
  }

  /** For every configuration, leader and contact times: exactly when the answer is the time asked for. */
  lemma AnswerIsRightIff(stamps: Stamps, peers: set<PeerId>, self: PeerId, now: int, t: int)
    requires Selected(stamps, peers, self, now, t)
    ensures IsActiveSince(stamps, peers, self, now, t) <==>
      || peers == {}
      || self in peers
      || (|peers| >= 2 && !SomeTimeExactly(stamps, peers, self, |peers| / 2))
      || (exists p :: peers == {p} && StampOf(stamps, p) == now)
  {
    if peers == {} {
      assert peers - {self} == {};
    } else if self in peers {
      InsideIsRight(stamps, peers, self, now, t);
    } else if |peers| >= 2 {
      OutsideNeedsTie(stamps, peers, self, now, t);
      assert forall p :: peers == {p} ==> |peers| == 1;
    } else {
      var p :| p in peers;
      OnlyOne(peers, p);
      OutsideOfOne(stamps, p, self, now);
    }
  }

  lemma OnlyOne(peers: set<PeerId>, p: PeerId)
    requires p in peers && |peers| == 1
    ensures peers == {p}
  {
    assert |peers - {p}| == 0;
    assert peers == (peers - {p}) + {p};
  }

  lemma InsideIsRight(stamps: Stamps, peers: set<PeerId>, self: PeerId, now: int, t: int)
    requires self in peers && Selected(stamps, peers, self, now, t)
    ensures IsActiveSince(stamps, peers, self, now, t)
  {
    OthersSize(peers, self);
    if |peers| == 1 {
      OnlyOne(peers, self);
      assert peers - {self} == {};
    } else {
      hide Reached;
      forall s ensures Majority(Reached(stamps, peers, self, s) + {self}, peers) <==> |Reached(stamps, peers, self, s)| >= |peers| / 2 {
        MajorityWithSelf(stamps, peers, self, s);
      }
      forall s | s > t ensures |Reached(stamps, peers, self, s)| < |peers| / 2 { ReachedLess(stamps, peers, self, t + 1, s); }
    }
  }

  /** Leader 3 of {1, 2}, reached by 2 alone at time 20: the loop answers 20, though no majority was reached then. */
  lemma OutsideLeaderIsWrong()
    ensures var stamps := map[1 := 10, 2 := 20];
      Selected(stamps, {1, 2}, 3, 30, 20) && !IsActiveSince(stamps, {1, 2}, 3, 30, 20)
  {
    var stamps := map[1 := 10, 2 := 20];
    assert Reached(stamps, {1, 2}, 3, 20) == {2};
    assert Reached(stamps, {1, 2}, 3, 21) == {};
    OutsideNeedsTie(stamps, {1, 2}, 3, 30, 20);
  }

  /** Leader 3 removes itself from {1, 3}: whatever 1 has answered, the lease is dated now, so it never runs out. */
  lemma RemovedLeaderNeverExpires(stamps: Stamps, now: int)
    requires StampOf(stamps, 1) != now
    ensures Selected(stamps, {1}, 3, now, now) && !IsActiveSince(stamps, {1}, 3, now, now)
    ensures forall t :: Selected(stamps, {1}, 3, now, t) ==> t == now
  {
    OutsideOfOne(stamps, 1, 3, now);
  }
}
