/** The follower's cache of append requests that arrived too early (node.cpp, AppendEntriesCache). */
module AppendEntriesCaches {
  import opened Quorum

  const MAX_CACHE_SIZE: nat := 8

  /** A held request covers the indexes `prev + 1` to `prev + size`. */
  datatype Rpc = Rpc(id: nat, prev: nat, size: nat, receivedAt: nat) {
    function End(): nat { prev + size }
  }

  predicate Overlap(a: Rpc, b: Rpc) { a.prev < b.End() && b.prev < a.End() }

  /** The ordered map: by `prev`, and the ranges do not overlap. */
  predicate Ordered(m: seq<Rpc>) {
    && (forall i :: 0 <= i < |m| ==> m[i].size > 0)
    && forall i, j :: 0 <= i < j < |m| ==> m[i].End() <= m[j].prev
  }

  function LowerBound(m: seq<Rpc>, prev: nat): (i: nat)
    requires Ordered(m)
    ensures i <= |m|
    ensures forall j :: 0 <= j < i ==> m[j].prev < prev
    ensures forall j :: i <= j < |m| ==> m[j].prev >= prev
  {
    if m == [] || m[0].prev >= prev then 0 else 1 + LowerBound(m[1..], prev)
  }

  function Inserted(m: seq<Rpc>, rpc: Rpc): seq<Rpc>
    requires Ordered(m)
  {
    var i := LowerBound(m, rpc.prev);
    m[..i] + [rpc] + m[i..]
  }

  predicate Clash(m: seq<Rpc>, rpc: Rpc) { exists i :: 0 <= i < |m| && Overlap(m[i], rpc) }

  /** Only the neighbours of the place where the request goes need a look. */
  lemma NeighboursDecide(m: seq<Rpc>, rpc: Rpc)
    requires Ordered(m) && rpc.size > 0
    ensures var i := LowerBound(m, rpc.prev);
      Clash(m, rpc) <==> (i > 0 && m[i - 1].End() > rpc.prev) || (i < |m| && m[i].prev < rpc.End())
  {
    var i := LowerBound(m, rpc.prev);
    if i > 0 && m[i - 1].End() > rpc.prev { assert Overlap(m[i - 1], rpc); }
    if i < |m| && m[i].prev < rpc.End() { assert Overlap(m[i], rpc); }
    forall j | 0 <= j < |m| && Overlap(m[j], rpc)
      ensures (i > 0 && m[i - 1].End() > rpc.prev) || (i < |m| && m[i].prev < rpc.End())
    {
      if j < i - 1 { assert m[j].End() <= m[i - 1].prev; }
      if i < j { assert m[i].End() <= m[j].prev; }
    }
  }

  lemma InsertedOrdered(m: seq<Rpc>, rpc: Rpc)
    requires Ordered(m) && rpc.size > 0 && !Clash(m, rpc)
    ensures Ordered(Inserted(m, rpc))
  {
    NeighboursDecide(m, rpc);
    InsertAt(m, LowerBound(m, rpc.prev), rpc);
  }

  lemma InsertAt(m: seq<Rpc>, i: nat, rpc: Rpc)
    requires Ordered(m) && i <= |m| && rpc.size > 0
    requires (i > 0 ==> m[i - 1].End() <= rpc.prev) && (i < |m| ==> rpc.End() <= m[i].prev)
    ensures Ordered(m[..i] + [rpc] + m[i..])
  {
    var n := m[..i] + [rpc] + m[i..];
    forall j | 0 <= j < i ensures m[j].End() <= rpc.prev {
      if j < i - 1 { assert m[j].End() <= m[i - 1].prev; }
    }
    forall j | i <= j < |m| ensures rpc.End() <= m[j].prev {
      if i < j { assert m[i].End() <= m[j].prev; }
    }
    forall a, b | 0 <= a < b < |n| ensures n[a].End() <= n[b].prev {
      assert n[a] == if a < i then m[a] else if a == i then rpc else m[a - 1];
      assert n[b] == if b < i then m[b] else if b == i then rpc else m[b - 1];
    }
  }

  lemma InsertedAll(m: seq<Rpc>, rpc: Rpc)
    requires Ordered(m)
    ensures multiset(Inserted(m, rpc)) == multiset(m) + multiset{rpc} && |Inserted(m, rpc)| == |m| + 1
  {
    var i := LowerBound(m, rpc.prev);
    assert m == m[..i] + m[i..];
  }

  /** How many requests the loop releases from the front, carrying the end of the last one along. */
  function Runnable(m: seq<Rpc>, localLast: nat): (n: nat)
    ensures n <= |m|
  {
    if m == [] || m[0].prev > localLast then 0 else 1 + Runnable(m[1..], m[0].End())
  }

  /** The releasing loop stands behind the first `i` requests of `m`. */
  predicate Releasing(m: seq<Rpc>, localLast: nat, i: nat, last: nat) {
    i <= |m| && Runnable(m, localLast) == i + Runnable(m[i..], last)
  }

  lemma ReleaseStarts(m: seq<Rpc>, localLast: nat)
    ensures Releasing(m, localLast, 0, localLast) && m[0..] == m && m[..0] == []
  {
  }

  lemma ReleaseNext(m: seq<Rpc>, localLast: nat, i: nat, last: nat)
    requires Releasing(m, localLast, i, last) && i < |m| && m[i].prev <= last
    ensures Releasing(m, localLast, i + 1, m[i].End())
    ensures m[i..][0] == m[i] && m[i..][1..] == m[i + 1..] && m[..i] + [m[i]] == m[..i + 1]
  {
  }

  lemma ReleaseStops(m: seq<Rpc>, localLast: nat, i: nat, last: nat)
    requires Releasing(m, localLast, i, last) && (i == |m| || m[i].prev > last)
    ensures Runnable(m, localLast) == i
  {
  }

  /** `out` is what has been taken from the back of `m`, and `left` is the rest. */
  predicate Leaving(m: seq<Rpc>, left: seq<Rpc>, out: seq<Rpc>) {
    |left| <= |m| && left == m[..|left|] && multiset(out) == multiset(m[|left|..])
  }

  lemma NoneLeaves(m: seq<Rpc>)
    ensures Leaving(m, m, [])
  {
    assert m[..|m|] == m;
  }

  lemma AllLeft(m: seq<Rpc>, left: seq<Rpc>, out: seq<Rpc>)
    requires Leaving(m, left, out)
    ensures left == m[..|left|] && multiset(out) == multiset(m[|left|..])
  {
  }

  lemma OneLeaves(m: seq<Rpc>, left: seq<Rpc>, out: seq<Rpc>)
    requires Leaving(m, left, out) && left != []
    ensures var n := |left| - 1; Leaving(m, left[..n], out + [left[n]])
  {
    var n := |left| - 1;
    assert left[n] == m[n] && left[..n] == m[..n];
    assert m[n..] == [m[n]] + m[n + 1..];
  }

  function Least(a: nat, b: nat): nat { if a < b then a else b }

  function Max(a: nat, b: nat): nat { if a < b then b else a }

  /** How many could be handled in order: each starts no later than the log would then reach. */
  function Reachable(m: seq<Rpc>, localLast: nat): (n: nat)
    ensures n <= |m|
  {
    if m == [] || m[0].prev > localLast then 0 else 1 + Reachable(m[1..], Max(localLast, m[0].End()))
  }

  /** The cached requests that start at or below the log's end follow each other without a gap. */
  predicate GapFree(m: seq<Rpc>, localLast: nat) {
    forall i, j :: 0 <= i < |m| && j == i + 1 && j < |m| && m[j].prev <= localLast ==> m[j].prev == m[i].End()
  }

  /** The loop releases the whole reachable chain exactly if there is no gap below the log's end. */
  lemma {:induction false} ReleasesReachable(m: seq<Rpc>, localLast: nat)
    requires Ordered(m)
    ensures Runnable(m, localLast) <= Reachable(m, localLast)
    ensures Runnable(m, localLast) == Reachable(m, localLast) <==> GapFree(m, localLast)
    decreases |m|
  {
    if |m| > 1 && m[0].prev <= localLast {
      var rest := m[1..];
      var end := m[0].End();
      assert Ordered(rest) && m[1] == rest[0];
      if end >= localLast {
        ReleasesReachable(rest, end);
        NoGapBeyond(m, localLast);
        NoGapBeyond(rest, end);
      } else if m[1].prev > localLast {
        NoGapBeyond(m, localLast);
      } else {
        ReleasesReachable(rest, localLast);
        GapFreeTail(m, localLast);
      }
    }
  }

  lemma NoGapBeyond(m: seq<Rpc>, localLast: nat)
    requires Ordered(m) && |m| > 0 && (m[0].End() >= localLast || (|m| > 1 && m[1].prev > localLast))
    ensures GapFree(m, localLast)
  {
    forall j | 2 <= j < |m| ensures m[j].prev > localLast {
      assert m[0].End() <= m[1].prev && m[1].End() <= m[j].prev;
    }
  }

  lemma GapFreeTail(m: seq<Rpc>, localLast: nat)
    requires Ordered(m) && |m| > 1 && m[1].prev <= localLast
    ensures GapFree(m, localLast) <==> m[1].prev == m[0].End() && GapFree(m[1..], localLast)
  {
    var rest := m[1..];
    if GapFree(m, localLast) {
      forall i, j | 0 <= i < |rest| && j == i + 1 && j < |rest| && rest[j].prev <= localLast
        ensures rest[j].prev == rest[i].End()
      {
        assert m[j + 1].prev == m[i + 1].End();
      }
    }
    if m[1].prev == m[0].End() && GapFree(rest, localLast) {
      forall i, j | 0 <= i < |m| && j == i + 1 && j < |m| && m[j].prev <= localLast ensures m[j].prev == m[i].End() {
        if i > 0 { assert rest[j - 1].prev == rest[i - 1].End(); }
      }
    }
  }

  /** A gap below the end of the log holds back a request that could be handled. */
  lemma GapHoldsBack()
    ensures var m := [Rpc(0, 2, 3, 0), Rpc(1, 8, 2, 0)];
      Ordered(m) && Reachable(m, 10) == 2 && Runnable(m, 10) == 1
  {
    var m := [Rpc(0, 2, 3, 0), Rpc(1, 8, 2, 0)];
    assert m[1..] == [m[1]] && m[1..][1..] == [];
    assert Reachable(m[1..], 10) == 1 && Runnable(m[1..], 5) == 0;
  }

  /** The list of arrivals without one of them. */
  function Without(q: seq<Rpc>, rpc: Rpc): (r: seq<Rpc>)
    ensures rpc in q ==> multiset(q) == multiset(r) + multiset{rpc}
    ensures rpc !in q ==> r == q
  {
    if q == [] then []
    else if q[0] == rpc then
      assert q == [q[0]] + q[1..];
      q[1..]
    else
      assert q == [q[0]] + q[1..];
      [q[0]] + Without(q[1..], rpc)
  }

  /** The others keep their order of arrival. */
  lemma {:induction false} WithoutKeepsOrder(q: seq<Rpc>, rpc: Rpc) returns (i: nat)
    requires rpc in q
    ensures i < |q| && q[i] == rpc && Without(q, rpc) == q[..i] + q[i + 1..]
  {
    i := 0;
    if q[0] != rpc {
      i := WithoutKeepsOrder(q[1..], rpc);
      i := i + 1;
    }
  }

  /** Map and list hold the same requests, and every request received is either held or passed on, once. */
  predicate Held(m: seq<Rpc>, q: seq<Rpc>, received: multiset<Rpc>, passedOn: seq<Rpc>) {
    Ordered(m) && multiset(m) == multiset(q) && received == multiset(m) + multiset(passedOn)
  }

  lemma HeldSize(m: seq<Rpc>, q: seq<Rpc>, received: multiset<Rpc>, passedOn: seq<Rpc>)
    requires Held(m, q, received, passedOn)
    ensures Ordered(m) && |m| == |q|
  {
    assert |multiset(m)| == |m| && |multiset(q)| == |q|;
  }

  lemma HeldSame(m: seq<Rpc>, q: seq<Rpc>, received: multiset<Rpc>, passedOn: seq<Rpc>)
    requires Held(m, q, received, passedOn)
    ensures multiset(m[0..]) == multiset(q) && m[0..] == m
  {
  }

  lemma EmptyNeverClashes(rpc: Rpc)
    ensures !Clash([], rpc) && Ordered([])
  {
  }

  lemma HeldInsert(m: seq<Rpc>, q: seq<Rpc>, received: multiset<Rpc>, passedOn: seq<Rpc>, rpc: Rpc)
    requires Held(m, q, received, passedOn) && rpc.size > 0 && !Clash(m, rpc)
    ensures Held(Inserted(m, rpc), q + [rpc], received + multiset{rpc}, passedOn) && |Inserted(m, rpc)| == |m| + 1
  {
    InsertedAll(m, rpc);
    InsertedOrdered(m, rpc);
  }

  lemma OrderedPart(m: seq<Rpc>, a: nat, b: nat)
    requires Ordered(m) && a <= b <= |m|
    ensures Ordered(m[a..b])
  {
  }

  lemma Removed(m: multiset<Rpc>, q: seq<Rpc>, rest: multiset<Rpc>, rpc: Rpc)
    requires m == multiset(q) && m == rest + multiset{rpc}
    ensures rest == multiset(Without(q, rpc))
  {
    assert rpc in m;
    assert rpc in q;
    var w := multiset(Without(q, rpc));
    assert rest + multiset{rpc} == w + multiset{rpc};
    assert rest == (rest + multiset{rpc}) - multiset{rpc};
    assert w == (w + multiset{rpc}) - multiset{rpc};
  }

  lemma HeldRest(m: seq<Rpc>, q: seq<Rpc>, received: multiset<Rpc>, passedOn: seq<Rpc>, rest: seq<Rpc>, rpc: Rpc)
    requires Held(m, q, received, passedOn) && multiset(m) == multiset(rest) + multiset{rpc} && Ordered(rest)
    ensures Held(rest, Without(q, rpc), received, passedOn + [rpc])
  {
    hide Ordered;
    Removed(multiset(m), q, multiset(rest), rpc);
    hide Without;
    Shuffle(multiset(rest), multiset{rpc}, multiset(passedOn));
    assert multiset(passedOn + [rpc]) == multiset(passedOn) + multiset{rpc};
  }

  lemma Shuffle(a: multiset<Rpc>, b: multiset<Rpc>, c: multiset<Rpc>)
    ensures (a + b) + c == a + (c + b)
  {
  }

  lemma HeldFirst(m: seq<Rpc>, q: seq<Rpc>, received: multiset<Rpc>, passedOn: seq<Rpc>)
    requires Held(m, q, received, passedOn) && m != []
    ensures Held(m[1..], Without(q, m[0]), received, passedOn + [m[0]])
  {
    assert m == [m[0]] + m[1..];
    OrderedPart(m, 1, |m|);
    assert m[1..|m|] == m[1..];
    hide Ordered, Without;
    HeldRest(m, q, received, passedOn, m[1..], m[0]);
  }

  lemma HeldLast(m: seq<Rpc>, q: seq<Rpc>, received: multiset<Rpc>, passedOn: seq<Rpc>)
    requires Held(m, q, received, passedOn) && m != []
    ensures var n := |m| - 1; Held(m[..n], Without(q, m[n]), received, passedOn + [m[n]])
  {
    var n := |m| - 1;
    assert m == m[..n] + [m[n]];
    OrderedPart(m, 0, n);
    assert m[0..n] == m[..n];
    hide Ordered, Without;
    HeldRest(m, q, received, passedOn, m[..n], m[n]);
  }

  lemma HeldNone(m: seq<Rpc>, q: seq<Rpc>, received: multiset<Rpc>, passedOn: seq<Rpc>)
    requires Held(m, q, received, passedOn)
    ensures Held([], [], received, passedOn + q)
  {
  }

  /** When the request that waits longest came. */
  function FirstArrival(q: seq<Rpc>): nat { if q == [] then 0 else q[0].receivedAt }

  datatype Timer = Timer(version: nat, start: nat)

  class AppendEntriesCache {
    var rpcMap: seq<Rpc>
    var rpcQueue: seq<Rpc>
    var timerVersion: nat
    var timer: Option<Timer>
    ghost var received: multiset<Rpc>
    ghost var passedOn: seq<Rpc>

    ghost predicate Valid() reads this {
      && Held(rpcMap, rpcQueue, received, passedOn) && |rpcMap| <= MAX_CACHE_SIZE
      && (rpcMap != [] <==> timer.Some?) && (timer.Some? ==> timer.value.version == timerVersion)
    }

    constructor ()
      ensures Valid() && rpcMap == [] && received == multiset{}
    {
      rpcMap, rpcQueue, timerVersion, timer, received, passedOn := [], [], 0, None, multiset{}, [];
    }

    method DrainQueue() returns (out: seq<Rpc>)
      modifies this`rpcQueue
      ensures out == old(rpcQueue) && rpcQueue == []
    {
      out := [];
      while rpcQueue != []
        invariant out + rpcQueue == old(rpcQueue)
        decreases |rpcQueue|
      {
        out := out + [rpcQueue[0]];
        rpcQueue := rpcQueue[1..];
      }
      assert out == out + [];
    }

    /** Hands everything on in order of arrival. */
    method Clear() returns (out: seq<Rpc>)
      requires Held(rpcMap, rpcQueue, received, passedOn)
      modifies this
      ensures Valid() && rpcMap == [] && out == old(rpcQueue) && received == old(received)
      ensures passedOn == old(passedOn) + out
    {
      HeldNone(rpcMap, rpcQueue, received, passedOn);
      hide Held;
      StopTimer();
      out := DrainQueue();
      rpcMap := [];
      passedOn := passedOn + out;
    }

    method StopTimer()
      modifies this`timer, this`timerVersion
      ensures timer == None
    {
      if timer.Some? {
        timerVersion := timerVersion + 1;
        timer := None;
      }
    }

    method StartTimer(granted: bool)
      requires rpcQueue != []
      modifies this`timer, this`timerVersion
      ensures timerVersion == old(timerVersion) + 1
      ensures timer == if granted then Some(Timer(timerVersion, rpcQueue[0].receivedAt)) else old(timer)
    {
      timerVersion := timerVersion + 1;
      if granted { timer := Some(Timer(timerVersion, rpcQueue[0].receivedAt)); }
    }

    method NeedClear(rpc: Rpc) returns (clash: bool)
      requires Ordered(rpcMap) && rpc.size > 0
      ensures clash <==> Clash(rpcMap, rpc)
    {
      NeighboursDecide(rpcMap, rpc);
      hide Clash;
      clash := false;
      var it := LowerBound(rpcMap, rpc.prev);
      if it > 0 && rpcMap[it - 1].End() > rpc.prev { clash := true; }
      if !clash && it < |rpcMap| && rpcMap[it].prev < rpc.End() { clash := true; }
    }

    /** Releases the requests with the highest indexes until the cache is small enough again. */
    method ReleaseLast() returns (out: seq<Rpc>)
      requires Held(rpcMap, rpcQueue, received, passedOn)
      modifies this`rpcMap, this`rpcQueue, this`passedOn
      ensures Held(rpcMap, rpcQueue, received, passedOn) && passedOn == old(passedOn) + out
      ensures |old(rpcMap)| <= MAX_CACHE_SIZE ==> rpcQueue == old(rpcQueue)
      ensures var n := Least(|old(rpcMap)|, MAX_CACHE_SIZE); rpcMap == old(rpcMap)[..n] && multiset(out) == multiset(old(rpcMap)[n..])
    {
      hide Held, Without, Leaving;
      out := [];
      ghost var m := rpcMap;
      NoneLeaves(m);
      while |rpcMap| > MAX_CACHE_SIZE
        invariant Least(|m|, MAX_CACHE_SIZE) <= |rpcMap| <= |m|
        invariant Leaving(m, rpcMap, out) && (|m| <= MAX_CACHE_SIZE ==> rpcQueue == old(rpcQueue))
        invariant Held(rpcMap, rpcQueue, received, passedOn) && passedOn == old(passedOn) + out
      {
        var last := rpcMap[|rpcMap| - 1];
        HeldLast(rpcMap, rpcQueue, received, passedOn);
        OneLeaves(m, rpcMap, out);
        rpcQueue := Without(rpcQueue, last);
        rpcMap := rpcMap[..|rpcMap| - 1];
        passedOn := passedOn + [last];
        out := out + [last];
      }
      AllLeft(m, rpcMap, out);
    }

    /** Holds `rpc`; a clash with anything held first lets all of that go. `granted`: the timer could be started. */
    method Store(rpc: Rpc, granted: bool) returns (cleared: seq<Rpc>, extra: seq<Rpc>)
      requires Valid() && rpc.size > 0
      modifies this
      ensures Valid() && received == old(received) + multiset{rpc}
      ensures passedOn == old(passedOn) + cleared + extra
      ensures var clash := Clash(old(rpcMap), rpc);
        var held := Inserted(if clash then [] else old(rpcMap), rpc);
        var n := if |held| == 1 && !granted then 0 else Least(|held|, MAX_CACHE_SIZE);
        && cleared == (if clash then old(rpcQueue) else [])
        && rpcMap == held[..n] && multiset(extra) == multiset(held[n..])
        && (n == |held| ==> rpcQueue == (if clash then [] else old(rpcQueue)) + [rpc])
        && (|held| == 1 && granted ==> timer == Some(Timer(timerVersion, rpc.receivedAt)))
        && (|held| > 1 ==> timer == old(timer))
    {
      hide Clash, Held, Inserted, Ordered;
      HeldSize(rpcMap, rpcQueue, received, passedOn);
      cleared, extra := [], [];
      var clash := NeedClear(rpc);
      if clash {
        cleared := Clear();
        EmptyNeverClashes(rpc);
      }
      Add(rpc);
      if |rpcMap| == 1 {
        HeldSize(rpcMap, rpcQueue, received, passedOn);
        StartTimer(granted);
        if !granted {
          ghost var q := rpcQueue;
          HeldSame(rpcMap, rpcQueue, received, passedOn);
          extra := Clear();
          return;
        }
      }
      extra := ReleaseLast();
    }

    method Add(rpc: Rpc)
      requires Held(rpcMap, rpcQueue, received, passedOn) && rpc.size > 0 && !Clash(rpcMap, rpc)
      modifies this`rpcMap, this`rpcQueue, this`received
      ensures Ordered(old(rpcMap)) && rpcMap == Inserted(old(rpcMap), rpc) && |rpcMap| == |old(rpcMap)| + 1
      ensures Held(rpcMap, rpcQueue, received, passedOn) && received == old(received) + multiset{rpc}
      ensures rpcQueue == old(rpcQueue) + [rpc]
    {
      HeldSize(rpcMap, rpcQueue, received, passedOn);
      HeldInsert(rpcMap, rpcQueue, received, passedOn, rpc);
      hide Held, Inserted, Clash;
      rpcQueue := rpcQueue + [rpc];
      rpcMap := Inserted(rpcMap, rpc);
      received := received + multiset{rpc};
    }

    /** Releases what can be handled now that the log reaches `localLast`. */
    method ProcessRunnableRpcs(localLast: nat) returns (out: seq<Rpc>)
      requires Valid() && rpcMap != []
      modifies this
      ensures Valid() && received == old(received) && passedOn == old(passedOn) + out
      ensures var n := Runnable(old(rpcMap), localLast); out == old(rpcMap)[..n] && rpcMap == old(rpcMap)[n..]
      ensures timer == if rpcMap == [] then None else old(timer)
    {
      hide Held, Releasing, Runnable, Without;
      out := [];
      var last := localLast;
      ghost var m := rpcMap;
      ReleaseStarts(m, localLast);
      while rpcMap != [] && rpcMap[0].prev <= last
        invariant |out| <= |m| && out == m[..|out|] && rpcMap == m[|out|..]
        invariant Releasing(m, localLast, |out|, last)
        invariant Held(rpcMap, rpcQueue, received, passedOn) && received == old(received)
        invariant passedOn == old(passedOn) + out && timer == old(timer) && timerVersion == old(timerVersion)
        decreases |rpcMap|
      {
        var rpc := rpcMap[0];
        ReleaseNext(m, localLast, |out|, last);
        HeldFirst(rpcMap, rpcQueue, received, passedOn);
        last := rpc.End();
        rpcMap := rpcMap[1..];
        rpcQueue := Without(rpcQueue, rpc);
        passedOn := passedOn + [rpc];
        out := out + [rpc];
      }
      ReleaseStops(m, localLast, |out|, last);
      if rpcMap == [] { StopTimer(); }
    }

    /**
     The timer has fired: if the request that waits longest was there when it was set, or it cannot be set again, everything goes;
     else it is set for the request that now waits longest.
     */
    method OnTimedOut(version: nat, start: nat, granted: bool) returns (out: seq<Rpc>)
      requires Valid() && (version == timerVersion ==> timer == Some(Timer(version, start)))
      modifies this
      ensures Valid() && received == old(received) && passedOn == old(passedOn) + out
      ensures version != old(timerVersion) ==> out == [] && rpcMap == old(rpcMap) && rpcQueue == old(rpcQueue) && timer == old(timer)
      ensures version == old(timerVersion) && (FirstArrival(old(rpcQueue)) <= start || !granted) ==> out == old(rpcQueue) && rpcMap == []
      ensures version == old(timerVersion) && FirstArrival(old(rpcQueue)) > start && granted ==>
        && out == [] && rpcMap == old(rpcMap) && rpcQueue == old(rpcQueue)
        && timer == Some(Timer(timerVersion, FirstArrival(rpcQueue)))
    {
      out := [];
      if version != timerVersion { return; }
      HeldSize(rpcMap, rpcQueue, received, passedOn);
      hide Held;
      if rpcQueue[0].receivedAt <= start {
        out := Clear();
        return;
      }
      StartTimer(granted);
      if !granted { out := Clear(); }
    }
  }
}
