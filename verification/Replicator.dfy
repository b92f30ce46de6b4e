/** The window of requests a replicator keeps in flight (replicator.cpp), as functions of its state. */
module Windows {
  import opened Quorum
  import opened LogTypes

  const MAX_ENTRIES_SIZE: nat := 1024
  const MAX_BODY_SIZE: nat := 524288

  datatype Flying = Flying(logIndex: nat, size: nat, callId: nat)

  datatype Stage = Idle | Blocking | Appending

  /** `registered`: some waiter has been registered, so that a wake-up may still be on its way. */
  datatype Rep = Rep(
    next: nat, flying: int, inFly: seq<Flying>, st: Stage,
    waiting: bool, canceled: bool, registered: bool, calls: nat, succeeded: bool)

  function MinFlying(r: Rep): int { r.next - r.flying }

  function Started(last: nat): Rep { Rep(last + 1, 0, [], Idle, false, false, false, 0, false) }

  function ResetNextIndex(r: Rep): Rep
    requires r.flying <= r.next
  {
    r.(next := r.next - r.flying, flying := 0, inFly := [], canceled := true, waiting := false)
  }

  /** A probe: a request without entries, at the next index. */
  function SendEmpty(r: Rep): Rep {
    r.(st := Appending, inFly := r.inFly + [Flying(r.next, 0, r.calls)], calls := r.calls + 1)
  }

  function WaitMore(r: Rep, parallel: nat): Rep {
    var r1 := if !r.waiting && MAX_ENTRIES_SIZE > r.flying && parallel > |r.inFly|
      then r.(waiting := true, canceled := false, registered := true) else r;
    if r1.flying == 0 then r1.(st := Idle) else r1
  }

  predicate MaySend(r: Rep, parallel: nat) {
    r.flying < MAX_ENTRIES_SIZE && |r.inFly| < parallel && r.st != Blocking
  }

  function Sent(r: Rep, n: nat): Rep {
    if n == 0 then r
    else r.(inFly := r.inFly + [Flying(r.next, n, r.calls)], calls := r.calls + 1,
            next := r.next + n, flying := r.flying + n, st := Appending)
  }

  /** Sends the `n` entries it could prepare. */
  function SendEntries(r: Rep, n: nat, parallel: nat): Rep {
    if MaySend(r, parallel) then WaitMore(Sent(r, n), parallel) else r
  }

  function Size(e: Entry): nat {
    match e.payload
    case Data(bytes) => |bytes|
    case _ => 0
  }

  /** How many entries from `next` on go into one request. */
  function Prepared(log: Log, next: nat, limit: nat, body: nat): (n: nat)
    requires next >= 1
    ensures n <= limit && (next - 1 + n <= |log| || n == 0)
    decreases limit
  {
    if limit == 0 || body >= MAX_BODY_SIZE || next > |log| then 0
    else 1 + Prepared(log, next + 1, limit - 1, body + Size(log[next - 1]))
  }

  /** How many entries fit into the request that may be sent now. */
  function Count(r: Rep, log: Log): nat
    requires r.next >= 1
  {
    Prepared(log, r.next, if 0 <= r.flying < MAX_ENTRIES_SIZE then MAX_ENTRIES_SIZE - r.flying else 0, 0)
  }

  /** The scan for the call id of a reply; it stops at requests that start after the replied one. */
  predicate ValidRpc(inFly: seq<Flying>, first: nat, callId: nat) {
    inFly != [] && inFly[0].logIndex <= first && (inFly[0].callId == callId || ValidRpc(inFly[1..], first, callId))
  }

  function Popped(r: Rep, first: nat): Rep
    decreases |r.inFly|
  {
    if r.inFly == [] || r.inFly[0].logIndex > first then r
    else Popped(r.(flying := r.flying - r.inFly[0].size, inFly := r.inFly[1..]), first)
  }

  /** As far as the replicator knows, the peer lacks no more than `margin` entries up to `last`. */
  predicate CaughtUp(r: Rep, margin: nat, last: nat) { MinFlying(r) - 1 + margin >= last }

  /** How many entries are sent after a success for the request that started at `first`. */
  function CountAfter(r: Rep, first: nat, log: Log): nat {
    var p := Popped(r, first);
    if p.next >= 1 then Count(p, log) else 0
  }

  /** The peer does not hold the entry before the probed index. */
  function Lowered(r: Rep, last: nat): Rep {
    if last + 1 < r.next then r.(next := last + 1)
    else if r.next > 1 then r.(next := r.next - 1)
    else r
  }

  /** The bytes of the `n` entries from index `next` on. */
  function Bytes(log: Log, next: nat, n: nat): nat
    requires 1 <= next && next - 1 + n <= |log|
    decreases n
  {
    if n == 0 then 0 else Size(log[next - 1]) + Bytes(log, next + 1, n - 1)
  }

  /** A batch ends only at the limit, at the end of the log, or where its bytes fill a body; and no entry earlier. */
  lemma {:induction false} PreparedIsMost(log: Log, next: nat, limit: nat, body: nat)
    requires next >= 1
    ensures var n := Prepared(log, next, limit, body);
      && (n > 0 ==> next - 1 + n <= |log|)
      && (n == limit || next - 1 + n >= |log| || body + Bytes(log, next, n) >= MAX_BODY_SIZE)
      && (forall k :: 0 <= k < n ==> next - 1 + k <= |log| && body + Bytes(log, next, k) < MAX_BODY_SIZE)
    decreases limit
  {
    if limit > 0 && body < MAX_BODY_SIZE && next <= |log| {
      var n := Prepared(log, next, limit, body);
      var b := body + Size(log[next - 1]);
      PreparedIsMost(log, next + 1, limit - 1, b);
      assert Bytes(log, next, n) == Size(log[next - 1]) + Bytes(log, next + 1, n - 1);
      forall k | 0 <= k < n ensures next - 1 + k <= |log| && body + Bytes(log, next, k) < MAX_BODY_SIZE {
        if k > 0 { assert Bytes(log, next, k) == Size(log[next - 1]) + Bytes(log, next + 1, k - 1); }
      }
    }
  }

  // ----- the invariant of the window

  /** Requests with entries follow each other without gap or overlap. */
  predicate Tiled(inFly: seq<Flying>, from: int, upTo: int) {
    if inFly == [] then from == upTo
    else inFly[0].logIndex == from && inFly[0].size > 0 && Tiled(inFly[1..], from + inFly[0].size, upTo)
  }

  predicate Probing(r: Rep) { |r.inFly| == 1 && r.inFly[0].logIndex == r.next && r.inFly[0].size == 0 }

  predicate Window(r: Rep) {
    && 1 <= MinFlying(r) && 0 <= r.flying
    && (if Probing(r) then r.flying == 0 && (r.canceled || !r.registered) else Tiled(r.inFly, MinFlying(r), r.next))
    && (r.st == Blocking ==> r.inFly == [])
    && (forall f :: f in r.inFly ==> f.callId < r.calls)
  }

  function Total(inFly: seq<Flying>): nat { if inFly == [] then 0 else inFly[0].size + Total(inFly[1..]) }

  /** The sizes in flight add up to the flying size. */
  lemma {:induction false} TiledTotal(inFly: seq<Flying>, from: int, upTo: int)
    requires Tiled(inFly, from, upTo)
    ensures Total(inFly) == upTo - from
  {
    if inFly != [] { TiledTotal(inFly[1..], from + inFly[0].size, upTo); }
  }

  lemma SizesSumUp(r: Rep)
    requires Window(r)
    ensures Total(r.inFly) == r.flying
  {
    if Probing(r) { assert r.inFly[1..] == []; } else { TiledTotal(r.inFly, MinFlying(r), r.next); }
  }

  lemma WindowFlying(r: Rep)
    requires Window(r)
    ensures 0 <= r.flying < r.next && 1 <= MinFlying(r) == r.next - r.flying
  {
    SizesSumUp(r);
  }

  lemma SucceededKeeps(r: Rep)
    requires Window(r)
    ensures Window(r.(succeeded := true)) && Probing(r.(succeeded := true)) == Probing(r)
  {
  }

  lemma {:induction false} TiledMore(inFly: seq<Flying>, from: int, upTo: nat, n: nat, callId: nat)
    requires Tiled(inFly, from, upTo) && n > 0
    ensures Tiled(inFly + [Flying(upTo, n, callId)], from, upTo + n)
  {
    if inFly == [] {
      assert ([Flying(upTo, n, callId)])[1..] == [];
    } else {
      assert (inFly + [Flying(upTo, n, callId)])[1..] == inFly[1..] + [Flying(upTo, n, callId)];
      TiledMore(inFly[1..], from + inFly[0].size, upTo, n, callId);
    }
  }

  /** Indexes in flight rise, so only a request of entries that starts at `first` itself can be the last one popped. */
  lemma {:induction false} TiledPop(r: Rep, from: int, first: nat, f: Flying)
    requires Tiled(r.inFly, from, r.next) && from == MinFlying(r) && f in r.inFly && f.logIndex == first
    ensures var p := Popped(r, first);
      && MinFlying(p) == first + f.size && Tiled(p.inFly, first + f.size, r.next) && p.next == r.next
      && p == r.(flying := p.flying, inFly := p.inFly)
      && (forall g :: g in p.inFly ==> g in r.inFly)
    ensures from <= first
    decreases |r.inFly|
  {
    TiledTotal(r.inFly, from, r.next);
    var rest := r.(flying := r.flying - r.inFly[0].size, inFly := r.inFly[1..]);
    if f == r.inFly[0] {
      if r.inFly[1..] != [] { assert r.inFly[1..][0].logIndex > first; }
      assert Popped(rest, first) == rest;
    } else {
      TiledPop(rest, from + r.inFly[0].size, first, f);
    }
  }

  lemma {:induction false} ValidInFly(inFly: seq<Flying>, first: nat, callId: nat)
    requires ValidRpc(inFly, first, callId)
    ensures exists f :: f in inFly && f.callId == callId && f.logIndex <= first
  {
    if inFly[0].callId == callId { assert inFly[0] in inFly; } else { ValidInFly(inFly[1..], first, callId); }
  }

  /** Nothing more may be sent now: the window is full, or the replicator waits out an error. */
  predicate Full(r: Rep, parallel: nat) { r.flying >= MAX_ENTRIES_SIZE || |r.inFly| >= parallel || r.st == Blocking }

  /**
   What sending does: nothing if the window is full; else the `n` entries go out as one request under the next call id, and
   unless the window is full now a waiter is registered for more. With nothing in flight the replicator is idle.
   */
  lemma SendIs(r: Rep, n: nat, parallel: nat)
    requires Window(r) && n <= MAX_ENTRIES_SIZE
    ensures var q := SendEntries(r, n, parallel);
      if Full(r, parallel) then q == r
      else
        && q.inFly == r.inFly + (if n > 0 then [Flying(r.next, n, r.calls)] else []) && q.succeeded == r.succeeded
        && q.next == r.next + n && q.flying == r.flying + n && q.calls == r.calls + (if n > 0 then 1 else 0)
        && (q.waiting <==> r.waiting || (q.flying < MAX_ENTRIES_SIZE && |q.inFly| < parallel))
        && (q.waiting && !r.waiting ==> q.registered && !q.canceled)
        && (q.waiting == r.waiting ==> q.registered == r.registered && q.canceled == r.canceled)
        && (q.flying == 0 ==> q.st == Idle) && (n > 0 ==> q.st == Appending)
  {
  }

  /** A reply counts exactly if the call it answers is still in flight. */
  lemma ValidIff(r: Rep, first: nat, callId: nat)
    requires Window(r) && forall f :: f in r.inFly && f.callId == callId ==> f.logIndex == first
    ensures ValidRpc(r.inFly, first, callId) <==> exists f :: f in r.inFly && f.callId == callId
  {
    if ValidRpc(r.inFly, first, callId) { ValidInFly(r.inFly, first, callId); }
    if f :| f in r.inFly && f.callId == callId {
      if !Probing(r) { InFlyValid(r.inFly, MinFlying(r), r.next, f); }
    }
  }

  lemma {:induction false} InFlyValid(inFly: seq<Flying>, from: int, upTo: int, f: Flying)
    requires Tiled(inFly, from, upTo) && f in inFly
    ensures from <= f.logIndex && ValidRpc(inFly, f.logIndex, f.callId)
  {
    if f != inFly[0] { InFlyValid(inFly[1..], from + inFly[0].size, upTo, f); }
  }

  // ----- each operation keeps the window

  lemma ResetKeeps(r: Rep)
    requires Window(r)
    ensures var q := ResetNextIndex(r); Window(q) && q.inFly == [] && q.next == MinFlying(r) && MinFlying(q) == q.next
  {
  }

  lemma EmptyKeeps(r: Rep)
    requires Window(r) && r.inFly == [] && r.canceled
    ensures Window(SendEmpty(r)) && MinFlying(SendEmpty(r)) == r.next
  {
  }

  lemma SendKeeps(r: Rep, n: nat, parallel: nat)
    requires Window(r) && (Probing(r) ==> !MaySend(r, parallel))
    ensures Window(SendEntries(r, n, parallel)) && MinFlying(SendEntries(r, n, parallel)) == MinFlying(r)
  {
    if MaySend(r, parallel) && n > 0 { TiledMore(r.inFly, MinFlying(r), r.next, n, r.calls); }
  }

  /** A success removes the replied request and all before it, and nothing else. */
  lemma PopKeeps(r: Rep, first: nat, f: Flying)
    requires Window(r) && f in r.inFly && f.logIndex == first
    ensures var p := Popped(r, first);
      && Window(p) && MinFlying(p) == first + f.size && p.next == r.next && MinFlying(r) <= first
      && p == r.(flying := p.flying, inFly := p.inFly) && !Probing(p)
      && (forall g :: g in p.inFly ==> g in r.inFly)
  {
    if Probing(r) {
      var rest := r.(inFly := r.inFly[1..]);
      assert rest.inFly == [] && r.(flying := r.flying - 0) == r;
      assert Popped(r, first) == Popped(rest, first) == rest;
    } else {
      TiledPop(r, MinFlying(r), first, f);
      var p := Popped(r, first);
      TiledTotal(p.inFly, first + f.size, r.next);
      if p.inFly != [] { assert p.inFly[0].size > 0; }
    }
  }

  /**
   After a mismatch the one request in flight is a probe: right behind the peer's log if that is shorter than all that is in flight,
   else one index lower. So every mismatch strictly lowers the next index until it is 1.
   */
  lemma MismatchLowers(r: Rep, last: nat)
    requires Window(r)
    ensures var q := SendEmpty(Lowered(ResetNextIndex(r), last));
      && Window(q) && Probing(q) && q.inFly == [Flying(q.next, 0, r.calls)] && !q.waiting && q.canceled
      && q.next == (if last + 1 < MinFlying(r) then last + 1 else if MinFlying(r) > 1 then MinFlying(r) - 1 else 1)
      && (q.next < r.next || (r.next == 1 && q.next == 1))
      && (MinFlying(r) > 1 ==> q.next < MinFlying(r))
      && (q.next <= last + 1 || q.next == 1 || q.next == MinFlying(r) - 1)
  {
  }
}

/** The replicator object itself. */
module Replicators {
  import opened Quorum
  import opened LogTypes
  import opened Windows

  datatype Response = Failed | Mismatch(term: nat, last: nat) | Success(term: nat)

  /** What a reply makes the replicator do besides sending: a range for commit_at, or the news of a higher term. */
  datatype Outcome = Ignored | Waits | Committed(first: nat, last: nat) | Matched | HigherTerm(term: nat)

  /** The reply to the request that starts at `first` with `size` entries. */
  function Returned(r: Rep, term: nat, first: nat, size: nat, callId: nat, resp: Response, n: nat, parallel: nat): (Rep, Outcome)
    requires Window(r)
  {
    if !ValidRpc(r.inFly, first, callId) then (r, Ignored)
    else
      match resp
      case Failed => (ResetNextIndex(r).(st := Blocking), Waits)
      case Mismatch(t, last) =>
        if t > term then (ResetNextIndex(r), HigherTerm(t))
        else (SendEmpty(Lowered(ResetNextIndex(r), last)), Waits)
      case Success(t) =>
        if t != term then (ResetNextIndex(r), Waits)
        else (SendEntries(Popped(r, first).(succeeded := true), n, parallel),
              if size > 0 then Committed(MinFlying(r), first + size - 1) else Matched)
  }

  /** All that was in flight is given up; the next index is the lowest that was. */
  predicate GaveUp(r: Rep, q: Rep) {
    q.next == MinFlying(r) && q.flying == 0 && q.inFly == [] && !q.waiting && q.canceled && q.succeeded == r.succeeded && q.calls == r.calls
  }

  /** One probe is in flight, at `next`. */
  predicate Probes(r: Rep, q: Rep, next: nat) {
    q.next == next && q.flying == 0 && q.inFly == [Flying(next, 0, r.calls)] && !q.waiting && q.succeeded == r.succeeded && q.st == Appending
  }

  /** The request that starts at `first`, and all before it, have been stored; later ones are still in flight, ahead of what was sent now. */
  predicate Stored(r: Rep, q: Rep, first: nat, size: nat) {
    && q.succeeded && MinFlying(q) == first + size
    && (forall f :: f in r.inFly && f.logIndex > first ==> f in q.inFly)
    && (forall f :: f in q.inFly ==> f.logIndex >= first + size && (f in r.inFly || f.callId >= r.calls))
  }

  /** What an answer to a call in flight makes of the replicator, case by case. */
  predicate Answers(r: Rep, q: Rep, term: nat, first: nat, size: nat, resp: Response, o: Outcome)
    requires Window(r)
  {
    match resp
    case Failed => o == Waits && GaveUp(r, q) && q.st == Blocking
    case Mismatch(t, last) =>
      if t > term then o == HigherTerm(t) && GaveUp(r, q)
      else o == Waits && Probes(r, q, if last + 1 < MinFlying(r) then last + 1 else if MinFlying(r) > 1 then MinFlying(r) - 1 else 1)
    case Success(t) =>
      if t != term then o == Waits && GaveUp(r, q)
      else Stored(r, q, first, size) && o == if size > 0 then Committed(MinFlying(r), first + size - 1) else Matched
  }

  lemma ReturnedAnswers(r: Rep, term: nat, first: nat, size: nat, callId: nat, resp: Response, n: nat, parallel: nat)
    requires Window(r) && forall f :: f in r.inFly && f.callId == callId ==> f.logIndex == first && f.size == size
    ensures var (q, o) := Returned(r, term, first, size, callId, resp, n, parallel);
      && (o == Ignored <==> forall f :: f in r.inFly ==> f.callId != callId)
      && (if o == Ignored then q == r else Answers(r, q, term, first, size, resp, o))
  {
    ValidIff(r, first, callId);
    if f :| f in r.inFly && f.callId == callId {
      WindowFlying(r);
      match resp
      case Failed =>
      case Mismatch(t, last) => MismatchLowers(r, last);
      case Success(t) => if t == term { StoredBy(r, first, f, n, parallel); }
    }
  }

  lemma StoredBy(r: Rep, first: nat, f: Flying, n: nat, parallel: nat)
    requires Window(r) && f in r.inFly && f.logIndex == first
    ensures Stored(r, SendEntries(Popped(r, first).(succeeded := true), n, parallel), first, f.size)
  {
    PopKeeps(r, first, f);
    PoppedLater(r, first);
    var p := Popped(r, first);
    SendAdds(p.(succeeded := true), n, parallel);
    AllBehind(p, first + f.size);
    hide Popped, SendEntries, Window;
  }

  lemma SendAdds(p: Rep, n: nat, parallel: nat)
    ensures var q := SendEntries(p, n, parallel);
      && q.succeeded == p.succeeded && MinFlying(q) == MinFlying(p) && (forall f :: f in p.inFly ==> f in q.inFly)
      && forall f :: f in q.inFly ==> f in p.inFly || f == Flying(p.next, n, p.calls)
  {
  }

  lemma AllBehind(p: Rep, from: int)
    requires Window(p) && !Probing(p) && MinFlying(p) == from
    ensures from <= p.next && forall f :: f in p.inFly ==> f.logIndex >= from
  {
    forall f | f in p.inFly ensures f.logIndex >= from { TiledStarts(p.inFly, from, p.next, f); }
    TiledStartsAtMost(p.inFly, from, p.next);
  }

  lemma {:induction false} TiledStarts(inFly: seq<Flying>, from: int, upTo: int, f: Flying)
    requires Tiled(inFly, from, upTo) && f in inFly
    ensures f.logIndex >= from
  {
    if f != inFly[0] { TiledStarts(inFly[1..], from + inFly[0].size, upTo, f); }
  }

  lemma {:induction false} TiledStartsAtMost(inFly: seq<Flying>, from: int, upTo: int)
    requires Tiled(inFly, from, upTo)
    ensures from <= upTo
  {
    if inFly != [] { TiledStartsAtMost(inFly[1..], from + inFly[0].size, upTo); }
  }

  /** Requests that start later stay. */
  lemma {:induction false} PoppedLater(r: Rep, first: nat)
    ensures forall f :: f in r.inFly && f.logIndex > first ==> f in Popped(r, first).inFly
    decreases |r.inFly|
  {
    if r.inFly != [] && r.inFly[0].logIndex <= first {
      PoppedLater(r.(flying := r.flying - r.inFly[0].size, inFly := r.inFly[1..]), first);
    }
  }

  class Replicator {
    const term: nat
    const parallel: nat
    var nextIndex: nat
    var flyingSize: int
    var inFly: seq<Flying>
    var st: Stage
    var waiting: bool
    var canceled: bool
    var registered: bool
    var calls: nat
    var succeeded: bool

    function View(): Rep reads this {
      Rep(nextIndex, flyingSize, inFly, st, waiting, canceled, registered, calls, succeeded)
    }

    constructor (term: nat, parallel: nat, last: nat)
      ensures View() == SendEmpty(Started(last)) && this.term == term && this.parallel == parallel
      ensures Window(View())
    {
      this.term, this.parallel := term, parallel;
      nextIndex, flyingSize, inFly, st := last + 1, 0, [Flying(last + 1, 0, 0)], Appending;
      waiting, canceled, registered, calls, succeeded := false, false, false, 1, false;
      new;
      assert SendEmpty(Started(last)).inFly == [Flying(last + 1, 0, 0)];
    }

    method ResetNext()
      requires Window(View())
      modifies this
      ensures View() == ResetNextIndex(old(View()))
    {
      nextIndex := nextIndex - flyingSize;
      flyingSize, inFly, canceled, waiting := 0, [], true, false;
    }

    method SendEmptyEntries()
      requires Window(View()) && inFly == [] && canceled
      modifies this
      ensures View() == SendEmpty(old(View())) && Window(View())
    {
      EmptyKeeps(View());
      st, inFly, calls := Appending, inFly + [Flying(nextIndex, 0, calls)], calls + 1;
    }

    method WaitMoreEntries()
      modifies this
      ensures View() == WaitMore(old(View()), parallel)
    {
      if !waiting && MAX_ENTRIES_SIZE > flyingSize && parallel > |inFly| {
        waiting, canceled, registered := true, false, true;
      }
      if flyingSize == 0 { st := Idle; }
    }

    method PrepareEntries(log: Log, limit: nat) returns (n: nat)
      requires nextIndex >= 1
      ensures n == Prepared(log, nextIndex, limit, 0) && n <= limit && (n > 0 ==> nextIndex - 1 + n <= |log|)
      ensures n == limit || nextIndex - 1 + n >= |log| || Bytes(log, nextIndex, n) >= MAX_BODY_SIZE
      ensures forall k :: 0 <= k < n ==> nextIndex - 1 + k <= |log| && Bytes(log, nextIndex, k) < MAX_BODY_SIZE
    {
      PreparedIsMost(log, nextIndex, limit, 0);
      n := 0;
      var body: nat := 0;
      while n < limit
        invariant n <= limit && body >= 0
        invariant Prepared(log, nextIndex, limit, 0) == n + Prepared(log, nextIndex + n, limit - n, body)
      {
        if body >= MAX_BODY_SIZE { break; }
        if nextIndex + n > |log| { break; }
        body := body + Size(log[nextIndex + n - 1]);
        n := n + 1;
      }
    }

    method Record(n: nat)
      modifies this
      ensures View() == Sent(old(View()), n)
    {
      if n > 0 {
        inFly, calls := inFly + [Flying(nextIndex, n, calls)], calls + 1;
        nextIndex, flyingSize, st := nextIndex + n, flyingSize + n, Appending;
      }
    }

    method Send(log: Log)
      requires Window(View()) && (Probing(View()) ==> !MaySend(View(), parallel))
      modifies this
      ensures var was := old(View());
        View() == SendEntries(was, Count(was, log), parallel)
      ensures Window(View())
    {
      ghost var was := View();
      SendKeeps(was, Count(was, log), parallel);
      WindowFlying(was);
      hide Window, Probing, Prepared, WaitMore, Sent;
      if flyingSize >= MAX_ENTRIES_SIZE || |inFly| >= parallel || st == Blocking { return; }
      var n := PrepareEntries(log, MAX_ENTRIES_SIZE - flyingSize);
      Record(n);
      WaitMoreEntries();
    }

    method IsValidRpc(first: nat, callId: nat) returns (valid: bool)
      ensures valid == ValidRpc(inFly, first, callId)
    {
      valid := false;
      var i := 0;
      while i < |inFly| && inFly[i].logIndex <= first
        invariant i <= |inFly|
        invariant ValidRpc(inFly, first, callId) == (valid || ValidRpc(inFly[i..], first, callId))
      {
        assert inFly[i..][1..] == inFly[i + 1..];
        if inFly[i].callId == callId { valid := true; }
        i := i + 1;
      }
    }

    method PopFront(first: nat)
      requires Window(View())
      modifies this
      ensures View() == Popped(old(View()), first)
    {
      while inFly != [] && inFly[0].logIndex <= first
        invariant Popped(View(), first) == Popped(old(View()), first)
        decreases |inFly|
      {
        flyingSize := flyingSize - inFly[0].size;
        inFly := inFly[1..];
      }
    }

    method Lower(last: nat)
      modifies this`nextIndex
      ensures View() == Lowered(old(View()), last)
    {
      if last + 1 < nextIndex { nextIndex := last + 1; } else if nextIndex > 1 { nextIndex := nextIndex - 1; }
    }

    /** The reply to the request of `callId`, which started at `first` with `size` entries. */
    method OnRpcReturned(first: nat, size: nat, callId: nat, resp: Response, log: Log) returns (o: Outcome)
      requires Window(View())
      requires forall f :: f in inFly && f.callId == callId ==> f.logIndex == first && f.size == size
      modifies this
      ensures Window(View())
      ensures (View(), o) == Returned(old(View()), term, first, size, callId, resp, CountAfter(old(View()), first, log), parallel)
      ensures o == Ignored <==> forall f :: f in old(inFly) ==> f.callId != callId
      ensures o == Ignored ==> View() == old(View())
      ensures o != Ignored ==> Answers(old(View()), View(), term, first, size, resp, o)
    {
      ReturnedAnswers(View(), term, first, size, callId, resp, CountAfter(View(), first, log), parallel);
      hide Answers;
      ghost var was := View();
      var min := nextIndex - flyingSize;
      var valid := IsValidRpc(first, callId);
      if !valid {
        return Ignored;
      }
      ValidInFly(inFly, first, callId);
      ResetKeeps(was);
      WindowFlying(was);
      hide Window, SendEntries, Popped, ValidRpc, Probing;
      match resp
      case Failed =>
        ResetNext();
        st := Blocking;
        o := Waits;
      case Mismatch(t, last) =>
        ResetNext();
        if t > term {
          o := HigherTerm(t);
        } else {
          MismatchLowers(was, last);
          Lower(last);
          SendEmptyEntries();
          o := Waits;
        }
      case Success(t) =>
        if t != term {
          ResetNext();
          o := Waits;
        } else {
          o := if size > 0 then Committed(min, first + size - 1) else Matched;
          ghost var f :| f in was.inFly && f.callId == callId && f.logIndex <= first;
          OnSuccess(first, f, log);
        }
    }

    method OnSuccess(first: nat, ghost f: Flying, log: Log)
      requires Window(View()) && f in inFly && f.logIndex == first
      modifies this
      ensures Window(View())
      ensures View() == SendEntries(Popped(old(View()), first).(succeeded := true), CountAfter(old(View()), first, log), parallel)
    {
      ghost var was := View();
      PopKeeps(was, first, f);
      PopFront(first);
      succeeded := true;
      ghost var popped := View();
      WindowFlying(Popped(was, first));
      assert popped == Popped(was, first).(succeeded := true);
      SucceededKeeps(Popped(was, first));
      hide Window, Popped, SendEntries;
      Send(log);
    }

    method OnBlockTimedout()
      requires Window(View()) && st == Blocking && canceled
      modifies this
      ensures Window(View())
      ensures View() == if old(waiting) then old(View()).(st := Idle) else SendEmpty(old(View()).(st := Idle))
    {
      st := Idle;
      if waiting { return; }
      SendEmptyEntries();
    }

    /** A waiter has been woken because the log has grown. */
    method ContinueSending(log: Log)
      requires Window(View()) && registered
      modifies this
      ensures Window(View())
      ensures old(canceled) ==> View() == old(View())
      ensures nextIndex >= 1 && old(nextIndex) >= 1
      ensures !old(canceled) ==> View() == SendEntries(old(View()).(waiting := false), Count(old(View()), log), parallel)
    {
      if !canceled {
        waiting := false;
        ghost var was := View();
        Send(log);
      }
    }

    method IsCatchup(margin: nat, first: nat, last: nat) returns (caught: bool)
      ensures caught == (nextIndex >= first && CaughtUp(View(), margin, last))
    {
      if nextIndex < first { return false; }
      if nextIndex - flyingSize - 1 + margin < last { return false; }
      caught := true;
    }
  }
}
