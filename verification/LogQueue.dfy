/** What the pending tasks of the disk queue will make of the storage. */
module LogQueue {
  import opened Quorum
  import opened LogTypes
  import opened SegmentFormat
  import opened FlatLog

  datatype Task =
    | Write(first: nat, es: seq<Record>)
    | CutBefore(kept: nat)
    | CutAfter(kept: nat, term: nat)
    | Restart(next: nat)
    | AskLastId

  function IdOf(first: nat, es: seq<Record>, i: nat): LogId
    requires i < |es|
  {
    LogId(first + i, es[i].term)
  }

  predicate Fits(store: Flat, t: Task) {
    match t
    case Write(first, es) => es != [] && first == store.Last() + 1
    case CutBefore(kept) => kept >= store.first
    case CutAfter(kept, _) => store.first - 1 <= kept <= store.Last()
    case Restart(next) => next >= store.first
    case AskLastId => true
  }

  function Do(store: Flat, t: Task): Flat
    requires Fits(store, t)
  {
    match t
    case Write(first, es) => Appended(store, es)
    case CutBefore(kept) => PrefixCut(store, kept)
    case CutAfter(kept, _) => SuffixCut(store, kept)
    case Restart(next) => Restarted(next)
    case AskLastId => store
  }

  predicate Runs(store: Flat, q: seq<Task>)
    decreases |q|
  {
    q == [] || (Fits(store, q[0]) && Runs(Do(store, q[0]), q[1..]))
  }

  /** The storage once the whole queue has been worked off. */
  function Drained(store: Flat, q: seq<Task>): Flat
    requires Runs(store, q)
    decreases |q|
  {
    if q == [] then store else Drained(Do(store, q[0]), q[1..])
  }

  lemma {:induction false} RunsMore(store: Flat, q: seq<Task>, t: Task)
    requires Runs(store, q) && Fits(Drained(store, q), t)
    ensures Runs(store, q + [t]) && Drained(store, q + [t]) == Do(Drained(store, q), t)
    decreases |q|
  {
    if q == [] {
      assert q + [t] == [t] && [t][1..] == [];
    } else {
      assert (q + [t])[1..] == q[1..] + [t];
      RunsMore(Do(store, q[0]), q[1..], t);
    }
  }

  // ----- ids of entries that wait to be written

  /** Terms never decrease along a stretch of log, so ids rise with the indexes. */
  predicate Sorted(es: seq<Record>) { forall i, j :: 0 <= i < j < |es| ==> es[i].term <= es[j].term }

  /** A batch whose ids rise from above `low`. */
  predicate RisesFrom(first: nat, es: seq<Record>, low: LogId) {
    es != [] && IdLess(low, IdOf(first, es, 0)) && Sorted(es)
  }

  /** All waiting ids lie above `low`, and each above those before it. */
  predicate Ascend(q: seq<Task>, low: LogId)
    decreases |q|
  {
    q == [] ||
    match q[0]
    case Write(first, es) => RisesFrom(first, es, low) && Ascend(q[1..], IdOf(first, es, |es| - 1))
    case CutAfter(kept, term) => Ascend(q[1..], IdMax(low, LogId(kept, term)))
    case _ => Ascend(q[1..], low)
  }

  /** One task moves the id below which nothing may be written any more. */
  function Raise(t: Task, low: LogId): LogId {
    match t
    case Write(first, es) => if es == [] then low else IdOf(first, es, |es| - 1)
    case CutAfter(kept, term) => IdMax(low, LogId(kept, term))
    case _ => low
  }

  /** The highest id that working off the queue brings up, starting from `low`. */
  function Top(q: seq<Task>, low: LogId): LogId
    decreases |q|
  {
    if q == [] then low else Top(q[1..], Raise(q[0], low))
  }

  lemma IdLessTrans(a: LogId, b: LogId, c: LogId)
    requires IdAtMost(a, b) && IdAtMost(b, c)
    ensures IdAtMost(a, c) && (IdLess(a, b) || IdLess(b, c) ==> IdLess(a, c))
  {
  }

  /** Ids above `low` are above anything lower. */
  lemma {:induction false} AscendLower(q: seq<Task>, low: LogId, lower: LogId)
    requires Ascend(q, low) && IdAtMost(lower, low)
    ensures Ascend(q, lower)
    decreases |q|
  {
    if q != [] && !q[0].Write? { AscendLower(q[1..], Raise(q[0], low), Raise(q[0], lower)); }
  }

  /** Appending a task whose ids rise from above everything waiting. */
  lemma {:induction false} AscendMore(q: seq<Task>, low: LogId, t: Task)
    requires Ascend(q, low)
    requires t.Write? ==> RisesFrom(t.first, t.es, Top(q, low))
    ensures Ascend(q + [t], low) && Top(q + [t], low) == Raise(t, Top(q, low))
    decreases |q|
  {
    if q == [] {
      assert q + [t] == [t] && [t][1..] == [];
    } else {
      assert (q + [t])[1..] == q[1..] + [t];
      AscendMore(q[1..], Raise(q[0], low), t);
    }
  }

  /** What is left after the first task still ascends. */
  lemma AscendRest(q: seq<Task>, low: LogId)
    requires Ascend(q, low) && q != []
    ensures Ascend(q[1..], Raise(q[0], low))
  {
  }

  // ----- which indexes the queue still touches

  predicate Spares(t: Task, from: nat) {
    match t
    case Write(first, _) => first >= from
    case CutAfter(kept, _) => kept + 1 >= from
    case Restart(next) => next >= from
    case _ => true
  }

  /** Nothing below `from` is written or cut off any more, except by dropping the front of the log. */
  predicate Above(q: seq<Task>, from: nat) {
    forall t :: t in q ==> Spares(t, from)
  }

  /** What the queue does not touch is on the storage as it will be in the end. */
  lemma {:induction false} UntouchedStays(store: Flat, q: seq<Task>, from: nat, index: nat)
    requires Runs(store, q) && Above(q, from) && index < from
    requires Drained(store, q).first <= index
    ensures store.first <= index && Drained(store, q).At(index) == store.At(index)
    decreases |q|
  {
    if q != [] {
      assert q[0] in q;
      var s := Do(store, q[0]);
      assert forall t :: t in q[1..] ==> t in q;
      FirstOnlyRises(s, q[1..]);
      UntouchedStays(s, q[1..], from, index);
    }
  }

  /** The entry at `index` in the end comes from a waiting write, so its id is above `low`. */
  ghost predicate WaitingAt(store: Flat, q: seq<Task>, index: nat, low: LogId)
    requires Runs(store, q)
  {
    var f := Drained(store, q);
    f.first <= index <= f.Last() ==> IdLess(low, LogId(index, f.TermAt(index)))
  }

  /** If an index is missing from the storage now, what is there in the end was written by the queue. */
  lemma {:induction false} MissingIsWaiting(store: Flat, q: seq<Task>, index: nat, low: LogId)
    requires Runs(store, q) && Ascend(q, low) && index > store.Last()
    ensures WaitingAt(store, q, index, low)
    decreases |q|
  {
    if q != [] {
      var s := Do(store, q[0]);
      match q[0]
      case Write(first, es) =>
        var top := IdOf(first, es, |es| - 1);
        if index > s.Last() {
          AscendTop(first, es, low, |es| - 1);
          MissingIsWaiting(s, q[1..], index, top);
          WaitingLower(s, q[1..], index, top, low);
        } else {
          AscendTop(first, es, low, index - first);
          WrittenStays(s, q[1..], index, LogId(index, es[index - first].term), low, top);
        }
      case CutAfter(kept, term) =>
        MissingIsWaiting(s, q[1..], index, Raise(q[0], low));
        WaitingLower(s, q[1..], index, Raise(q[0], low), low);
      case AskLastId => MissingIsWaiting(s, q[1..], index, low);
      case _ =>
        if index > s.Last() { MissingIsWaiting(s, q[1..], index, low); } else { FirstOnlyRises(s, q[1..]); }
    }
  }

  lemma AscendTop(first: nat, es: seq<Record>, low: LogId, i: nat)
    requires i < |es| && RisesFrom(first, es, low)
    ensures IdLess(low, IdOf(first, es, i)) && IdAtMost(IdOf(first, es, i), IdOf(first, es, |es| - 1))
  {
    assert i > 0 ==> es[0].term <= es[i].term;
    assert i < |es| - 1 ==> es[i].term <= es[|es| - 1].term;
  }

  lemma WaitingLower(store: Flat, q: seq<Task>, index: nat, low: LogId, lower: LogId)
    requires Runs(store, q) && WaitingAt(store, q, index, low) && IdAtMost(lower, low)
    ensures WaitingAt(store, q, index, lower)
  {
  }

  /** An entry on the storage with an id above `low` either stays or is replaced by a waiting one. */
  lemma {:induction false} WrittenStays(store: Flat, q: seq<Task>, index: nat, id: LogId, low: LogId, top: LogId)
    requires Runs(store, q) && Ascend(q, top) && IdAtMost(low, top) && IdLess(low, id)
    requires store.first <= index <= store.Last() && id == LogId(index, store.TermAt(index))
    ensures WaitingAt(store, q, index, low)
    decreases |q|
  {
    if q != [] {
      var s := Do(store, q[0]);
      var next := Raise(q[0], top);
      if q[0].Write? { AscendTop(q[0].first, q[0].es, top, |q[0].es| - 1); }
      if index > s.Last() {
        MissingIsWaiting(s, q[1..], index, next);
        WaitingLower(s, q[1..], index, next, low);
      } else if index >= s.first {
        WrittenStays(s, q[1..], index, id, low, next);
      } else {
        FirstOnlyRises(s, q[1..]);
      }
    }
  }

  lemma {:induction false} FirstOnlyRises(store: Flat, q: seq<Task>)
    requires Runs(store, q)
    ensures Drained(store, q).first >= store.first
    decreases |q|
  {
    if q != [] { FirstOnlyRises(Do(store, q[0]), q[1..]); }
  }

  /** If the queue still touches an index or one below it, the entry that ends up there has an id above `low`. */
  lemma {:induction false} TouchedIsWaiting(store: Flat, q: seq<Task>, k: nat, index: nat, low: LogId)
    requires Runs(store, q) && Ascend(q, low) && k < |q| && !Spares(q[k], index + 1)
    ensures WaitingAt(store, q, index, low)
    decreases |q|
  {
    var s := Do(store, q[0]);
    var next := Raise(q[0], low);
    if k == 0 {
      if q[0].Write? {
        MissingIsWaiting(store, q, index, low);
      } else {
        MissingIsWaiting(s, q[1..], index, next);
        WaitingLower(s, q[1..], index, next, low);
      }
    } else {
      if q[0].Write? { AscendTop(q[0].first, q[0].es, low, |q[0].es| - 1); }
      TouchedIsWaiting(s, q[1..], k - 1, index, next);
      WaitingLower(s, q[1..], index, next, low);
    }
  }

  /** What has an id at or below `low` in the end is not touched any more: it is safe to forget it in memory. */
  lemma SafeToForget(store: Flat, q: seq<Task>, upTo: nat, low: LogId)
    requires Runs(store, q) && Ascend(q, low)
    requires var f := Drained(store, q);
      f.first <= upTo <= f.Last() && IdAtMost(LogId(upTo, f.TermAt(upTo)), low)
    ensures Above(q, upTo + 1)
  {
    forall t | t in q ensures Spares(t, upTo + 1) {
      var k :| 0 <= k < |q| && q[k] == t;
      if !Spares(t, upTo + 1) { TouchedIsWaiting(store, q, k, upTo, low); }
    }
  }
}
