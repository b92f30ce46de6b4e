/** Handing committed entries to the state machine: the batched loop of fsm_caller.cpp. */
module Applier {
  import opened Quorum
  import opened LogTypes
  import opened Closures

  /** What the state machine sees. `closure` is the one given out with the entry. */
  datatype Event =
    | Applied(index: nat, entry: Entry, closure: Option<ClosureId>)
    | Notified(task: nat)

  /** Other tasks (snapshots, leadership changes) only matter here for their place in the order. */
  datatype Task = Committed(index: nat) | Other(id: nat)

  /** The applier's part of a node: last applied index, waiting closures, everything delivered so far. */
  datatype Fsm = Fsm(applied: nat, waiting: Waiting, events: seq<Event>)

  /** One event for each index in (from, to], with the closure that waits for it. */
  function Deliveries(log: Log, waiting: Waiting, from: nat, upTo: nat): (r: seq<Event>)
    requires upTo <= |log|
    ensures from <= upTo ==> |r| == upTo - from
    decreases upTo
  {
    if upTo <= from then []
    else Deliveries(log, waiting, from, upTo - 1) + [Applied(upTo, log[upTo - 1], waiting.At(upTo))]
  }

  /** A commit notice at or below the applied index is a late or repeated one. */
  function Commit(f: Fsm, log: Log, index: nat): Fsm
    requires Ready(f, log, index)
  {
    if index <= f.applied then f
    else Fsm(index, PopUntil(f.waiting, index), f.events + Deliveries(log, f.waiting, f.applied, index))
  }

  /** The log is readable up to `index` and every closure up to it has been registered. */
  predicate Ready(f: Fsm, log: Log, index: nat) {
    index <= f.applied || (index <= |log| && (f.waiting.queue == [] || index < f.waiting.Next()))
  }

  function Handle(f: Fsm, log: Log, t: Task): Fsm
    requires t.Committed? ==> Ready(f, log, t.index)
  {
    match t
    case Committed(i) => Commit(f, log, i)
    case Other(id) => f.(events := f.events + [Notified(id)])
  }

  /** Every notice in the queue is within what can be applied. */
  predicate AllReady(f: Fsm, log: Log, tasks: seq<Task>) {
    forall t :: t in tasks && t.Committed? ==> Ready(f, log, t.index)
  }

  lemma {:induction false} ReadyAfter(f: Fsm, log: Log, i: nat, j: nat)
    requires Ready(f, log, i) && Ready(f, log, j)
    ensures Ready(Commit(f, log, i), log, j)
  {
  }

  lemma AllReadyAfter(f: Fsm, log: Log, t: Task, tasks: seq<Task>)
    requires AllReady(f, log, tasks) && (t.Committed? ==> Ready(f, log, t.index))
    ensures AllReady(Handle(f, log, t), log, tasks)
  {
    forall u | u in tasks && u.Committed? ensures Ready(Handle(f, log, t), log, u.index) {
      if t.Committed? { ReadyAfter(f, log, t.index, u.index); }
    }
  }

  /** The reference: every task handled alone, in order. */
  function HandleAll(f: Fsm, log: Log, tasks: seq<Task>): (r: Fsm)
    requires AllReady(f, log, tasks)
    ensures forall more :: AllReady(f, log, more) ==> AllReady(r, log, more)
  {
    if tasks == [] then f
    else
      var k := |tasks| - 1;
      var g := HandleAll(f, log, tasks[..k]);
      assert AllReady(g, log, tasks);
      assert tasks[k] in tasks;
      assert forall more :: AllReady(f, log, more) ==> AllReady(Handle(g, log, tasks[k]), log, more) by {
        forall more | AllReady(f, log, more) ensures AllReady(Handle(g, log, tasks[k]), log, more) {
          AllReadyAfter(g, log, tasks[k], more);
        }
      }
      Handle(g, log, tasks[k])
  }

  // ----- coalescing

  lemma {:induction false} DeliveriesSplit(log: Log, w: Waiting, from: nat, mid: nat, upTo: nat)
    requires from <= mid <= upTo <= |log|
    ensures Deliveries(log, w, from, upTo) == Deliveries(log, w, from, mid) + Deliveries(log, w, mid, upTo)
    decreases upTo
  {
    if mid < upTo { DeliveriesSplit(log, w, from, mid, upTo - 1); }
  }

  /** Handing out closures up to `mid` first does not change who waits for a later index. */
  lemma {:induction false} DeliveriesPopped(log: Log, w: Waiting, mid: nat, upTo: nat)
    requires mid <= upTo <= |log| && (w.queue == [] || mid < w.Next())
    ensures Deliveries(log, PopUntil(w, mid), mid, upTo) == Deliveries(log, w, mid, upTo)
    decreases upTo
  {
    if mid < upTo {
      DeliveriesPopped(log, w, mid, upTo - 1);
      var p := PopUntil(w, mid);
      assert p.At(upTo) == w.At(upTo);
    }
  }

  lemma PopTwice(w: Waiting, i: nat, j: nat)
    requires i <= j && (w.queue == [] || j < w.Next())
    ensures PopUntil(PopUntil(w, i), j) == PopUntil(w, j)
  {
  }

  /** One notice for the larger index does the work of both, in whatever order they came. */
  lemma CommitsCoalesce(f: Fsm, log: Log, i: nat, j: nat)
    requires Ready(f, log, i) && Ready(f, log, j)
    ensures Commit(Commit(f, log, i), log, j) == Commit(f, log, if i <= j then j else i)
  {
    if f.applied < i < j {
      DeliveriesSplit(log, f.waiting, f.applied, i, j);
      DeliveriesPopped(log, f.waiting, i, j);
      PopTwice(f.waiting, i, j);
    }
  }

  /** The highest index among `from` and the notices. */
  function Highest(from: nat, tasks: seq<Task>): (r: nat)
    ensures r >= from && forall t :: t in tasks && t.Committed? ==> t.index <= r
    ensures r == from || Committed(r) in tasks
  {
    if tasks == [] then from
    else
      var k := |tasks| - 1;
      assert tasks == tasks[..k] + [tasks[k]];
      var h := Highest(from, tasks[..k]);
      match tasks[k]
      case Committed(i) => if i > h then i else h
      case Other(_) => h
  }

  /** Everything there was a notice for is applied, and nothing beyond that. */
  lemma {:induction false} AppliesHighest(f: Fsm, log: Log, tasks: seq<Task>)
    requires AllReady(f, log, tasks)
    ensures HandleAll(f, log, tasks).applied == Highest(f.applied, tasks)
    ensures f.events <= HandleAll(f, log, tasks).events
    decreases |tasks|
  {
    if tasks != [] {
      var k := |tasks| - 1;
      AppliesHighest(f, log, tasks[..k]);
      assert tasks[k] in tasks;
      hide Deliveries, PopUntil;
    }
  }

  /** Another task is reported at its place: behind all that was to be applied before it, and ahead of the rest. */
  lemma {:induction false} NotifiedInPlace(f: Fsm, log: Log, before: seq<Task>, id: nat, after: seq<Task>)
    requires AllReady(f, log, before + [Other(id)] + after)
    ensures AllReady(f, log, before)
    ensures var g := HandleAll(f, log, before);
      && g.applied == Highest(f.applied, before)
      && g.events + [Notified(id)] <= HandleAll(f, log, before + [Other(id)] + after).events
    decreases |after|
  {
    var tasks := before + [Other(id)] + after;
    assert forall t :: t in before ==> t in tasks;
    AppliesHighest(f, log, before);
    var k := |tasks| - 1;
    if after == [] {
      assert tasks[..k] == before && tasks[k] == Other(id);
    } else {
      var rest := after[..|after| - 1];
      assert tasks[..k] == before + [Other(id)] + rest;
      NotifiedInPlace(f, log, before, id, rest);
      assert tasks[k] in tasks;
      hide Deliveries, PopUntil;
    }
  }

  lemma HandleAllNext(f: Fsm, log: Log, tasks: seq<Task>, k: nat)
    requires AllReady(f, log, tasks) && k < |tasks|
    ensures AllReady(f, log, tasks[..k]) && AllReady(f, log, tasks[..k + 1])
    ensures var g := HandleAll(f, log, tasks[..k]);
      && AllReady(g, log, tasks) && (tasks[k].Committed? ==> Ready(g, log, tasks[k].index))
      && HandleAll(f, log, tasks[..k + 1]) == Handle(g, log, tasks[k])
  {
    assert tasks[..k + 1][..k] == tasks[..k];
    assert tasks[k] in tasks;
  }

  lemma HandleNone(f: Fsm, log: Log, tasks: seq<Task>)
    ensures AllReady(f, log, []) && HandleAll(f, log, []) == f && tasks[..0] == []
  {
  }

  /** The largest pending notice, folded into the reference, gives the reference of the whole prefix. */
  lemma PendingAbsorbs(f: Fsm, g: Fsm, log: Log, pending: nat, next: nat)
    requires Ready(g, log, pending) && Ready(g, log, next) && f == Commit(g, log, pending)
    ensures Ready(f, log, next)
    ensures Commit(f, log, next) == Commit(g, log, if pending <= next then next else pending)
  {
    ReadyAfter(g, log, pending, next);
    CommitsCoalesce(g, log, pending, next);
  }

  // ----- the objects

  /** A cursor over the entries of one commit, with the closures popped for them. */
  class IteratorImpl {
    const log: Log
    const closure: seq<Option<ClosureId>>
    const firstClosureIndex: nat
    const committedIndex: nat
    var curIndex: nat

    constructor (log: Log, closure: seq<Option<ClosureId>>, firstClosureIndex: nat, lastAppliedIndex: nat, committedIndex: nat)
      requires lastAppliedIndex < committedIndex <= |log|
      ensures this.log == log && this.closure == closure && this.firstClosureIndex == firstClosureIndex
      ensures this.committedIndex == committedIndex && curIndex == lastAppliedIndex + 1
    {
      this.log, this.closure, this.firstClosureIndex := log, closure, firstClosureIndex;
      this.committedIndex, curIndex := committedIndex, lastAppliedIndex + 1;
    }

    predicate IsGood() reads this { curIndex <= committedIndex }

    /** What the state machine may look at: it never sees configuration entries or no-ops. */
    predicate IsValid() reads this { IsGood() && 1 <= curIndex <= |log| && log[curIndex - 1].payload.Data? }

    method Next()
      modifies this
      ensures curIndex == old(curIndex) + if old(IsGood()) then 1 else 0
    {
      if curIndex <= committedIndex { curIndex := curIndex + 1; }
    }

    method Done() returns (c: Option<ClosureId>)
      requires IsGood() && firstClosureIndex + |closure| == committedIndex + 1
      ensures c == if curIndex < firstClosureIndex then None else closure[curIndex - firstClosureIndex]
    {
      if curIndex < firstClosureIndex { return None; }
      c := closure[curIndex - firstClosureIndex];
    }
  }

  class FsmCaller {
    var lastAppliedIndex: nat
    const closureQueue: ClosureQueue
    var events: seq<Event>

    ghost function View(): Fsm reads this, closureQueue { Fsm(lastAppliedIndex, closureQueue.View(), events) }

    constructor (closureQueue: ClosureQueue, bootstrap: nat)
      ensures this.closureQueue == closureQueue && View() == Fsm(bootstrap, closureQueue.View(), [])
    {
      this.closureQueue := closureQueue;
      lastAppliedIndex, events := bootstrap, [];
    }

    /** The closures popped for this commit are those that waited for the same indexes. */
    ghost predicate Carries(iter: IteratorImpl, w: Waiting) reads iter {
      && iter.committedIndex <= |iter.log| && 1 <= iter.curIndex
      && iter.firstClosureIndex + |iter.closure| == iter.committedIndex + 1
      && (forall i: nat :: i < iter.firstClosureIndex ==> w.At(i).None?)
      && (forall i :: iter.firstClosureIndex <= i <= iter.committedIndex ==> iter.closure[i - iter.firstClosureIndex] == w.At(i))
    }

    /** Records the entry under the cursor, with its closure. */
    method Deliver(iter: IteratorImpl, ghost from: nat, ghost w: Waiting, ghost before: seq<Event>)
      requires Carries(iter, w) && iter.IsGood() && from < iter.curIndex
      requires events == before + Deliveries(iter.log, w, from, iter.curIndex - 1)
      modifies this`events
      ensures events == before + Deliveries(iter.log, w, from, iter.curIndex)
    {
      var c := iter.Done();
      events := events + [Applied(iter.curIndex, iter.log[iter.curIndex - 1], c)];
    }

    /** The user's on_apply: it looks at the current entry and at any number of those that follow. */
    method OnApply(iter: IteratorImpl, ghost from: nat, ghost w: Waiting, ghost before: seq<Event>)
      requires Carries(iter, w) && iter.IsValid() && from < iter.curIndex
      requires events == before + Deliveries(iter.log, w, from, iter.curIndex - 1)
      modifies this`events, iter
      ensures Carries(iter, w) && from < old(iter.curIndex) <= iter.curIndex <= iter.committedIndex + 1
      ensures iter.IsValid() ==> events == before + Deliveries(iter.log, w, from, iter.curIndex)
      ensures !iter.IsValid() ==> events == before + Deliveries(iter.log, w, from, iter.curIndex - 1) && iter.curIndex > old(iter.curIndex)
    {
      Deliver(iter, from, w, before);
      var wants: bool := *;
      while wants && iter.IsValid()
        invariant Carries(iter, w) && old(iter.curIndex) <= iter.curIndex <= iter.committedIndex + 1
        invariant iter.IsValid() ==> events == before + Deliveries(iter.log, w, from, iter.curIndex)
        invariant !iter.IsValid() ==> events == before + Deliveries(iter.log, w, from, iter.curIndex - 1) && iter.curIndex > old(iter.curIndex)
        decreases iter.committedIndex + 1 - iter.curIndex
      {
        iter.Next();
        if iter.IsValid() { Deliver(iter, from, w, before); }
        wants := *;
      }
    }

    /** Applies everything up to `index` that is not applied yet. */
    method DoCommitted(index: nat, log: Log)
      requires Ready(View(), log, index)
      modifies this, closureQueue
      ensures View() == Commit(old(View()), log, index)
    {
      hide Deliveries;
      if lastAppliedIndex >= index { return; }
      ghost var w, from, before := closureQueue.View(), lastAppliedIndex, events;
      var ok, closure, first := closureQueue.PopClosureUntil(index);
      var iter := new IteratorImpl(log, closure, first, lastAppliedIndex, index);
      while iter.IsGood()
        invariant Carries(iter, w) && iter.log == log && iter.committedIndex == index && from < iter.curIndex <= index + 1
        invariant events == before + Deliveries(log, w, from, iter.curIndex - 1)
        invariant closureQueue.View() == PopUntil(w, index)
        invariant fresh(iter)
        decreases index + 1 - iter.curIndex
      {
        if !log[iter.curIndex - 1].payload.Data? {
          Deliver(iter, from, w, before);
          iter.Next();
          continue;
        }
        OnApply(iter, from, w, before);
        if iter.IsValid() { iter.Next(); }
      }
      lastAppliedIndex := index;
    }

    /** The queue's consumer: runs of commit notices are merged, up to `batch` of them at a time. */
    method Run(tasks: seq<Task>, batch: nat, log: Log)
      requires AllReady(View(), log, tasks)
      modifies this, closureQueue
      ensures View() == HandleAll(old(View()), log, tasks)
      ensures lastAppliedIndex == Highest(old(lastAppliedIndex), tasks)
    {
      AppliesHighest(View(), log, tasks);
      hide HandleAll, Commit, Ready, Highest;
      ghost var f := View();
      var pending: int, counter: nat := -1, 0;
      var k := 0;
      HandleNone(f, log, tasks);
      while k < |tasks|
        invariant k <= |tasks| && AllReady(f, log, tasks[..k]) && pending >= -1
        invariant AllReady(View(), log, tasks)
        invariant pending >= 0 ==> Ready(View(), log, pending)
        invariant HandleAll(f, log, tasks[..k]) == if pending < 0 then View() else Commit(View(), log, pending)
      {
        HandleAllNext(f, log, tasks, k);
        var t := tasks[k];
        assert t in tasks;
        if t.Committed? && counter < batch {
          if pending >= 0 { PendingAbsorbs(HandleAll(f, log, tasks[..k]), View(), log, pending, t.index); }
          if t.index > pending {
            pending, counter := t.index, counter + 1;
          }
        } else {
          if pending >= 0 {
            DoCommitted(pending, log);
            pending, counter := -1, 0;
          }
          match t
          case Committed(index) =>
            if index > pending { pending, counter := index, counter + 1; }
          case Other(id) =>
            events := events + [Notified(id)];
        }
        k := k + 1;
      }
      assert tasks[..k] == tasks;
      if pending >= 0 { DoCommitted(pending, log); }
    }
  }
}
