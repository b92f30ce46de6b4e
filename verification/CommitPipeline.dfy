/** From ballots to the state machine: order, completeness and the fate of every closure, over whole runs of one node. */
module CommitPipeline {
  import opened Quorum
  import opened LogTypes
  import opened BallotSpec
  import opened Closures
  import opened Applier

  /** `homes` remembers the log index each closure was registered for. */
  datatype Pipeline = Pipeline(
    log: Log, box: Box, waiting: Waiting, notices: seq<nat>,
    applied: nat, events: seq<Event>, failed: seq<ClosureId>,
    issued: nat, homes: map<ClosureId, nat>)

  datatype Step =
    | Lead
    | Submit(entry: Entry, conf: Conf, hasClosure: bool)
    | Report(first: nat, last: nat, peer: PeerId, slot: nat)
    | StopLeading
    | Learn(index: nat, slot: nat)
    | Rewrite(log: Log)
    | Consume

  predicate Enabled(p: Pipeline, s: Step) {
    match s
    case Lead => p.box.pendingIndex == 0
    case Submit(_, _, _) => p.box.pendingIndex > 0
    case Report(_, _, _, slot) => slot <= |p.notices|
    case StopLeading => p.box.pendingIndex > 0
    case Learn(index, slot) => p.box.pendingIndex == 0 && index <= |p.log| && slot <= |p.notices|
    case Rewrite(log) => p.box.pendingIndex == 0 && p.box.committed <= |p.log| && p.log[..p.box.committed] <= log
    case Consume => p.notices != [] && Ready(Fsm(p.applied, p.waiting, p.events), p.log, p.notices[0])
  }

  /** Notices are posted outside the lock, so a new one may overtake any that wait. */
  function Notify(p: Pipeline, box: Box, slot: nat): Pipeline
    requires slot <= |p.notices|
  {
    p.(box := box, notices := if box.committed == p.box.committed then p.notices
                              else p.notices[..slot] + [box.committed] + p.notices[slot..])
  }

  function Next(p: Pipeline, s: Step): Pipeline
    requires Enabled(p, s)
  {
    match s
    case Lead => p.(box := Reset(p.box, |p.log| + 1), waiting := Waiting(|p.log| + 1, []))
    case Submit(entry, conf, hasClosure) =>
      var c := p.issued;
      p.(log := p.log + [entry], box := Append(p.box, conf),
         waiting := p.waiting.(queue := p.waiting.queue + [if hasClosure then Some(c) else None]),
         issued := if hasClosure then c + 1 else c,
         homes := if hasClosure then p.homes[c := |p.log| + 1] else p.homes)
    case Report(first, last, peer, slot) => Notify(p, CommitAt(p.box, first, last, peer).0, slot)
    case StopLeading =>
      p.(box := Cleared(p.box), failed := p.failed + Present(p.waiting.queue), waiting := Waiting(0, []))
    case Learn(index, slot) => Notify(p, SetCommitted(p.box, index), slot)
    case Rewrite(log) => p.(log := log)
    case Consume =>
      var f := Commit(Fsm(p.applied, p.waiting, p.events), p.log, p.notices[0]);
      p.(notices := p.notices[1..], applied := f.applied, waiting := f.waiting, events := f.events)
  }

  function Start(log: Log): Pipeline { Pipeline(log, Box(0, [], 0), Waiting(0, []), [], 0, [], [], 0, map[]) }

  // ----- what always holds

  /** Index `k + 1` was delivered as event `k`, with the committed entry. */
  ghost predicate InOrder(p: Pipeline) {
    && |p.events| == p.applied <= p.box.committed <= |p.log|
    && forall k {:trigger EventOk(p, k)} :: 0 <= k < |p.events| ==> EventOk(p, k)
  }

  ghost predicate EventOk(p: Pipeline, k: nat)
    requires k < |p.events| <= |p.log|
  {
    p.events[k].Applied? && p.events[k].index == k + 1 && p.events[k].entry == p.log[k]
  }

  ghost predicate Numbered(p: Pipeline) {
    && (forall i :: i in p.notices ==> i <= p.box.committed)
    && (p.applied == p.box.committed || p.box.committed in p.notices)
    && (p.box.pendingIndex == 0 ==> p.waiting.queue == [] && p.box.ballots == [])
    && (p.box.pendingIndex > 0 ==>
          && p.waiting.Next() == p.box.NextIndex() == |p.log| + 1
          && p.box.committed < p.box.pendingIndex && p.waiting.first > p.applied)
  }

  /** The closures the state machine was given, in order. */
  function Given(es: seq<Event>): seq<ClosureId> {
    if es == [] then []
    else
      var e := es[|es| - 1];
      Given(es[..|es| - 1]) + if e.Applied? && e.closure.Some? then [e.closure.value] else []
  }

  ghost function Ids(n: nat): multiset<ClosureId> {
    if n == 0 then multiset{} else Ids(n - 1) + multiset{n - 1}
  }

  /** Every registered closure is in exactly one place: given out, failed, or still waiting. */
  ghost predicate Conserved(p: Pipeline) {
    && (forall c: ClosureId :: c in p.homes <==> c < p.issued)
    && multiset(Given(p.events)) + multiset(p.failed) + multiset(Present(p.waiting.queue)) == Ids(p.issued)
  }

  ghost predicate WaitsAtHome(p: Pipeline, i: nat)
    requires i < |p.waiting.queue|
  {
    p.waiting.queue[i].Some? ==> p.waiting.queue[i].value in p.homes && p.homes[p.waiting.queue[i].value] == p.waiting.first + i
  }

  ghost predicate GivenAtHome(p: Pipeline, k: nat)
    requires k < |p.events|
  {
    p.events[k].Applied? && p.events[k].closure.Some? ==>
      p.events[k].closure.value in p.homes && p.homes[p.events[k].closure.value] == p.events[k].index
  }

  ghost predicate AtHome(p: Pipeline) {
    && (forall i {:trigger WaitsAtHome(p, i)} :: 0 <= i < |p.waiting.queue| ==> WaitsAtHome(p, i))
    && (forall k {:trigger GivenAtHome(p, k)} :: 0 <= k < |p.events| ==> GivenAtHome(p, k))
  }

  ghost predicate Inv(p: Pipeline) {
    InOrder(p) && Numbered(p) && Conserved(p) && AtHome(p)
  }

  // ----- sequences of events and closures

  lemma {:induction false} GivenConcat(a: seq<Event>, b: seq<Event>)
    ensures Given(a + b) == Given(a) + Given(b)
  {
    if b == [] {
      assert a + b == a;
    } else {
      GivenConcat(a, b[..|b| - 1]);
      assert (a + b)[..|a + b| - 1] == a + b[..|b| - 1];
    }
  }

  lemma {:induction false} PresentConcat(a: seq<Option<ClosureId>>, b: seq<Option<ClosureId>>)
    ensures Present(a + b) == Present(a) + Present(b)
  {
    if b == [] {
      assert a + b == a;
    } else {
      PresentConcat(a, b[..|b| - 1]);
      assert (a + b)[..|a + b| - 1] == a + b[..|b| - 1];
    }
  }

  /** The closure of one place in the queue, if there is one. */
  function Carried(c: Option<ClosureId>): seq<ClosureId> { if c.Some? then [c.value] else [] }

  lemma PresentNext(w: Waiting, k: nat)
    requires k < |w.queue|
    ensures Present(w.queue[..k + 1]) == Present(w.queue[..k]) + Carried(w.At(w.first + k))
  {
    assert w.queue[..k + 1][..k] == w.queue[..k];
  }

  /** The last event of a commit carries the closure that waits for its index. */
  lemma GivenNext(log: Log, w: Waiting, from: nat, upTo: nat)
    requires from < upTo <= |log|
    ensures Given(Deliveries(log, w, from, upTo)) == Given(Deliveries(log, w, from, upTo - 1)) + Carried(w.At(upTo))
  {
    hide Waiting.At;
    var ds, e := Deliveries(log, w, from, upTo - 1), Applied(upTo, log[upTo - 1], w.At(upTo));
    assert Deliveries(log, w, from, upTo) == ds + [e];
    hide Deliveries;
    assert (ds + [e])[..|ds + [e]| - 1] == ds;
  }

  /** The events of one commit carry exactly the closures that are popped for it. */
  lemma {:induction false} DeliveriesGive(log: Log, w: Waiting, from: nat, upTo: nat)
    requires from <= upTo <= |log| && from < w.first && (w.queue == [] || upTo < w.Next())
    ensures var k := if w.queue == [] || upTo < w.first then 0 else upTo + 1 - w.first;
      Given(Deliveries(log, w, from, upTo)) == Present(w.queue[..k])
    decreases upTo
  {
    if from < upTo {
      DeliveriesGive(log, w, from, upTo - 1);
      GivenNext(log, w, from, upTo);
      if w.queue != [] && upTo >= w.first {
        PresentNext(w, upTo - w.first);
        hide Present, Deliveries, Given, Waiting.At;
      } else {
        assert w.At(upTo) == None;
        hide Present, Deliveries, Given, Waiting.At;
      }
    } else {
      assert Deliveries(log, w, from, upTo) == [];
    }
  }

  lemma {:induction false} DeliveriesAre(log: Log, w: Waiting, from: nat, upTo: nat)
    requires from <= upTo <= |log|
    ensures forall k :: 0 <= k < upTo - from ==>
      Deliveries(log, w, from, upTo)[k] == Applied(from + k + 1, log[from + k], w.At(from + k + 1))
    decreases upTo
  {
    if from < upTo { DeliveriesAre(log, w, from, upTo - 1); }
  }

  /** Without waiting closures, a commit gives out none. */
  lemma {:induction false} DeliveriesGiveNone(log: Log, w: Waiting, from: nat, upTo: nat)
    requires from <= upTo <= |log| && w.queue == []
    ensures Given(Deliveries(log, w, from, upTo)) == []
    decreases upTo
  {
    if from < upTo {
      DeliveriesGiveNone(log, w, from, upTo - 1);
      var ds := Deliveries(log, w, from, upTo);
      assert ds[..|ds| - 1] == Deliveries(log, w, from, upTo - 1);
    }
  }

  // ----- every step keeps the invariant

  /** What consuming a notice does, spelled out. */
  lemma ConsumeIs(p: Pipeline)
    requires Enabled(p, Consume)
    ensures var i, q := p.notices[0], Next(p, Consume);
      if i <= p.applied then q == p.(notices := p.notices[1..])
      else
        && i <= |p.log| && (p.waiting.queue == [] || i < p.waiting.Next())
        && q == p.(notices := p.notices[1..], applied := i, waiting := PopUntil(p.waiting, i),
                   events := p.events + Deliveries(p.log, p.waiting, p.applied, i))
  {
  }

  lemma ConsumeOrder(p: Pipeline)
    requires Inv(p) && Enabled(p, Consume)
    ensures InOrder(Next(p, Consume)) && Numbered(Next(p, Consume))
  {
    hide Conserved, AtHome, Deliveries;
    ConsumeIs(p);
    var i, q := p.notices[0], Next(p, Consume);
    assert i in p.notices;
    assert forall j :: j in q.notices ==> j in p.notices;
    if i > p.applied {
      DeliveriesAre(p.log, p.waiting, p.applied, i);
      forall k | 0 <= k < |q.events| ensures EventOk(q, k) {
        if k < |p.events| { assert EventOk(p, k); }
      }
    } else {
      forall k | 0 <= k < |q.events| ensures EventOk(q, k) { assert EventOk(p, k); }
    }
  }

  /** Popping splits what waits into what is given out and what goes on waiting. */
  lemma PopSplits(log: Log, w: Waiting, from: nat, i: nat)
    requires from <= i <= |log| && (w.queue == [] || (from < w.first && i < w.Next()))
    ensures Present(w.queue) == Given(Deliveries(log, w, from, i)) + Present(PopUntil(w, i).queue)
  {
    if w.queue == [] {
      DeliveriesGiveNone(log, w, from, i);
    } else {
      DeliveriesGive(log, w, from, i);
      var k := if i < w.first then 0 else i + 1 - w.first;
      PresentConcat(w.queue[..k], w.queue[k..]);
      assert w.queue[..k] + w.queue[k..] == w.queue;
    }
  }

  lemma ConsumeConserves(p: Pipeline)
    requires Inv(p) && Enabled(p, Consume)
    ensures Conserved(Next(p, Consume))
  {
    hide InOrder, AtHome, Deliveries, Given, Present;
    ConsumeIs(p);
    var i := p.notices[0];
    if i > p.applied {
      PopSplits(p.log, p.waiting, p.applied, i);
      GivenConcat(p.events, Deliveries(p.log, p.waiting, p.applied, i));
    }
  }

  lemma WaitersStay(p: Pipeline, q: Pipeline, d: nat)
    requires AtHome(p) && q.homes == p.homes && d <= |p.waiting.queue|
    requires q.waiting.queue == p.waiting.queue[d..] && (q.waiting.queue != [] ==> q.waiting.first == p.waiting.first + d)
    ensures forall i {:trigger WaitsAtHome(q, i)} :: 0 <= i < |q.waiting.queue| ==> WaitsAtHome(q, i)
  {
    forall i | 0 <= i < |q.waiting.queue| ensures WaitsAtHome(q, i) { assert WaitsAtHome(p, d + i); }
  }

  lemma EventsStay(p: Pipeline, q: Pipeline)
    requires AtHome(p) && q.events == p.events && (forall c :: c in p.homes ==> c in q.homes && q.homes[c] == p.homes[c])
    ensures forall k {:trigger GivenAtHome(q, k)} :: 0 <= k < |q.events| ==> GivenAtHome(q, k)
  {
    forall k | 0 <= k < |q.events| ensures GivenAtHome(q, k) { assert GivenAtHome(p, k); }
  }

  lemma DeliveredAtHome(p: Pipeline, q: Pipeline, i: nat)
    requires AtHome(p) && |p.events| == p.applied < i <= |p.log| && q.homes == p.homes
    requires q.events == p.events + Deliveries(p.log, p.waiting, p.applied, i)
    ensures forall k {:trigger GivenAtHome(q, k)} :: 0 <= k < |q.events| ==> GivenAtHome(q, k)
  {
    hide Deliveries;
    var w := p.waiting;
    DeliveriesAre(p.log, w, p.applied, i);
    forall k | 0 <= k < |q.events| ensures GivenAtHome(q, k) {
      if k < |p.events| {
        assert GivenAtHome(p, k);
      } else if w.first <= k + 1 < w.Next() {
        assert WaitsAtHome(p, k + 1 - w.first);
      }
    }
  }

  lemma ConsumeAtHome(p: Pipeline)
    requires Inv(p) && Enabled(p, Consume)
    ensures AtHome(Next(p, Consume))
  {
    hide Conserved, Deliveries, Ids;
    ConsumeIs(p);
    var i, q, w := p.notices[0], Next(p, Consume), p.waiting;
    if i > p.applied {
      DeliveredAtHome(p, q, i);
      WaitersStay(p, q, if w.queue == [] || i < w.first then 0 else i + 1 - w.first);
    } else {
      EventsStay(p, q);
      WaitersStay(p, q, 0);
    }
  }

  lemma PresentOne(q: seq<Option<ClosureId>>, x: Option<ClosureId>)
    ensures Present(q + [x]) == Present(q) + if x.Some? then [x.value] else []
  {
    assert (q + [x])[..|q|] == q;
  }

  lemma SubmitConserves(p: Pipeline, entry: Entry, conf: Conf, hasClosure: bool)
    requires Inv(p) && Enabled(p, Submit(entry, conf, hasClosure))
    ensures Conserved(Next(p, Submit(entry, conf, hasClosure)))
  {
    hide InOrder, AtHome, Given, Present;
    PresentOne(p.waiting.queue, if hasClosure then Some(p.issued) else None);
  }

  lemma SubmitKeeps(p: Pipeline, entry: Entry, conf: Conf, hasClosure: bool)
    requires Inv(p) && Enabled(p, Submit(entry, conf, hasClosure))
    ensures Inv(Next(p, Submit(entry, conf, hasClosure)))
  {
    hide Conserved;
    var q := Next(p, Submit(entry, conf, hasClosure));
    SubmitConserves(p, entry, conf, hasClosure);
    NewHome(p, hasClosure);
    EventsStay(p, q);
    forall i | 0 <= i < |q.waiting.queue| ensures WaitsAtHome(q, i) {
      if i < |p.waiting.queue| { assert WaitsAtHome(p, i); }
    }
    forall k | 0 <= k < |q.events| ensures EventOk(q, k) { assert EventOk(p, k); }
  }

  lemma NewHome(p: Pipeline, hasClosure: bool)
    requires Conserved(p)
    ensures p.issued !in p.homes
  {
  }

  /** A report or a leader's message moves the commit index within the log and posts at most one notice. */
  lemma NotifyKeeps(p: Pipeline, box: Box, slot: nat)
    requires Inv(p) && slot <= |p.notices| && p.box.committed <= box.committed <= |p.log|
    requires box.pendingIndex == 0 <==> p.box.pendingIndex == 0
    requires box.NextIndex() == p.box.NextIndex() && (box.pendingIndex == 0 ==> box.ballots == [])
    requires box.pendingIndex > 0 ==> box.committed < box.pendingIndex
    ensures Inv(Notify(p, box, slot))
  {
    var q := Notify(p, box, slot);
    assert p.waiting.queue[0..] == p.waiting.queue;
    WaitersStay(p, q, 0);
    EventsStay(p, q);
    forall k | 0 <= k < |q.events| ensures EventOk(q, k) { assert EventOk(p, k); }
    forall i | i in q.notices ensures i <= q.box.committed {
      if i != box.committed { assert i in p.notices; }
    }
    if box.committed != p.box.committed { assert q.notices[slot] == box.committed; }
  }

  lemma CommitAtBounds(b: Box, first: nat, last: nat, peer: PeerId)
    requires b.pendingIndex > 0 ==> b.committed < b.pendingIndex
    ensures var b' := CommitAt(b, first, last, peer).0;
      && b.committed <= b'.committed && b'.NextIndex() == b.NextIndex()
      && (b'.pendingIndex == 0 <==> b.pendingIndex == 0) && (b.pendingIndex == 0 ==> b' == b)
      && (b'.pendingIndex > 0 ==> b'.committed < b'.pendingIndex)
  {
  }

  lemma StopKeeps(p: Pipeline)
    requires Inv(p) && Enabled(p, StopLeading)
    ensures Inv(Next(p, StopLeading))
  {
    var q := Next(p, StopLeading);
    EventsStay(p, q);
    forall k | 0 <= k < |q.events| ensures EventOk(q, k) { assert EventOk(p, k); }
  }

  lemma LeadKeeps(p: Pipeline)
    requires Inv(p) && Enabled(p, Lead)
    ensures Inv(Next(p, Lead))
  {
    var q := Next(p, Lead);
    EventsStay(p, q);
    forall k | 0 <= k < |q.events| ensures EventOk(q, k) { assert EventOk(p, k); }
  }

  lemma RewriteKeeps(p: Pipeline, log: Log)
    requires Inv(p) && Enabled(p, Rewrite(log))
    ensures Inv(Next(p, Rewrite(log)))
  {
    var q := Next(p, Rewrite(log));
    EventsStay(p, q);
    forall k | 0 <= k < |q.events| ensures EventOk(q, k) {
      assert EventOk(p, k);
      assert p.log[..p.box.committed][k] == log[k];
    }
  }

  lemma NextKeeps(p: Pipeline, s: Step)
    requires Inv(p) && Enabled(p, s)
    ensures Inv(Next(p, s))
  {
    hide Inv, InOrder, Conserved, AtHome, Numbered;
    match s
    case Lead => LeadKeeps(p);
    case Submit(entry, conf, hasClosure) => SubmitKeeps(p, entry, conf, hasClosure);
    case Report(first, last, peer, slot) => ReportKeeps(p, first, last, peer, slot);
    case StopLeading => StopKeeps(p);
    case Learn(index, slot) => LearnKeeps(p, index, slot);
    case Rewrite(log) => RewriteKeeps(p, log);
    case Consume =>
      ConsumeOrder(p);
      ConsumeConserves(p);
      ConsumeAtHome(p);
      Together(Next(p, s));
  }

  lemma Together(p: Pipeline)
    requires InOrder(p) && Numbered(p) && Conserved(p) && AtHome(p)
    ensures Inv(p)
  {
  }

  lemma ReportKeeps(p: Pipeline, first: nat, last: nat, peer: PeerId, slot: nat)
    requires Inv(p) && Enabled(p, Report(first, last, peer, slot))
    ensures Inv(Next(p, Report(first, last, peer, slot)))
  {
    hide Conserved, AtHome;
    CommitAtBounds(p.box, first, last, peer);
    NotifyKeeps(p, CommitAt(p.box, first, last, peer).0, slot);
  }

  lemma LearnKeeps(p: Pipeline, index: nat, slot: nat)
    requires Inv(p) && Enabled(p, Learn(index, slot))
    ensures Inv(Next(p, Learn(index, slot)))
  {
    NotifyKeeps(p, SetCommitted(p.box, index), slot);
  }

  // ----- whole runs

  predicate Legal(log: Log, steps: seq<Step>)
    decreases |steps|, 0
  {
    steps == [] || (Legal(log, steps[..|steps| - 1]) && Enabled(After(log, steps[..|steps| - 1]), steps[|steps| - 1]))
  }

  function After(log: Log, steps: seq<Step>): Pipeline
    requires Legal(log, steps)
    decreases |steps|, 1
  {
    if steps == [] then Start(log) else Next(After(log, steps[..|steps| - 1]), steps[|steps| - 1])
  }

  lemma {:induction false} RunKeeps(log: Log, steps: seq<Step>)
    requires Legal(log, steps)
    ensures Inv(After(log, steps))
  {
    if steps == [] {
      assert After(log, steps) == Start(log);
    } else {
      RunKeeps(log, steps[..|steps| - 1]);
      NextKeeps(After(log, steps[..|steps| - 1]), steps[|steps| - 1]);
    }
  }

  lemma {:induction false} IdsCount(n: nat, c: ClosureId)
    ensures Ids(n)[c] == if c < n then 1 else 0
  {
    if n > 0 { IdsCount(n - 1, c); }
  }

  /** In-order: after any run, the state machine was handed index 1, 2, 3, ... with the committed entries. */
  lemma AppliedInOrder(log: Log, steps: seq<Step>, k: nat)
    requires Legal(log, steps) && k < |After(log, steps).events|
    ensures var p := After(log, steps);
      && |p.events| == p.applied <= p.box.committed <= |p.log|
      && p.events[k].Applied? && p.events[k].index == k + 1 && p.events[k].entry == p.log[k]
  {
    RunKeeps(log, steps);
    assert EventOk(After(log, steps), k);
  }

  /** Exactly once: every closure ever registered is given out once, or failed once, or still waits. */
  lemma EachClosureOnce(log: Log, steps: seq<Step>, c: ClosureId)
    requires Legal(log, steps)
    ensures var p := After(log, steps);
      multiset(Given(p.events))[c] + multiset(p.failed)[c] + multiset(Present(p.waiting.queue))[c]
        == if c in p.homes then 1 else 0
  {
    RunKeeps(log, steps);
    var p := After(log, steps);
    IdsCount(p.issued, c);
    var all := multiset(Given(p.events)) + multiset(p.failed) + multiset(Present(p.waiting.queue));
    assert all[c] == Ids(p.issued)[c];
  }

  /** A closure given to the state machine comes with the entry it was registered for. */
  lemma ClosureAtItsIndex(log: Log, steps: seq<Step>, k: nat)
    requires Legal(log, steps) && k < |After(log, steps).events|
    requires After(log, steps).events[k].Applied? && After(log, steps).events[k].closure.Some?
    ensures var p := After(log, steps);
      p.events[k].closure.value in p.homes && p.homes[p.events[k].closure.value] == k + 1
  {
    RunKeeps(log, steps);
    assert GivenAtHome(After(log, steps), k) && EventOk(After(log, steps), k);
  }

  /** No commit is lost: once every notice has been consumed, everything committed has been applied. */
  lemma NothingIsLost(log: Log, steps: seq<Step>)
    requires Legal(log, steps) && After(log, steps).notices == []
    ensures After(log, steps).applied == After(log, steps).box.committed
  {
    RunKeeps(log, steps);
  }

  /** The applier is never handed an index it cannot pop closures for. */
  lemma ConsumeNeverFails(log: Log, steps: seq<Step>)
    requires Legal(log, steps) && After(log, steps).notices != []
    ensures Enabled(After(log, steps), Consume)
  {
    RunKeeps(log, steps);
    var p := After(log, steps);
    assert p.notices[0] in p.notices;
  }
}
