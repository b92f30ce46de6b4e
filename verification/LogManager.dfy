/** When the entries held in memory, the storage and the tasks still queued for it make up one log. */
module LogBacking {
  import opened Quorum
  import opened LogTypes
  import opened SegmentFormat
  import opened FlatLog
  import opened MemoryLog
  import opened LogQueue
  import opened LogFlush
  import opened LogLoss
  import opened Conflicts

  function Numbered(first: nat, es: seq<Record>): seq<Indexed> {
    seq(|es|, i requires 0 <= i < |es| => Indexed(first + i, es[i]))
  }

  function MemStart(mem: seq<Indexed>, f: Flat): int { f.Last() + 1 - |mem| }

  /** Memory holds the end of the log. */
  predicate InMemory(mem: seq<Indexed>, f: Flat) {
    && |mem| <= |f.log|
    && forall i :: 0 <= i < |mem| ==> mem[i] == Indexed(f.first + (|f.log| - |mem|) + i, f.log[|f.log| - |mem| + i])
  }

  /** Memory holds the end of the log, and the tasks will make the storage the whole of it. */
  ghost predicate Linked(store: Flat, q: seq<Task>, mem: seq<Indexed>, f: Flat) {
    InMemory(mem, f) && Runs(store, q) && Drained(store, q) == f && CutTermsOk(store, q)
  }

  /** What is no longer in memory is on the storage and stays there. */
  ghost predicate Backed(store: Flat, q: seq<Task>, mem: seq<Indexed>, f: Flat) {
    Linked(store, q, mem, f) && (MemStart(mem, f) <= f.first || Above(q, MemStart(mem, f)))
  }

  /** Ids rise along the log up to `high`, and those past the applied index are above the applied id. */
  predicate Ranked(f: Flat, applied: LogId, high: LogId) {
    && Sorted(f.log) && Positive(f.log)
    && IdAtMost(applied, high)
    && (forall i :: 0 <= i < |f.log| ==> IdAtMost(IdOf(f.first, f.log, i), high))
    && (forall i :: 0 <= i < |f.log| && f.first + i > applied.index ==> IdLess(applied, IdOf(f.first, f.log, i)))
  }

  lemma BackedMemory(store: Flat, q: seq<Task>, mem: seq<Indexed>, f: Flat)
    requires Linked(store, q, mem, f)
    ensures InMemory(mem, f)
  {
  }

  lemma ReadBack(store: Flat, q: seq<Task>, mem: seq<Indexed>, f: Flat, index: nat)
    requires Backed(store, q, mem, f) && f.first <= index < MemStart(mem, f)
    ensures store.At(index) == f.At(index)
  {
    UntouchedStays(store, q, MemStart(mem, f), index);
  }

  lemma AboveMore(q: seq<Task>, t: Task, from: nat, lower: nat)
    requires Above(q, from) && lower <= from && Spares(t, lower)
    ensures Above(q + [t], lower)
  {
    forall u | u in q + [t] ensures Spares(u, lower) { if u in q { assert Spares(u, from); } }
  }

  lemma BackedAppend(store: Flat, q: seq<Task>, mem: seq<Indexed>, f: Flat, es: seq<Record>)
    requires Backed(store, q, mem, f) && es != [] && f.first >= 1
    ensures Backed(store, q + [Write(f.Last() + 1, es)], mem + Numbered(f.Last() + 1, es), Appended(f, es))
  {
    var t := Write(f.Last() + 1, es);
    RunsMore(store, q, t);
    CutTermsMore(store, q, t);
    if MemStart(mem, f) > f.first { AboveMore(q, t, MemStart(mem, f), MemStart(mem, f)); }
  }

  lemma BackedSuffixCut(store: Flat, q: seq<Task>, mem: seq<Indexed>, f: Flat, kept: nat, term: nat, left: seq<Indexed>)
    requires Backed(store, q, mem, f) && f.first - 1 <= kept <= f.Last() && (kept >= f.first ==> term == f.TermAt(kept))
    requires left == if kept < MemStart(mem, f) then [] else mem[..kept + 1 - MemStart(mem, f)]
    ensures Backed(store, q + [CutAfter(kept, term)], left, SuffixCut(f, kept))
  {
    var t := CutAfter(kept, term);
    RunsMore(store, q, t);
    CutTermsMore(store, q, t);
    var g := SuffixCut(f, kept);
    if MemStart(left, g) > g.first { AboveMore(q, t, MemStart(mem, f), MemStart(left, g)); }
  }

  lemma InMemoryPrefixCut(mem: seq<Indexed>, f: Flat, kept: nat, left: seq<Indexed>)
    requires InMemory(mem, f) && kept >= f.first
    requires left == if kept <= MemStart(mem, f) then mem else if kept > f.Last() then [] else mem[kept - MemStart(mem, f)..]
    ensures InMemory(left, PrefixCut(f, kept))
    ensures MemStart(left, PrefixCut(f, kept)) == if kept <= MemStart(mem, f) then MemStart(mem, f) else kept
  {
    var g := PrefixCut(f, kept);
    var d := kept - f.first;
    var m := |f.log| - |mem|;
    if d <= |f.log| {
      assert g == Flat(kept, f.log[d..]);
      hide PrefixCut;
      if d <= m {
        assert left == mem && |g.log| - |mem| == m - d;
      } else {
        assert left == mem[d - m..] && |left| == |g.log|;
        forall i | 0 <= i < |left| ensures left[i] == Indexed(g.first + i, g.log[i]) {
          assert left[i] == mem[i + (d - m)];
        }
      }
    }
  }

  lemma BackedPrefixCut(store: Flat, q: seq<Task>, mem: seq<Indexed>, f: Flat, kept: nat, left: seq<Indexed>)
    requires Backed(store, q, mem, f) && kept >= f.first
    requires left == if kept <= MemStart(mem, f) then mem else if kept > f.Last() then [] else mem[kept - MemStart(mem, f)..]
    ensures Backed(store, q + [CutBefore(kept)], left, PrefixCut(f, kept))
  {
    var t := CutBefore(kept);
    RunsMore(store, q, t);
    CutTermsMore(store, q, t);
    var g := PrefixCut(f, kept);
    assert g.first == kept;
    InMemoryPrefixCut(mem, f, kept, left);
    hide InMemory, PrefixCut, Above;
    if MemStart(left, g) > g.first { AboveMore(q, t, MemStart(mem, f), MemStart(mem, f)); }
  }

  lemma BackedRestart(store: Flat, q: seq<Task>, mem: seq<Indexed>, f: Flat, next: nat)
    requires Backed(store, q, mem, f) && next >= f.first
    ensures Backed(store, q + [Restart(next)], [], Restarted(next))
  {
    RunsMore(store, q, Restart(next));
    CutTermsMore(store, q, Restart(next));
  }

  /** Working off a task does not disturb what memory relies on. */
  lemma BackedDone(store: Flat, q: seq<Task>, mem: seq<Indexed>, f: Flat)
    requires Linked(store, q, mem, f) && q != []
    ensures LogQueue.Fits(store, q[0]) && Linked(Do(store, q[0]), q[1..], mem, f)
    ensures Backed(store, q, mem, f) ==> Backed(Do(store, q[0]), q[1..], mem, f)
  {
    assert forall t :: t in q[1..] ==> t in q;
  }

  /** A storage that has caught up holds everything. */
  lemma BackedDrained(store: Flat, mem: seq<Indexed>, f: Flat)
    requires Linked(store, [], mem, f)
    ensures Backed(store, [], mem, f)
  {
  }

  lemma MemoryRank(mem: seq<Indexed>, f: Flat, i: nat)
    requires InMemory(mem, f) && i < |mem|
    ensures mem[i].index == MemStart(mem, f) + i && f.first <= mem[i].index <= f.Last()
    ensures f.At(mem[i].index) == Some(mem[i].record) && f.TermAt(mem[i].index) == mem[i].record.term
  {
  }

  /** Popping what ranks at or below `id` keeps the log readable exactly if the queue has settled everything that does. */
  lemma ClearedIff(store: Flat, q: seq<Task>, mem: seq<Indexed>, f: Flat, n: nat, id: LogId)
    requires Backed(store, q, mem, f) && n <= |mem| && Sorted(f.log)
    requires forall i :: 0 <= i < n ==> IdAtMost(LogId(mem[i].index, mem[i].record.term), id)
    requires n < |mem| ==> IdLess(id, LogId(mem[n].index, mem[n].record.term))
    ensures Linked(store, q, mem[n..], f) && (Backed(store, q, mem[n..], f) <==> LogLoss.Settled(q, f, id))
  {
    InMemoryRest(mem, f, n);
    hide Sorted, Runs, Drained, CutTermsOk, InMemory;
    var start := MemStart(mem[n..], f);
    if Backed(store, q, mem[n..], f) {
      forall index: nat | f.first <= index <= f.Last() && IdAtMost(LogId(index, f.TermAt(index)), id) ensures !Touched(q, index) {
        if index >= start {
          MemoryRank(mem, f, n);
          IdsSorted(f, mem[n].index, index);
          IdLessTrans(id, LogId(mem[n].index, mem[n].record.term), LogId(index, f.TermAt(index)));
        } else {
          AboveSettles(q, start, index);
        }
      }
    }
    if LogLoss.Settled(q, f, id) && n > 0 {
      MemoryRank(mem, f, n - 1);
      forall t | t in q ensures Spares(t, start) { assert !Touched(q, mem[n - 1].index); }
    } else if n == 0 {
      assert mem[0..] == mem;
    }
  }

  lemma InMemoryRest(mem: seq<Indexed>, f: Flat, n: nat)
    requires InMemory(mem, f) && n <= |mem|
    ensures InMemory(mem[n..], f) && MemStart(mem[n..], f) == MemStart(mem, f) + n
  {
  }

  lemma AboveSettles(q: seq<Task>, from: nat, index: nat)
    requires Above(q, from) && index < from
    ensures !Touched(q, index)
  {
    forall t | t in q ensures Spares(t, index + 1) { assert Spares(t, from); }
  }

  /** Entries at or below an id that nothing waiting can undercut may leave memory: they are on the storage. */
  lemma BackedForget(store: Flat, q: seq<Task>, mem: seq<Indexed>, f: Flat, n: nat, low: LogId)
    requires Backed(store, q, mem, f) && Ascend(q, low) && 0 < n <= |mem|
    requires IdAtMost(LogId(mem[n - 1].index, mem[n - 1].record.term), low)
    ensures Backed(store, q, mem[n..], f)
    ensures forall i :: 0 <= i < n ==> store.At(mem[i].index) == Some(mem[i].record)
  {
    var upTo := mem[n - 1].index;
    assert upTo == MemStart(mem, f) + n - 1 && f.TermAt(upTo) == mem[n - 1].record.term;
    SafeToForget(store, q, upTo, low);
    assert MemStart(mem[n..], f) == upTo + 1;
    forall i | 0 <= i < n ensures store.At(mem[i].index) == Some(mem[i].record) {
      ReadBack(store, q, mem[n..], f, mem[i].index);
    }
  }

  // ----- ranks

  lemma RankedAppend(f: Flat, applied: LogId, high: LogId, es: seq<Record>)
    requires Ranked(f, applied, high) && f.first >= 1 && Positive(es) && RisesFrom(f.Last() + 1, es, high)
    ensures var top := IdOf(f.Last() + 1, es, |es| - 1);
      IdLess(high, top) && Ranked(Appended(f, es), applied, top)
  {
    var g := Appended(f, es);
    var first := f.Last() + 1;
    var top := IdOf(first, es, |es| - 1);
    AscendTop(first, es, high, |es| - 1);
    forall i | 0 <= i < |g.log|
      ensures IdAtMost(IdOf(g.first, g.log, i), top)
      ensures g.first + i > applied.index ==> IdLess(applied, IdOf(g.first, g.log, i))
      ensures g.log[i].term > 0
    {
      if i < |f.log| {
        assert IdOf(g.first, g.log, i) == IdOf(f.first, f.log, i);
      } else {
        assert IdOf(g.first, g.log, i) == IdOf(first, es, i - |f.log|);
        AscendTop(first, es, high, i - |f.log|);
      }
    }
    forall i, j | 0 <= i < j < |g.log| ensures g.log[i].term <= g.log[j].term {
      if i < |f.log| <= j {
        assert IdAtMost(IdOf(f.first, f.log, i), high);
        AscendTop(first, es, high, j - |f.log|);
      }
    }
  }

  lemma RankedPart(f: Flat, g: Flat, applied: LogId, high: LogId, a: nat, b: nat)
    requires Ranked(f, applied, high) && a <= b <= |f.log| && g.log == f.log[a..b] && (a < b ==> g.first == f.first + a)
    ensures Ranked(g, applied, high)
  {
    forall i | 0 <= i < |g.log| ensures IdOf(g.first, g.log, i) == IdOf(f.first, f.log, a + i) && g.log[i].term > 0 {
      assert g.log[i] == f.log[a + i];
    }
  }

  lemma SuffixCutBounds(f: Flat, kept: int)
    requires f.first - 1 <= kept <= f.Last()
    ensures SuffixCut(f, kept).first == f.first && SuffixCut(f, kept).Last() == kept
  {
  }

  lemma RankedSuffixCut(f: Flat, applied: LogId, high: LogId, kept: nat)
    requires Ranked(f, applied, high) && f.first - 1 <= kept <= f.Last()
    ensures Ranked(SuffixCut(f, kept), applied, high)
  {
    RankedPart(f, SuffixCut(f, kept), applied, high, 0, kept + 1 - f.first);
  }

  lemma RankedPrefixCut(f: Flat, applied: LogId, high: LogId, kept: nat)
    requires Ranked(f, applied, high)
    ensures Ranked(PrefixCut(f, kept), applied, high)
  {
    var d := if kept <= f.first then 0 else if kept > f.Last() then |f.log| else kept - f.first;
    RankedPart(f, PrefixCut(f, kept), applied, high, d, |f.log|);
  }

  /** The applied id may move to any entry of the log, or to the one just before it. */
  lemma RankedApply(f: Flat, applied: LogId, high: LogId, id: LogId)
    requires Ranked(f, applied, high)
    requires f.first <= id.index <= f.Last() && f.TermAt(id.index) == id.term
    ensures Ranked(f, id, high)
  {
    assert id == IdOf(f.first, f.log, id.index - f.first);
  }

  lemma InLogAtMost(f: Flat, applied: LogId, high: LogId, index: nat)
    requires Ranked(f, applied, high) && f.first <= index <= f.Last()
    ensures f.TermAt(index) > 0 && IdAtMost(LogId(index, f.TermAt(index)), high)
  {
    assert LogId(index, f.TermAt(index)) == IdOf(f.first, f.log, index - f.first);
  }

  /** An entry that ranks at or below the applied id is an applied one. */
  lemma AppliedByRank(f: Flat, applied: LogId, high: LogId, index: nat)
    requires Ranked(f, applied, high) && f.first <= index <= f.Last()
    requires IdAtMost(LogId(index, f.TermAt(index)), applied)
    ensures index <= applied.index
  {
    assert LogId(index, f.TermAt(index)) == IdOf(f.first, f.log, index - f.first);
  }
}

/** The log manager of log_manager.cpp: memory in front of a storage that is written behind its back. */
module LogManagers {
  import opened Quorum
  import opened LogTypes
  import opened SegmentFormat
  import opened FlatLog
  import opened MemoryLog
  import opened LogQueue
  import opened LogFlush
  import opened LogLoss
  import opened Conflicts
  import opened LogBacking

  const BATCH_CAP: nat := 256
  const MAX_APPEND_BUFFER_SIZE: nat := 262144
  const CLEAR_CHUNK: nat := 256

  function IdMin(a: LogId, b: LogId): LogId { if IdLess(b, a) then b else a }

  /** The ids that still wait to be written rise from `low` and stay below `high`. */
  predicate InOrder(q: seq<Task>, low: LogId, high: LogId) { Ascend(q, low) && IdAtMost(Top(q, low), high) }

  /** The snapshot ids fit the log: where the log has the entry, it has the same term. */
  predicate SnapshotsFit(f: Flat, virt: LogId, snap: LogId, applied: LogId) {
    && virt.index <= snap.index <= applied.index && virt.index < f.first
    && (snap.index == 0 || f.first - 1 <= snap.index <= f.Last())
    && (f.first <= snap.index ==> f.TermAt(snap.index) == snap.term)
  }

  /** The ids of entries known to be committed rise with their indexes. */
  predicate Agree(a: LogId, b: LogId) { IdLess(a, b) <==> a.index < b.index }

  /** What is new in a request ranks above everything this log has ever held, cut or not. */
  predicate NewRise(f: Flat, applied: nat, first: nat, es: seq<Record>, high: LogId)
    requires es != [] && f.first <= first
  {
    var k := FirstConflict(f, first, es);
    Resolve(f, applied, first, es).Resolved? && k < |es| ==> RisesFrom(first + k, es[k..], high)
  }

  lemma NewPart(f: Flat, applied: nat, first: nat, es: seq<Record>, high: LogId)
    requires es != [] && f.first <= first && Positive(es) && NewRise(f, applied, first, es, high)
    requires Resolve(f, applied, first, es).Resolved?
    ensures var k := FirstConflict(f, first, es);
      k < |es| ==> es[k..] != [] && Positive(es[k..]) && RisesFrom(first + k, es[k..], high)
  {
    hide FirstConflict, Resolve;
  }

  lemma PositivePart(es: seq<Record>, k: nat)
    requires Positive(es) && k < |es|
    ensures Positive(es[k..]) && es[k..] != []
  {
  }

  predicate CutQueued(was: seq<Task>, now: seq<Task>, kept: nat) {
    |now| == |was| + 1 && now[..|was|] == was && now[|was|].CutAfter? && now[|was|].kept == kept
  }

  /** What a resolved request queues: nothing, the new entries, or a cut and then the new entries. */
  predicate Queued(was: seq<Task>, now: seq<Task>, f: Flat, first: nat, es: seq<Record>)
    requires f.first >= 1
  {
    var k := FirstConflict(f, first, es);
    if k == |es| then now == was
    else
      var n := |now| - 1;
      && n >= |was| && now[n] == Write(first + k, es[k..])
      && if first + k > f.Last() then now[..n] == was else first + k >= 1 && CutQueued(was, now[..n], first + k - 1)
  }

  lemma QueuedIs(was: seq<Task>, mid: seq<Task>, now: seq<Task>, f: Flat, first: nat, es: seq<Record>)
    requires 1 <= f.first <= first && FirstConflict(f, first, es) < |es|
    requires var k := FirstConflict(f, first, es);
      && now == mid + [Write(first + k, es[k..])]
      && if first + k <= f.Last() then CutQueued(was, mid, first + k - 1) else mid == was
    ensures Queued(was, now, f, first, es)
  {
    hide FirstConflict, CutQueued;
    assert now[..|mid|] == mid;
    CutQueuedSize(was, mid);
  }

  lemma CutQueuedSize(was: seq<Task>, mid: seq<Task>)
    ensures forall kept: nat :: CutQueued(was, mid, kept) ==> |mid| > |was|
  {
  }

  lemma QueuedNone(was: seq<Task>, f: Flat, first: nat, es: seq<Record>)
    requires 1 <= f.first && FirstConflict(f, first, es) == |es|
    ensures Queued(was, was, f, first, es)
  {
  }

  datatype Outcome = Stored | GapFound | Unchanged | Aborted

  function Answer(v: Verdict): Outcome {
    match v
    case Resolved(_) => Stored
    case Gap => GapFound
    case AlreadyApplied => Unchanged
    case Fatal => Aborted
  }

  /** What matches by term is in the log, so the first conflict lies at most one past its end. */
  lemma ConflictInLog(f: Flat, first: nat, es: seq<Record>)
    requires Positive(es) && f.first <= first <= f.Last()
    ensures first + FirstConflict(f, first, es) <= f.Last() + 1
  {
    var k := FirstConflict(f, first, es);
    if k > 0 { assert f.TermAt(first + (k - 1)) == es[k - 1].term > 0; }
  }

  lemma DiskStep(store: Flat, q: seq<Task>, mem: seq<Indexed>, f: Flat)
    requires Linked(store, q, mem, f) && q != []
    ensures LogQueue.Fits(store, q[0]) && Linked(Do(store, q[0]), q[1..], mem, f)
    ensures Backed(store, q, mem, f) ==> Backed(Do(store, q[0]), q[1..], mem, f)
  {
    BackedDone(store, q, mem, f);
  }

  lemma DiskRanks(store: Flat, q: seq<Task>, low: LogId, high: LogId)
    requires Runs(store, q) && InOrder(q, low, high) && q != []
    ensures InOrder(q[1..], Raise(q[0], low), high) && IdAtMost(low, Raise(q[0], low))
  {
    AscendRest(q, low);
    if q[0].Write? { AscendTop(q[0].first, q[0].es, low, |q[0].es| - 1); }
  }

  lemma Forgotten(store: Flat, q: seq<Task>, mem: seq<Indexed>, f: Flat, n: nat, low: LogId, high: LogId,
                  id: LogId, applied: LogId)
    requires Backed(store, q, mem, f) && InOrder(q, low, high) && Ranked(f, applied, high)
    requires IdAtMost(id, low) && IdAtMost(id, applied) && 0 < n <= |mem|
    requires forall i :: 0 <= i < n ==> IdAtMost(LogId(mem[i].index, mem[i].record.term), id)
    ensures Backed(store, q, mem[n..], f)
    ensures forall i :: 0 <= i < n ==> store.At(mem[i].index) == Some(mem[i].record) && mem[i].index <= applied.index
  {
    BackedMemory(store, q, mem, f);
    IdLessTrans(LogId(mem[n - 1].index, mem[n - 1].record.term), id, low);
    BackedForget(store, q, mem, f, n, low);
    hide Backed, Ranked;
    forall i | 0 <= i < n ensures mem[i].index <= applied.index {
      IdLessTrans(LogId(mem[i].index, mem[i].record.term), id, applied);
      AppliedByRank(f, applied, high, mem[i].index);
    }
  }

  /** Once popped: readable exactly if the waiting writes leave nothing at or below `id`. */
  lemma Popped(store: Flat, q: seq<Task>, mem: seq<Indexed>, f: Flat, n: nat, id: LogId)
    requires Backed(store, q, mem, f) && n <= |mem|
    requires forall i :: 0 <= i < n ==> IdAtMost(LogId(mem[i].index, mem[i].record.term), id)
    requires n < |mem| ==> IdLess(id, LogId(mem[n].index, mem[n].record.term))
    ensures Linked(store, q, mem[n..], f)
    ensures Sorted(f.log) ==> (Backed(store, q, mem[n..], f) <==> WritesAbove(q, f, id))
  {
    InMemoryRest(mem, f, n);
    if Sorted(f.log) {
      ClearedIff(store, q, mem, f, n, id);
      SettledIff(store, q, id);
    }
  }

  lemma RisingForgets(store: Flat, q: seq<Task>, mem: seq<Indexed>, f: Flat, n: nat, low: LogId, high: LogId, disk: LogId,
                      last: LogId, applied: LogId, snap: LogId, virt: LogId, id: LogId)
    requires Backed(store, q, mem, f) && Ranks(q, f, low, high, disk, last, applied, snap, virt)
    requires IdAtMost(id, low) && IdAtMost(id, applied) && n <= |mem|
    requires forall i :: 0 <= i < n ==> IdAtMost(LogId(mem[i].index, mem[i].record.term), id)
    ensures Backed(store, q, mem[n..], f) && SafelyLeft(mem, mem[n..], n, store, applied.index)
  {
    if n > 0 {
      Forgotten(store, q, mem, f, n, low, high, id, applied);
    } else {
      assert mem[0..] == mem;
    }
  }

  lemma RanksStep(store: Flat, q: seq<Task>, f: Flat, low: LogId, high: LogId, disk: LogId, last: LogId, applied: LogId, snap: LogId, virt: LogId)
    requires Runs(store, q) && Ranks(q, f, low, high, disk, last, applied, snap, virt) && q != []
    ensures Ranks(q[1..], f, Raise(q[0], low), high, disk, Following([q[0]], last), applied, snap, virt)
  {
    DiskRanks(store, q, low, high);
    FollowingAtMost(q[0], last, low);
    IdLessTrans(disk, low, Raise(q[0], low));
  }

  lemma RanksAsk(q: seq<Task>, f: Flat, low: LogId, high: LogId, disk: LogId, last: LogId, applied: LogId, snap: LogId, virt: LogId)
    requires Ranks(q, f, low, high, disk, last, applied, snap, virt)
    ensures Ranks(q + [AskLastId], f, low, high, disk, last, applied, snap, virt)
  {
    InOrderOther(q, low, high, AskLastId);
  }

  lemma BackedLinked(store: Flat, q: seq<Task>, mem: seq<Indexed>, f: Flat)
    requires Backed(store, q, mem, f)
    ensures Linked(store, q, mem, f)
  {
  }

  lemma BackedAsk(store: Flat, q: seq<Task>, mem: seq<Indexed>, f: Flat)
    requires Backed(store, q, mem, f)
    ensures Backed(store, q + [AskLastId], mem, f)
  {
    RunsMore(store, q, AskLastId);
    CutTermsMore(store, q, AskLastId);
    if MemStart(mem, f) > f.first { AboveMore(q, AskLastId, MemStart(mem, f), MemStart(mem, f)); }
  }

  lemma FollowingAtMost(t: Task, id: LogId, low: LogId)
    requires IdAtMost(id, low) && IdAtMost(low, Raise(t, low))
    ensures IdAtMost(Following([t], id), Raise(t, low))
  {
    assert [t][..0] == [] && Following([], id) == id;
  }

  /** Where the disk thread stands after `i` tasks of `q`. */
  predicate Reached(s0: Flat, q: seq<Task>, id0: LogId, i: nat, now: Flat, nowId: LogId, rest: seq<Task>, told: seq<Option<LogId>>) {
    && Runs(s0, q) && i == |told| <= |q| && rest == q[i..]
    && now == After(s0, q, i) && nowId == Following(q[..i], id0) && Told(told, q, id0)
  }

  lemma StartDisk(store: Flat, q: seq<Task>, id: LogId)
    requires Runs(store, q)
    ensures Reached(store, q, id, 0, store, id, q, []) && Pending(store, [], 0, id, store, id)
  {
    assert q[0..] == q && q[..0] == [];
  }

  lemma ReachedFacts(s0: Flat, q: seq<Task>, id0: LogId, i: nat, now: Flat, nowId: LogId, rest: seq<Task>, told: seq<Option<LogId>>)
    requires Reached(s0, q, id0, i, now, nowId, rest, told)
    ensures i <= |q| && Runs(s0, q) && rest == q[i..] && (i < |q| ==> rest != [] && rest[0] == q[i])
    ensures now == After(s0, q, i) && nowId == Following(q[..i], id0) && Told(told, q, id0)
  {
  }

  lemma ReachedNext(s0: Flat, q: seq<Task>, id0: LogId, i: nat, now: Flat, nowId: LogId, rest: seq<Task>, told: seq<Option<LogId>>,
                    answer: Option<LogId>)
    requires Reached(s0, q, id0, i, now, nowId, rest, told) && i < |q| && LogQueue.Fits(now, q[i])
    requires answer == if q[i].AskLastId? then Some(nowId) else None
    ensures Reached(s0, q, id0, i + 1, Do(now, q[i]), Following([q[i]], nowId), rest[1..], told + [answer])
  {
    AfterNext(s0, q, i);
    FollowingNext(q, i, id0);
    ToldNext(told, q, id0, answer);
    assert rest[1..] == q[i + 1..];
  }

  lemma LinkedRuns(store: Flat, q: seq<Task>, mem: seq<Indexed>, f: Flat)
    requires Linked(store, q, mem, f)
    ensures Runs(store, q) && Drained(store, q) == f
  {
  }

  /** The first `n` entries have left memory, each of them on the storage and applied. */
  ghost predicate SafelyLeft(mem: seq<Indexed>, left: seq<Indexed>, n: nat, store: Flat, applied: nat) {
    && n <= |mem| && left == mem[n..]
    && forall i :: 0 <= i < n ==> store.At(mem[i].index) == Some(mem[i].record) && mem[i].index <= applied
  }

  /** What the asks among the first tasks are told. */
  predicate Told(told: seq<Option<LogId>>, q: seq<Task>, id: LogId) {
    && |told| <= |q|
    && forall i :: 0 <= i < |told| ==> told[i] == if q[i].AskLastId? then Some(Following(q[..i], id)) else None
  }

  lemma ToldNext(told: seq<Option<LogId>>, q: seq<Task>, id: LogId, answer: Option<LogId>)
    requires Told(told, q, id) && |told| < |q|
    requires answer == if q[|told|].AskLastId? then Some(Following(q[..|told|], id)) else None
    ensures Told(told + [answer], q, id)
  {
  }

  /** With the gathered entries written, the storage and its last id are what the tasks so far ask for. */
  predicate Pending(store: Flat, gathered: seq<Record>, first: nat, lastId: LogId, now: Flat, nowId: LogId) {
    && now == Appended(store, gathered)
    && nowId == (if gathered == [] then lastId else IdOf(first, gathered, |gathered| - 1))
    && (gathered != [] ==> first == store.Last() + 1)
  }

  lemma PendingGather(store: Flat, gathered: seq<Record>, first: nat, lastId: LogId, now: Flat, nowId: LogId, t: Task)
    requires Pending(store, gathered, first, lastId, now, nowId) && t.Write? && LogQueue.Fits(now, t)
    ensures Pending(store, gathered + t.es, if gathered == [] then t.first else first, lastId, Do(now, t), Following([t], nowId))
  {
    assert (store.log + gathered) + t.es == store.log + (gathered + t.es);
  }

  lemma PendingNothing(store: Flat, first: nat, lastId: LogId, t: Task)
    ensures Pending(store, [], first, lastId, store, lastId)
    ensures !t.Write? ==> Following([t], lastId) == if t.CutAfter? then LogId(t.kept, t.term) else lastId
    ensures t.Write? && t.es != [] ==> Following([t], lastId) == IdOf(t.first, t.es, |t.es| - 1)
  {
    assert [t][..0] == [] && Following([], lastId) == lastId;
  }

  lemma SnapshotsFitAfter(f: Flat, virt: LogId, snap: LogId, applied: LogId, id: LogId)
    requires SnapshotsFit(f, virt, snap, applied) && f.first >= 1
    requires id.index > snap.index && id.index + 1 >= f.first && Agree(applied, id) && Agree(id, applied)
    ensures var term := f.TermAt(id.index);
      var virt' := if term == 0 || term != id.term then id else if snap.index > 0 then snap else virt;
      SnapshotsFit(SnapshotCut(f, snap, id), virt', id, IdMax(applied, id))
  {
  }

  /** The entries that stay in front of a snapshot id rank above it. */
  predicate SnapshotRises(f: Flat, id: LogId) {
    forall i :: 0 <= i < |f.log| && f.first == id.index + 1 ==> IdLess(id, IdOf(f.first, f.log, i))
  }

  /** Taking a snapshot id into account moves `high` and the applied id up without breaking the order of ids. */
  lemma RaiseRanks(f: Flat, applied: LogId, high: LogId, id: LogId)
    requires Ranked(f, applied, high) && (f.TermAt(id.index) == 0 || f.TermAt(id.index) == id.term)
    requires Agree(applied, id) && Agree(id, applied) && id.index + 1 >= f.first && SnapshotRises(f, id)
    ensures Ranked(f, IdMax(applied, id), IdMax(high, id))
  {
  }

  /** Everything about the order of ids that forgetting relies on. */
  predicate Ranks(q: seq<Task>, f: Flat, low: LogId, high: LogId, disk: LogId, last: LogId, applied: LogId, snap: LogId, virt: LogId) {
    && Ranked(f, applied, high) && InOrder(q, low, high) && IdAtMost(disk, low) && IdAtMost(last, low)
    && IdAtMost(snap, high) && IdAtMost(virt, high)
  }

  lemma RanksWrite(q: seq<Task>, f: Flat, low: LogId, high: LogId, disk: LogId, last: LogId, applied: LogId, snap: LogId, virt: LogId, es: seq<Record>)
    requires Ranks(q, f, low, high, disk, last, applied, snap, virt) && f.first >= 1 && Positive(es) && RisesFrom(f.Last() + 1, es, high)
    ensures Ranks(q + [Write(f.Last() + 1, es)], Appended(f, es), low, IdOf(f.Last() + 1, es, |es| - 1), disk, last, applied, snap, virt)
  {
    RankedAppend(f, applied, high, es);
    InOrderWrite(q, low, high, f.Last() + 1, es);
    hide Ranked, InOrder, RisesFrom;
    IdLessTrans(snap, high, IdOf(f.Last() + 1, es, |es| - 1));
    IdLessTrans(virt, high, IdOf(f.Last() + 1, es, |es| - 1));
  }

  lemma RanksCut(q: seq<Task>, f: Flat, low: LogId, high: LogId, disk: LogId, last: LogId, applied: LogId, snap: LogId, virt: LogId, kept: nat, term: nat)
    requires Ranks(q, f, low, high, disk, last, applied, snap, virt) && f.first - 1 <= kept < f.Last()
    requires kept >= f.first ==> term == f.TermAt(kept)
    requires kept < f.first ==> term == 0 || LogId(kept, term) == virt || LogId(kept, term) == snap
    ensures Ranks(q + [CutAfter(kept, term)], SuffixCut(f, kept), low, high, disk, last, applied, snap, virt)
  {
    CutIdAtMost(f, applied, high, kept, term, snap, virt);
    InOrderOther(q, low, high, CutAfter(kept, term));
    RankedSuffixCut(f, applied, high, kept);
  }

  lemma CutIdAtMost(f: Flat, applied: LogId, high: LogId, kept: nat, term: nat, snap: LogId, virt: LogId)
    requires Ranked(f, applied, high) && f.first - 1 <= kept < f.Last() && IdAtMost(snap, high) && IdAtMost(virt, high)
    requires kept >= f.first ==> term == f.TermAt(kept)
    requires kept < f.first ==> term == 0 || LogId(kept, term) == virt || LogId(kept, term) == snap
    ensures IdAtMost(LogId(kept, term), high)
  {
    hide Ranked;
    InLogAtMost(f, applied, high, if kept >= f.first then kept else f.first);
  }

  lemma RanksPrefixCut(q: seq<Task>, f: Flat, low: LogId, high: LogId, disk: LogId, last: LogId, applied: LogId, snap: LogId, virt: LogId, kept: nat)
    requires Ranks(q, f, low, high, disk, last, applied, snap, virt)
    ensures Ranks(q + [CutBefore(kept)], PrefixCut(f, kept), low, high, disk, last, applied, snap, virt)
  {
    InOrderOther(q, low, high, CutBefore(kept));
    RankedPrefixCut(f, applied, high, kept);
  }

  lemma RanksRestart(q: seq<Task>, f: Flat, low: LogId, high: LogId, disk: LogId, last: LogId, applied: LogId, snap: LogId, virt: LogId, next: nat)
    requires Ranks(q, f, low, high, disk, last, applied, snap, virt)
    ensures Ranks(q + [Restart(next)], Restarted(next), low, high, disk, last, applied, snap, virt)
  {
    InOrderOther(q, low, high, Restart(next));
  }

  /** A snapshot id raises what all ids are compared with; the log is either consistent with it or about to be emptied. */
  lemma RanksSnapshot(q: seq<Task>, f: Flat, low: LogId, high: LogId, disk: LogId, last: LogId, applied: LogId, snap: LogId, virt: LogId, id: LogId)
    requires Ranks(q, f, low, high, disk, last, applied, snap, virt) && SnapshotRises(f, id)
    requires Agree(applied, id) && Agree(id, applied) && id.index + 1 >= f.first
    ensures IdAtMost(snap, IdMax(high, id))
    ensures Ranks(q, if f.TermAt(id.index) == 0 || f.TermAt(id.index) == id.term then f else Restarted(id.index + 1),
                  low, IdMax(high, id), disk, last, IdMax(applied, id), id, virt)
  {
    if f.TermAt(id.index) == 0 || f.TermAt(id.index) == id.term { RaiseRanks(f, applied, high, id); }
    hide Ascend, Top;
  }

  lemma RanksVirtual(q: seq<Task>, f: Flat, low: LogId, high: LogId, disk: LogId, last: LogId, applied: LogId, snap: LogId, virt: LogId, v: LogId)
    requires Ranks(q, f, low, high, disk, last, applied, snap, virt) && (v == snap || IdAtMost(v, high))
    ensures Ranks(q, f, low, high, disk, last, applied, snap, v)
  {
  }

  function DataSize(es: seq<Record>): nat {
    if es == [] then 0 else DataSize(es[..|es| - 1]) + |es[|es| - 1].data|
  }

  /** The log after a snapshot at `id` is known, the one before having been at `last`. */
  function SnapshotCut(f: Flat, last: LogId, id: LogId): Flat {
    if f.TermAt(id.index) == 0 then PrefixCut(f, id.index + 1)
    else if f.TermAt(id.index) != id.term then Restarted(id.index + 1)
    else if last.index > 0 then PrefixCut(f, last.index + 1)
    else f
  }

  /** `g` begins at `first`, and from there on reads as `f` does. */
  ghost predicate CutAt(f: Flat, g: Flat, first: nat) {
    g.first == first && forall index: int :: index >= first ==> g.At(index) == f.At(index)
  }

  lemma PrefixCutIs(f: Flat, kept: nat)
    requires kept >= f.first
    ensures CutAt(f, PrefixCut(f, kept), kept)
  {
    hide PrefixCut;
    forall index: int | index >= kept ensures PrefixCut(f, kept).At(index) == f.At(index) { PrefixCutAt(f, kept, index); }
    PrefixCutAt(f, kept, kept);
  }

  /**
   What a snapshot at `id` leaves of the log. If the log has that entry, everything behind the snapshot before stays for followers
   that still need it; if it does not reach that far, everything behind the new one; if it contradicts the snapshot, nothing.
   */
  ghost predicate LeftBySnapshot(f: Flat, g: Flat, last: LogId, id: LogId) {
    var term := f.TermAt(id.index);
    if term == 0 then CutAt(f, g, id.index + 1)
    else if term != id.term then g == Flat(id.index + 1, [])
    else if last.index > 0 then CutAt(f, g, last.index + 1)
    else g == f
  }

  lemma SnapshotLeaves(f: Flat, last: LogId, id: LogId)
    requires id.index + 1 >= f.first && (last.index > 0 ==> last.index + 1 >= f.first)
    ensures LeftBySnapshot(f, SnapshotCut(f, last, id), last, id)
  {
    PrefixCutIs(f, id.index + 1);
    if last.index > 0 { PrefixCutIs(f, last.index + 1); }
  }

  lemma InOrderWrite(q: seq<Task>, low: LogId, high: LogId, first: nat, es: seq<Record>)
    requires InOrder(q, low, high) && RisesFrom(first, es, high)
    ensures InOrder(q + [Write(first, es)], low, IdOf(first, es, |es| - 1)) && IdLess(high, IdOf(first, es, |es| - 1))
  {
    IdLessTrans(Top(q, low), high, IdOf(first, es, 0));
    AscendTop(first, es, high, |es| - 1);
    AscendMore(q, low, Write(first, es));
  }

  lemma InOrderOther(q: seq<Task>, low: LogId, high: LogId, t: Task)
    requires InOrder(q, low, high) && !t.Write? && (t.CutAfter? ==> IdAtMost(LogId(t.kept, t.term), high))
    ensures InOrder(q + [t], low, high)
  {
    AscendMore(q, low, t);
  }

  lemma SnapshotsFitAppend(f: Flat, es: seq<Record>, virt: LogId, snap: LogId, applied: LogId)
    requires SnapshotsFit(f, virt, snap, applied)
    ensures SnapshotsFit(Appended(f, es), virt, snap, applied)
  {
  }

  lemma SnapshotsFitCut(f: Flat, kept: nat, virt: LogId, snap: LogId, applied: LogId)
    requires SnapshotsFit(f, virt, snap, applied) && f.first - 1 <= kept <= f.Last() && applied.index <= kept
    ensures SnapshotsFit(SuffixCut(f, kept), virt, snap, applied)
  {
  }

  class LogManager {
    var firstLogIndex: nat
    var lastLogIndex: int
    var memory: seq<Indexed>
    var storage: Flat
    var queue: seq<Task>
    var diskId: LogId
    var lastId: LogId
    var appliedId: LogId
    var snapshotId: LogId
    var virtualFirst: LogId
    /** The one log that all of this stands for. */
    ghost var log: Flat
    /** As long as `rising` holds, no waiting entry ranks at or below `low`, and nothing ever held ranks above `high`. */
    ghost var rising: bool
    ghost var low: LogId
    ghost var high: LogId

    ghost predicate RanksOk() reads this {
      rising ==> Ranks(queue, log, low, high, diskId, lastId, appliedId, snapshotId, virtualFirst)
    }

    ghost predicate Framed() reads this {
      && firstLogIndex == log.first >= 1 && lastLogIndex == log.Last()
      && Linked(storage, queue, memory, log) && RanksOk()
    }

    /** The objects belong together, whatever has left memory. */
    ghost predicate Held() reads this {
      Framed() && SnapshotsFit(log, virtualFirst, snapshotId, appliedId)
    }

    /** Besides, every entry of the log can be read. */
    ghost predicate Valid() reads this { Held() && Backed(storage, queue, memory, log) }

    /** Starts on what the storage recovered. */
    constructor (recovered: Flat)
      requires recovered.first >= 1 && Positive(recovered.log)
      ensures Valid() && log == recovered && storage == recovered && queue == [] && memory == []
      ensures diskId == lastId && diskId.term == recovered.TermAt(recovered.Last()) && diskId.index == recovered.Last()
      ensures appliedId == snapshotId == LogId(0, 0) && (rising <==> Sorted(recovered.log))
    {
      firstLogIndex, lastLogIndex, memory, storage, queue := recovered.first, recovered.Last(), [], recovered, [];
      var last := LogId(recovered.first + |recovered.log| - 1, recovered.TermAt(recovered.Last()));
      diskId, lastId, low, high := last, last, last, last;
      appliedId, snapshotId, virtualFirst := LogId(0, 0), LogId(0, 0), LogId(0, 0);
      log, rising := recovered, Sorted(recovered.log);
    }

    function FromMemory(index: int): Option<Record>
      reads this
    {
      if memory != [] && memory[0].index <= index <= memory[|memory| - 1].index && index - memory[0].index < |memory|
      then Some(memory[index - memory[0].index].record)
      else None
    }

    lemma FromMemoryIs(index: int)
      requires Linked(storage, queue, memory, log)
      ensures FromMemory(index) == if index >= MemStart(memory, log) then log.At(index) else None
    {
    }

    /** Every index of the log can be read, and reads as the entry the log has there. */
    method GetEntry(index: nat) returns (r: Option<Record>)
      requires Held()
      ensures Valid() ==> r == log.At(index)
      ensures r == if index < log.first || index > log.Last() then None
                   else if index >= MemStart(memory, log) then log.At(index) else storage.At(index)
    {
      hide Ranks, SnapshotsFit, Backed, Linked;
      if index > lastLogIndex || index < firstLogIndex { return None; }
      r := FromMemory(index);
      FromMemoryIs(index);
      if r.None? {
        r := storage.At(index);
        if Valid() { ReadBack(storage, queue, memory, log, index); }
      }
    }

    method GetTerm(index: nat) returns (t: nat)
      requires Valid()
      ensures index >= log.first ==> t == log.TermAt(index)
      ensures index < log.first ==>
        t == if index == 0 then 0 else if index == virtualFirst.index then virtualFirst.term
             else if index == snapshotId.index then snapshotId.term else 0
    {
      hide Ranks, Backed, Linked;
      if index == 0 { return 0; }
      if index == virtualFirst.index { return virtualFirst.term; }
      if index == snapshotId.index { return snapshotId.term; }
      if index > lastLogIndex || index < firstLogIndex { return 0; }
      var r := FromMemory(index);
      FromMemoryIs(index);
      if r.Some? { return r.value.term; }
      ReadBack(storage, queue, memory, log, index);
      t := storage.TermAt(index);
    }

    method FindConflict(first: nat, es: seq<Record>) returns (k: nat)
      requires Valid() && first >= log.first
      ensures k == FirstConflict(log, first, es)
    {
      hide Valid;
      k := 0;
      while k < |es|
        invariant k <= |es| && forall i :: 0 <= i < k ==> log.TermAt(first + i) == es[i].term
      {
        var t := GetTerm(first + k);
        if t != es[k].term { break; }
        k := k + 1;
      }
    }

    method Push(es: seq<Record>)
      requires Valid() && es != [] && Positive(es)
      modifies this`memory, this`queue, this`lastLogIndex, this`high, this`log, this`rising
      ensures Valid() && log == Appended(old(log), es)
      ensures queue == old(queue) + [Write(old(log).Last() + 1, es)]
      ensures rising == (old(rising) && RisesFrom(old(log).Last() + 1, es, old(high)))
    {
      hide Backed, Linked, Ranks, SnapshotsFit, RisesFrom;
      BackedAppend(storage, queue, memory, log, es);
      BackedLinked(storage, queue + [Write(log.Last() + 1, es)], memory + Numbered(log.Last() + 1, es), Appended(log, es));
      SnapshotsFitAppend(log, es, virtualFirst, snapshotId, appliedId);
      ghost var rises := rising && RisesFrom(log.Last() + 1, es, high);
      if rises { RanksWrite(queue, log, low, high, diskId, lastId, appliedId, snapshotId, virtualFirst, es); }
      var first: nat := (lastLogIndex + 1) as nat;
      memory := memory + Numbered(first, es);
      queue := queue + [Write(first, es)];
      lastLogIndex := lastLogIndex + |es|;
      rising, high := rises, if rises then IdOf(first, es, |es| - 1) else high;
      log := Appended(log, es);
    }

    method DropBack(kept: nat)
      requires InMemory(memory, log)
      modifies this`memory
      ensures var start := MemStart(old(memory), log);
        memory == if kept < start then [] else if kept >= log.Last() then old(memory) else old(memory)[..kept + 1 - start]
    {
      ghost var start := MemStart(memory, log);
      while memory != [] && memory[|memory| - 1].index > kept
        invariant |memory| <= |old(memory)| && memory == old(memory)[..|memory|]
        invariant |memory| == |old(memory)| || start + |memory| - 1 >= kept
        decreases |memory|
      {
        memory := memory[..|memory| - 1];
      }
    }

    method DropFront(kept: nat)
      requires InMemory(memory, log)
      modifies this`memory
      ensures var start := MemStart(old(memory), log);
        memory == if kept <= start then old(memory) else if kept > log.Last() then [] else old(memory)[kept - start..]
    {
      ghost var start := MemStart(memory, log);
      while memory != [] && memory[0].index < kept
        invariant |memory| <= |old(memory)| && memory == old(memory)[|old(memory)| - |memory|..]
        invariant |memory| == |old(memory)| || log.Last() + 1 - |memory| <= kept
        decreases |memory|
      {
        memory := memory[1..];
      }
    }

    /** Cuts the log after `kept`; refuses, as the source aborts, to cut what is applied. */
    method UnsafeTruncateSuffix(kept: nat) returns (fatal: bool)
      requires Valid() && log.first - 1 <= kept < log.Last()
      modifies this`memory, this`queue, this`lastLogIndex, this`log
      ensures Valid() && (fatal <==> kept < appliedId.index)
      ensures log == if fatal then old(log) else SuffixCut(old(log), kept)
      ensures if fatal then queue == old(queue) else CutQueued(old(queue), queue, kept)
    {
      hide Backed, Linked, Ranks, SnapshotsFit, SuffixCut, InMemory;
      if kept < appliedId.index { return true; }
      var term := GetTerm(kept);
      BackedMemory(storage, queue, memory, log);
      DropBack(kept);
      BackedSuffixCut(storage, queue, old(memory), log, kept, term, memory);
      BackedLinked(storage, queue + [CutAfter(kept, term)], memory, SuffixCut(log, kept));
      if rising { RanksCut(queue, log, low, high, diskId, lastId, appliedId, snapshotId, virtualFirst, kept, term); }
      SnapshotsFitCut(log, kept, virtualFirst, snapshotId, appliedId);
      SuffixCutBounds(log, kept);
      lastLogIndex := kept;
      queue := queue + [CutAfter(kept, term)];
      log := SuffixCut(log, kept);
      fatal := false;
    }

    /** Makes room for a leader's request; `k` entries of it are here already. */
    method CheckAndResolveConflict(first: nat, es: seq<Record>) returns (r: Outcome, k: nat)
      requires Valid() && es != [] && Positive(es) && log.first <= first
      modifies this`memory, this`queue, this`lastLogIndex, this`log
      ensures Valid()
      ensures r == Answer(Resolve(old(log), appliedId.index, first, es))
      ensures r != Stored ==> log == old(log) && queue == old(queue)
      ensures r == Stored ==>
        && k == FirstConflict(old(log), first, es)
        && if k == |es| then log == old(log) == Resolve(old(log), appliedId.index, first, es).log
           else first + k == log.Last() + 1 && Appended(log, es[k..]) == Resolve(old(log), appliedId.index, first, es).log
      ensures r == Stored ==>
        if k < |es| && first + k <= old(log).Last() then CutQueued(old(queue), queue, first + k - 1) else queue == old(queue)
    {
      ghost var f := log;
      assert firstLogIndex == f.first && lastLogIndex == f.Last();
      hide Valid, Held, Framed;
      k := 0;
      if first > lastLogIndex + 1 { return GapFound, 0; }
      if first + |es| - 1 <= appliedId.index { return Unchanged, 0; }
      if first == lastLogIndex + 1 {
        assert f.TermAt(first) != es[0].term;
        assert es[0..] == es;
      } else {
        k := FindConflict(first, es);
        ConflictInLog(f, first, es);
        if k < |es| && first + k <= lastLogIndex {
          var fatal := UnsafeTruncateSuffix(first + k - 1);
          if fatal { return Aborted, k; }
          SuffixCutBounds(f, first + k - 1);
        }
      }
      r := Stored;
    }

    lemma StartsAtOne()
      requires Valid()
      ensures log.first >= 1
    {
    }

    /** Fits in what a leader has sent. */
    method ReceiveEntries(first: nat, es: seq<Record>) returns (r: Outcome)
      requires Valid() && es != [] && Positive(es) && log.first <= first
      modifies this`memory, this`queue, this`lastLogIndex, this`high, this`log, this`rising
      ensures Valid()
      ensures var v := Resolve(old(log), appliedId.index, first, es);
        r == Answer(v) && log == if v.Resolved? then v.log else old(log)
      ensures if r == Stored then Queued(old(queue), queue, old(log), first, es) else queue == old(queue)
      ensures old(rising) && NewRise(old(log), appliedId.index, first, es, old(high)) ==> rising
    {
      hide Valid, Resolve, FirstConflict, NewRise, RisesFrom, Positive, Appended, CutQueued, Queued;
      StartsAtOne();
      ghost var f, was := log, queue;
      var k: nat;
      r, k := CheckAndResolveConflict(first, es);
      if r == Stored && k < |es| {
        PositivePart(es, k);
        if NewRise(f, appliedId.index, first, es, high) { NewPart(f, appliedId.index, first, es, high); }
        ghost var mid := queue;
        Push(es[k..]);
        QueuedIs(was, mid, queue, f, first, es);
      } else if r == Stored {
        QueuedNone(was, f, first, es);
      }
    }

    /** Appends the leader's own entries at the end (`first` is 0), or fits in what a leader has sent. */
    method AppendEntries(first: nat, es: seq<Record>) returns (r: Outcome)
      requires Valid() && es != [] && Positive(es) && (first > 0 ==> log.first <= first)
      modifies this`memory, this`queue, this`lastLogIndex, this`high, this`log, this`rising
      ensures Valid()
      ensures first == 0 ==> r == Stored && log == Appended(old(log), es) && queue == old(queue) + [Write(old(log).Last() + 1, es)]
      ensures first > 0 ==>
        var v := Resolve(old(log), appliedId.index, first, es);
        r == Answer(v) && log == if v.Resolved? then v.log else old(log)
      ensures first > 0 ==> if r == Stored then Queued(old(queue), queue, old(log), first, es) else queue == old(queue)
      ensures first == 0 && old(rising) && RisesFrom(old(log).Last() + 1, es, old(high)) ==> rising
      ensures first > 0 && old(rising) && NewRise(old(log), appliedId.index, first, es, old(high)) ==> rising
    {
      hide Resolve, FirstConflict, NewRise, RisesFrom, Positive, Appended, Queued, Linked, Backed, Ranks, SnapshotsFit;
      if first == 0 {
        Push(es);
        return Stored;
      }
      r := ReceiveEntries(first, es);
    }

    /** Pops entries off the front of memory, a chunk at a time, until one ranks above `id`. */
    method PopUpTo(id: LogId) returns (ghost n: nat)
      modifies this`memory
      ensures n <= |old(memory)| && memory == old(memory)[n..]
      ensures memory == [] || IdLess(id, LogId(memory[0].index, memory[0].record.term))
      ensures forall i :: 0 <= i < n ==> IdAtMost(LogId(old(memory)[i].index, old(memory)[i].record.term), id)
    {
      n := 0;
      ghost var mem := memory;
      var full := true;
      while full
        invariant n <= |mem| && memory == mem[n..]
        invariant forall i :: 0 <= i < n ==> IdAtMost(LogId(mem[i].index, mem[i].record.term), id)
        invariant full || memory == [] || IdLess(id, LogId(memory[0].index, memory[0].record.term))
        decreases |memory| + if full then 1 else 0
      {
        var cleared := 0;
        ghost var before := |memory|;
        while memory != [] && cleared < CLEAR_CHUNK
          invariant n <= |mem| && memory == mem[n..] && cleared <= CLEAR_CHUNK
          invariant |memory| + cleared == before
          invariant forall i :: 0 <= i < n ==> IdAtMost(LogId(mem[i].index, mem[i].record.term), id)
          decreases |memory|
        {
          if IdLess(id, LogId(memory[0].index, memory[0].record.term)) { break; }
          memory := memory[1..];
          cleared, n := cleared + 1, n + 1;
        }
        full := cleared == CLEAR_CHUNK;
      }
    }

    /**
     What leaves memory ranks at or below `id`. The log stays readable exactly if what every waiting write leaves begins
     above `id`; while ids rise it does, and what has left is both on the storage and applied.
     */
    method ClearMemoryLogs(id: LogId) returns (ghost n: nat)
      requires Valid()
      modifies this`memory
      ensures Held() && n <= |old(memory)| && memory == old(memory)[n..]
      ensures memory == [] || IdLess(id, LogId(memory[0].index, memory[0].record.term))
      ensures forall i :: 0 <= i < n ==> IdAtMost(LogId(old(memory)[i].index, old(memory)[i].record.term), id)
      ensures Sorted(log.log) ==> (Valid() <==> WritesAbove(queue, log, id))
      ensures rising && IdAtMost(id, low) && IdAtMost(id, appliedId) ==>
        Valid() && SafelyLeft(old(memory), memory, n, storage, appliedId.index)
    {
      hide Backed, Linked, Ranks, SnapshotsFit, Sorted, WritesAbove;
      ghost var mem := memory;
      n := PopUpTo(id);
      Popped(storage, queue, mem, log, n, id);
      if rising && IdAtMost(id, low) && IdAtMost(id, appliedId) {
        RisingForgets(storage, queue, mem, log, n, low, high, diskId, lastId, appliedId, snapshotId, virtualFirst, id);
      }
    }

    method SetDiskId(id: LogId) returns (ghost n: nat)
      requires Valid() && (rising ==> IdAtMost(id, low))
      modifies this`diskId, this`memory
      ensures Held() && diskId == IdMax(old(diskId), id) && n <= |old(memory)| && memory == old(memory)[n..]
      ensures IdLess(id, old(diskId)) ==> Valid() && n == 0
      ensures !IdLess(id, old(diskId)) && Sorted(log.log) ==> (Valid() <==> WritesAbove(queue, log, IdMin(diskId, appliedId)))
      ensures rising ==> Valid() && SafelyLeft(old(memory), memory, n, storage, appliedId.index)
    {
      hide Backed, Linked, SnapshotsFit, Sorted, WritesAbove, Ranked, InOrder;
      if IdLess(id, diskId) { return 0; }
      diskId := id;
      n := ClearMemoryLogs(IdMin(diskId, appliedId));
    }

    /** The applied id moves to an entry of the log; a lower one is ignored. */
    method SetAppliedId(id: LogId) returns (ghost n: nat)
      requires Valid()
      requires IdLess(appliedId, id) ==>
        log.first <= id.index <= log.Last() && log.TermAt(id.index) == id.term && Agree(appliedId, id)
      modifies this`appliedId, this`memory
      ensures Held() && appliedId == IdMax(old(appliedId), id) && n <= |old(memory)| && memory == old(memory)[n..]
      ensures IdLess(id, old(appliedId)) ==> Valid() && n == 0
      ensures !IdLess(id, old(appliedId)) && Sorted(log.log) ==> (Valid() <==> WritesAbove(queue, log, IdMin(diskId, appliedId)))
      ensures rising ==> Valid() && SafelyLeft(old(memory), memory, n, storage, appliedId.index)
      ensures !IdLess(id, old(appliedId)) ==> memory == [] || IdLess(IdMin(diskId, appliedId), LogId(memory[0].index, memory[0].record.term))
    {
      hide Backed, Linked, Sorted, WritesAbove, InOrder, Ranked;
      if IdLess(id, appliedId) { return 0; }
      if rising && IdLess(appliedId, id) { RankedApply(log, appliedId, high, id); }
      appliedId := id;
      n := ClearMemoryLogs(IdMin(diskId, appliedId));
    }

    method Flush(gathered: seq<Record>, first: nat, ghost now: Flat, ghost nowId: LogId)
      requires Pending(storage, gathered, first, lastId, now, nowId)
      modifies this`storage, this`lastId
      ensures storage == now && lastId == nowId
    {
      storage := Appended(storage, gathered);
      if gathered != [] { lastId := IdOf(first, gathered, |gathered| - 1); }
    }

    method DoTask(t: Task) returns (told: Option<LogId>)
      requires !t.Write? && LogQueue.Fits(storage, t)
      modifies this`storage, this`lastId
      ensures storage == Do(old(storage), t) && lastId == Following([t], old(lastId))
      ensures told == if t.AskLastId? then Some(old(lastId)) else None
    {
      PendingNothing(storage, 0, lastId, t);
      told := None;
      match t
      case CutBefore(kept) => storage := PrefixCut(storage, kept);
      case CutAfter(kept, term) =>
        storage := SuffixCut(storage, kept);
        lastId := LogId(kept, term);
      case Restart(next) => storage := Restarted(next);
      case AskLastId => told := Some(lastId);
    }

    /** One task of the batch; appends are only gathered. */
    method Take(t: Task, gathered: seq<Record>, first: nat, size: nat, buffered: nat, ghost now: Flat, ghost nowId: LogId)
        returns (g: seq<Record>, f: nat, s: nat, b: nat, told: Option<LogId>)
      requires Pending(storage, gathered, first, lastId, now, nowId) && LogQueue.Fits(now, t)
      modifies this`storage, this`lastId
      ensures Pending(storage, g, f, lastId, Do(now, t), Following([t], nowId))
      ensures told == if t.AskLastId? then Some(nowId) else None
    {
      hide Pending, Following, Do, LogQueue.Fits;
      g, f, s, b, told := gathered, first, size, buffered, None;
      if t.Write? {
        if s == BATCH_CAP || b >= MAX_APPEND_BUFFER_SIZE {
          Flush(g, f, now, nowId);
          g, s, b := [], 0, 0;
          PendingNothing(storage, f, lastId, t);
        }
        PendingGather(storage, g, f, lastId, now, nowId, t);
        if g == [] { f := t.first; }
        g, s, b := g + t.es, s + 1, b + DataSize(t.es);
      } else {
        Flush(g, f, now, nowId);
        g, s, b := [], 0, 0;
        told := DoTask(t);
        PendingNothing(storage, f, lastId, t);
      }
    }

    /** The task at the front of the queue. */
    method Next(gathered: seq<Record>, first: nat, size: nat, buffered: nat, ghost now: Flat, ghost nowId: LogId)
        returns (g: seq<Record>, f: nat, s: nat, b: nat, told: Option<LogId>)
      requires queue != [] && Linked(now, queue, memory, log) && Pending(storage, gathered, first, lastId, now, nowId)
      requires rising ==> Ranks(queue, log, low, high, diskId, nowId, appliedId, snapshotId, virtualFirst)
      modifies this`storage, this`lastId, this`queue, this`low
      ensures queue == old(queue)[1..] && LogQueue.Fits(now, old(queue)[0])
      ensures Linked(Do(now, old(queue)[0]), queue, memory, log)
      ensures Backed(now, old(queue), memory, log) ==> Backed(Do(now, old(queue)[0]), queue, memory, log)
      ensures rising ==> Ranks(queue, log, low, high, diskId, Following([old(queue)[0]], nowId), appliedId, snapshotId, virtualFirst)
      ensures Pending(storage, g, f, lastId, Do(now, old(queue)[0]), Following([old(queue)[0]], nowId))
      ensures told == if old(queue)[0].AskLastId? then Some(nowId) else None
    {
      hide Linked, Backed, Ranks, Raise, Pending, Following, Do, LogQueue.Fits;
      var t := queue[0];
      DiskStep(now, queue, memory, log);
      LinkedRuns(now, queue, memory, log);
      if rising { RanksStep(now, queue, log, low, high, diskId, nowId, appliedId, snapshotId, virtualFirst); }
      g, f, s, b, told := Take(t, gathered, first, size, buffered, now, nowId);
      low := Raise(t, low);
      queue := queue[1..];
    }

    /** A stretch of the disk thread's run: appends are gathered and flushed in batches, other tasks are done at once. */
    method DiskThread(n: nat) returns (told: seq<Option<LogId>>)
      requires Held() && n <= |queue|
      modifies this`storage, this`queue, this`lastId, this`low
      ensures Held() && queue == old(queue)[n..] && Runs(old(storage), old(queue))
      ensures old(Valid()) || queue == [] ==> Valid()
      ensures storage == After(old(storage), old(queue), n)
      ensures lastId == Following(old(queue)[..n], old(lastId))
      ensures |told| == n && Told(told, old(queue), old(lastId))
    {
      LinkedRuns(storage, queue, memory, log);
      hide Told, Linked, Backed, Ranks, SnapshotsFit, Raise, Pending, Following, Do, After, LogQueue.Fits, Appended, IdAtMost, IdLess, Reached;
      ghost var q, s0, id0, was := queue, storage, lastId, Backed(storage, queue, memory, log);
      ghost var now, nowId := storage, lastId;
      var gathered: seq<Record>, first, size, buffered, i := [], 0, 0, 0, 0;
      told := [];
      StartDisk(s0, q, id0);
      while i < n
        invariant i <= n && |told| == i && Reached(s0, q, id0, i, now, nowId, queue, told)
        invariant Linked(now, queue, memory, log) && (was ==> Backed(now, queue, memory, log))
        invariant rising ==> Ranks(queue, log, low, high, diskId, nowId, appliedId, snapshotId, virtualFirst)
        invariant Pending(storage, gathered, first, lastId, now, nowId)
      {
        ReachedFacts(s0, q, id0, i, now, nowId, queue, told);
        ghost var rest := queue;
        var answer;
        gathered, first, size, buffered, answer := Next(gathered, first, size, buffered, now, nowId);
        ReachedNext(s0, q, id0, i, now, nowId, rest, told, answer);
        told := told + [answer];
        now, nowId := Do(now, rest[0]), Following([rest[0]], nowId);
        i := i + 1;
      }
      ReachedFacts(s0, q, id0, i, now, nowId, queue, told);
      Flush(gathered, first, now, nowId);
      if queue == [] { BackedDrained(storage, memory, log); }
    }

    /** The end of a batch: the disk id moves up to the last id, and the next batch begins with the disk id. */
    method DiskDone() returns (ghost n: nat)
      requires Valid()
      modifies this`diskId, this`memory, this`lastId
      ensures Held() && diskId == IdMax(old(diskId), old(lastId)) && lastId == diskId
      ensures rising ==> Valid() && SafelyLeft(old(memory), memory, n, storage, appliedId.index)
      ensures IdLess(old(lastId), old(diskId)) ==> Valid()
    {
      n := SetDiskId(lastId);
      lastId := diskId;
    }

    /** A task without entries that is told the last id. */
    method AskLastLogId()
      requires Valid()
      modifies this`queue
      ensures Valid() && queue == old(queue) + [AskLastId]
    {
      hide Backed, Linked, Ranks, SnapshotsFit;
      BackedAsk(storage, queue, memory, log);
      BackedLinked(storage, queue + [AskLastId], memory, log);
      if rising { RanksAsk(queue, log, low, high, diskId, lastId, appliedId, snapshotId, virtualFirst); }
      queue := queue + [AskLastId];
    }

    method TruncatePrefix(kept: nat)
      requires Framed() && Backed(storage, queue, memory, log) && kept >= log.first
      modifies this`firstLogIndex, this`lastLogIndex, this`memory, this`queue, this`log
      ensures Framed() && Backed(storage, queue, memory, log)
      ensures log == PrefixCut(old(log), kept) && log.first == kept && queue == old(queue) + [CutBefore(kept)]
    {
      hide Backed, Linked, Ranks, InMemory;
      BackedMemory(storage, queue, memory, log);
      DropFront(kept);
      BackedPrefixCut(storage, queue, old(memory), log, kept, memory);
      BackedLinked(storage, queue + [CutBefore(kept)], memory, PrefixCut(log, kept));
      if rising { RanksPrefixCut(queue, log, low, high, diskId, lastId, appliedId, snapshotId, virtualFirst, kept); }
      firstLogIndex := kept;
      if kept > lastLogIndex { lastLogIndex := kept - 1; }
      queue := queue + [CutBefore(kept)];
      log := PrefixCut(log, kept);
    }

    method Reset(next: nat)
      requires Framed() && Backed(storage, queue, memory, log) && next >= log.first
      modifies this`firstLogIndex, this`lastLogIndex, this`memory, this`queue, this`log
      ensures Framed() && Backed(storage, queue, memory, log)
      ensures log == Restarted(next) && queue == old(queue) + [Restart(next)]
    {
      hide Backed, Linked, Ranks;
      BackedRestart(storage, queue, memory, log, next);
      BackedLinked(storage, queue + [Restart(next)], [], Restarted(next));
      if rising { RanksRestart(queue, log, low, high, diskId, lastId, appliedId, snapshotId, virtualFirst, next); }
      memory := [];
      firstLogIndex, lastLogIndex := next, next - 1;
      queue := queue + [Restart(next)];
      log := Restarted(next);
    }

    method CutForSnapshot(lastButOne: LogId, term: nat)
      requires Framed() && Backed(storage, queue, memory, log)
      requires term == log.TermAt(snapshotId.index) && snapshotId.index + 1 >= log.first
      requires lastButOne.index == 0 || lastButOne.index + 1 >= log.first
      requires rising ==> IdAtMost(lastButOne, high)
      modifies this`virtualFirst, this`firstLogIndex, this`lastLogIndex, this`memory, this`queue, this`log
      ensures Framed() && Backed(storage, queue, memory, log) && log == SnapshotCut(old(log), lastButOne, snapshotId)
      ensures virtualFirst == if term == 0 || term != snapshotId.term then snapshotId
                              else if lastButOne.index > 0 then lastButOne else old(virtualFirst)
      ensures term != 0 && term != snapshotId.term ==>
        queue == old(queue) + [Restart(snapshotId.index + 1)] && log == Restarted(snapshotId.index + 1)
    {
      hide Backed, Linked, Ranks, PrefixCut;
      if rising {
        RanksVirtual(queue, log, low, high, diskId, lastId, appliedId, snapshotId, virtualFirst, snapshotId);
        RanksVirtual(queue, log, low, high, diskId, lastId, appliedId, snapshotId, virtualFirst, lastButOne);
      }
      if term == 0 {
        virtualFirst := snapshotId;
        TruncatePrefix(snapshotId.index + 1);
      } else if term == snapshotId.term {
        if lastButOne.index > 0 {
          virtualFirst := lastButOne;
          TruncatePrefix(lastButOne.index + 1);
        }
      } else {
        virtualFirst := snapshotId;
        Reset(snapshotId.index + 1);
      }
    }

    /** Learns of a snapshot that covers the log up to `id`; a snapshot that ends before the log begins is a fatal error. */
    method SetSnapshot(id: LogId) returns (fatal: bool)
      requires Valid() && Agree(appliedId, id) && Agree(id, appliedId)
      modifies this`high, this`rising, this`snapshotId, this`appliedId, this`virtualFirst
      modifies this`firstLogIndex, this`lastLogIndex, this`memory, this`queue, this`log
      ensures Valid() && (fatal <==> old(snapshotId.index) < id.index < old(log.first) - 1)
      ensures fatal || id.index <= old(snapshotId.index) ==>
        log == old(log) && snapshotId == old(snapshotId) && appliedId == old(appliedId) && rising == old(rising)
      ensures !fatal && id.index > old(snapshotId.index) ==>
        && snapshotId == id && appliedId == IdMax(old(appliedId), id) && rising == (old(rising) && SnapshotRises(old(log), id))
      ensures !fatal && id.index > old(snapshotId.index) ==>
        && LeftBySnapshot(old(log), log, old(snapshotId), id)
        && virtualFirst == if old(log).TermAt(id.index) == 0 || old(log).TermAt(id.index) != id.term then id
                           else if old(snapshotId.index) > 0 then old(snapshotId) else old(virtualFirst)
    {
      hide Backed, Linked, SnapshotCut, Ranks, SnapshotRises, SnapshotsFit, PrefixCut, LeftBySnapshot;
      if id.index <= snapshotId.index { return false; }
      var term := GetTerm(id.index);
      TermHere(id.index);
      if term == 0 && id.index + 1 < firstLogIndex { return true; }
      SnapshotsFitAfter(log, virtualFirst, snapshotId, appliedId, id);
      var lastButOne := snapshotId;
      SnapshotLeaves(log, lastButOne, id);
      ghost var rises := Learn(id, term);
      ghost var q := queue;
      CutForSnapshot(lastButOne, term);
      if rises && !rising {
        RanksRestart(q, Restarted(id.index + 1), low, high, diskId, lastId, appliedId, id, id, id.index + 1);
        rising := true;
      }
      fatal := false;
    }

    /** The ids move; where the log contradicts the snapshot, the order of ids is restored by emptying the log. */
    method Learn(id: LogId, term: nat) returns (ghost rises: bool)
      requires Framed() && Agree(appliedId, id) && Agree(id, appliedId) && id.index + 1 >= log.first && term == log.TermAt(id.index)
      modifies this`high, this`rising, this`snapshotId, this`appliedId
      ensures Framed() && snapshotId == id && appliedId == IdMax(old(appliedId), id)
      ensures rises == (old(rising) && SnapshotRises(log, id)) && rising == (rises && (term == 0 || term == id.term))
      ensures rises ==> IdAtMost(old(snapshotId), high)
      ensures rises && !rising ==>
        Ranks(queue, Restarted(id.index + 1), low, high, diskId, lastId, appliedId, id, id)
    {
      hide Linked, Ranks, SnapshotRises;
      rises := rising && SnapshotRises(log, id);
      if rises {
        RanksSnapshot(queue, log, low, high, diskId, lastId, appliedId, snapshotId, virtualFirst, id);
        if term != 0 && term != id.term {
          RanksVirtual(queue, Restarted(id.index + 1), low, IdMax(high, id), diskId, lastId, IdMax(appliedId, id), id, virtualFirst, id);
        }
      }
      rising := rises && (term == 0 || term == id.term);
      high := IdMax(high, id);
      snapshotId := id;
      if IdLess(appliedId, snapshotId) { appliedId := snapshotId; }
    }

    lemma TermHere(index: nat)
      requires Valid() && index > snapshotId.index
      ensures index > virtualFirst.index && index > 0
      ensures index < log.first ==> log.TermAt(index) == 0
      ensures snapshotId.index == 0 || snapshotId.index + 1 >= log.first
    {
    }

    method ClearBufferedLogs()
      requires Valid()
      modifies this
      ensures Valid()
      ensures log == if snapshotId.index == 0 then old(log) else PrefixCut(old(log), snapshotId.index + 1)
      ensures snapshotId == old(snapshotId) && appliedId == old(appliedId) && rising == old(rising)
    {
      if snapshotId.index != 0 {
        virtualFirst := snapshotId;
        hide Backed, Linked, Ranked, InOrder;
        TruncatePrefix(snapshotId.index + 1);
      }
    }
  }

  // ----- what goes wrong when ids do not rise

  /** One entry, replaced by one of a lower term; nothing is written yet. */
  method Replaced(was: Record, now: Record) returns (lm: LogManager)
    requires 0 < now.term < was.term
    ensures fresh(lm) && lm.Valid() && lm.log == Flat(1, [now]) && lm.storage == Flat(1, [was]) && lm.appliedId == LogId(0, 0)
    ensures lm.diskId == lm.lastId == LogId(1, was.term)
    ensures |lm.queue| == 2 && lm.queue[0].CutAfter? && lm.queue[0].kept == 0 && lm.queue[1] == Write(1, [now])
  {
    hide Resolve, Queued, LogManager.Valid, Sorted, NewRise, RisesFrom;
    var f := Flat(1, [was]);
    ReplacedFacts(f, was, now);
    lm := new LogManager(f);
    var r := lm.AppendEntries(1, [now]);
  }

  lemma ReplacedFacts(f: Flat, was: Record, now: Record)
    requires f == Flat(1, [was]) && 0 < now.term < was.term
    ensures Resolve(f, 0, 1, [now]) == Resolved(Flat(1, [now]))
    ensures forall q: seq<Task> :: Queued([], q, f, 1, [now]) ==>
      |q| == 2 && q[0].CutAfter? && q[0].kept == 0 && q[1] == Write(1, [now])
  {
    assert FirstConflict(f, 1, [now]) == 0;
    assert f.log[..0] + [now][0..] == [now];
  }

  lemma NothingLeft(lm: LogManager, now: Record)
    requires lm.Held() && lm.log == Flat(1, [now])
    requires lm.memory == [] || IdLess(LogId(1, now.term), LogId(lm.memory[0].index, lm.memory[0].record.term))
    ensures lm.memory == []
  {
  }

  lemma WrittenFacts(q: seq<Task>, was: Record, now: Record, id: LogId)
    requires |q| == 2 && q[0].CutAfter? && q[0].kept == 0 && q[1] == Write(1, [now]) && Runs(Flat(1, [was]), q)
    ensures After(Flat(1, [was]), q, 2) == Flat(1, [now]) && Following(q[..2], id) == LogId(1, now.term) && q[2..] == []
  {
    AfterNext(Flat(1, [was]), q, 0);
    AfterNext(Flat(1, [was]), q, 1);
    FollowingNext(q, 1, id);
    assert [q[1]][..0] == [];
  }

  lemma AskFacts(store: Flat, q: seq<Task>, id: LogId)
    requires q == [AskLastId] && Runs(store, q)
    ensures After(store, q, 1) == store && Following(q[..0], id) == id && Following(q[..1], id) == id && q[1..] == []
    ensures forall told :: |told| == 1 && Told(told, q, id) ==> told == [Some(id)]
  {
    assert q[..1][..0] == [];
  }

  /** The new entry is applied before the disk thread has run: it leaves memory, and the old one is read in its place. */
  method LosesAnEntry(was: Record, now: Record) returns (lm: LogManager, read: Option<Record>)
    requires 0 < now.term < was.term
    ensures fresh(lm) && lm.Held() && !lm.Valid()
    ensures lm.log.At(1) == Some(now) && read == Some(was) && lm.appliedId == LogId(1, now.term) && lm.diskId == LogId(1, was.term)
  {
    lm := Replaced(was, now);
    hide LogManager.Valid, LogManager.Held, Sorted;
    ghost var n := lm.SetAppliedId(LogId(1, now.term));
    NothingLeft(lm, now);
    read := lm.GetEntry(1);
  }

  /** The replacement is written as one batch: the next batch still begins with the id of the entry that is gone. */
  method ReportsStale(was: Record, now: Record) returns (lm: LogManager, told: seq<Option<LogId>>)
    requires 0 < now.term < was.term
    ensures fresh(lm) && lm.Valid() && lm.queue == [] && lm.storage == Flat(1, [now]) == lm.log
    ensures told == [Some(LogId(1, was.term))] && !Right(lm.storage, LogId(1, was.term))
  {
    lm := Replaced(was, now);
    ghost var q := lm.queue;
    hide LogManager.Valid, LogManager.Held, Sorted;
    told := lm.DiskThread(2);
    WrittenFacts(q, was, now, LogId(1, was.term));
    ghost var n := lm.DiskDone();
    lm.AskLastLogId();
    AskFacts(lm.storage, lm.queue, lm.lastId);
    told := lm.DiskThread(1);
  }
}
