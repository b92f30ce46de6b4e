/** Exactly when clear_memory_logs may forget an entry that the disk does not hold yet (log_manager.cpp). */
module LogLoss {
  import opened Quorum
  import opened LogTypes
  import opened SegmentFormat
  import opened FlatLog
  import opened LogQueue

  lemma {:induction false} RunsSplit(store: Flat, q: seq<Task>)
    requires Runs(store, q) && q != []
    ensures var n := |q| - 1;
      && Runs(store, q[..n]) && LogQueue.Fits(Drained(store, q[..n]), q[n])
      && Drained(store, q) == Do(Drained(store, q[..n]), q[n])
    decreases |q|
  {
    var n := |q| - 1;
    if n == 0 {
      assert q[..0] == [] && q[1..] == [];
    } else {
      RunsSplit(Do(store, q[0]), q[1..]);
      assert q[1..][..n - 1] == q[..n][1..];
    }
  }

  predicate Keeps(t: Task, index: nat) { !t.Restart? && (t.CutAfter? ==> t.kept >= index) }

  /** What write `k` brings to `index` is not cut off by any later task. */
  predicate Survives(q: seq<Task>, k: nat, index: nat) {
    && k < |q| && q[k].Write? && q[k].first <= index < q[k].first + |q[k].es|
    && forall m :: k < m < |q| ==> Keeps(q[m], index)
  }

  predicate Touched(q: seq<Task>, index: nat) { exists t :: t in q && !Spares(t, index + 1) }

  /** Whatever the log has in the end at an index the queue still touches comes from a write that survives there. */
  lemma {:induction false} TouchedSurvives(store: Flat, q: seq<Task>, index: nat)
    requires Runs(store, q)
    requires Drained(store, q).first <= index <= Drained(store, q).Last() && Touched(q, index)
    ensures exists k :: Survives(q, k, index)
    decreases |q|
  {
    var n := |q| - 1;
    RunsSplit(store, q);
    var p, t := q[..n], q[n];
    if t.Write? && index >= t.first {
      assert Survives(q, n, index);
    } else {
      assert Keeps(t, index) && Spares(t, index + 1);
      var u :| u in q && !Spares(u, index + 1);
      assert q == p + [t] && u in p;
      TouchedSurvives(store, p, index);
      var k :| Survives(p, k, index);
      assert Survives(q, k, index);
    }
  }

  /** A surviving entry is the one the log has in the end. */
  lemma {:induction false} SurvivorIs(store: Flat, q: seq<Task>, k: nat, index: nat)
    requires Runs(store, q) && Survives(q, k, index) && Drained(store, q).first <= index
    ensures Drained(store, q).At(index) == Some(q[k].es[index - q[k].first])
    decreases |q|
  {
    var n := |q| - 1;
    RunsSplit(store, q);
    var p, t := q[..n], q[n];
    if k < n {
      assert Keeps(t, index);
      assert Survives(p, k, index);
      SurvivorIs(store, p, k, index);
    }
  }

  /** The first index of write `k` that the log still has in the end, if there is one. */
  function FirstLeft(t: Task, f: Flat): nat
    requires t.Write?
  {
    if t.first < f.first then f.first else t.first
  }

  predicate HasLeft(q: seq<Task>, k: nat, f: Flat) { k < |q| && q[k].Write? && Survives(q, k, FirstLeft(q[k], f)) }

  /** The first surviving entry of every waiting write ranks above `low`. */
  predicate WritesAbove(q: seq<Task>, f: Flat, low: LogId) {
    forall k: nat :: k < |q| && HasLeft(q, k, f) ==> IdLess(low, LogId(FirstLeft(q[k], f), f.TermAt(FirstLeft(q[k], f))))
  }

  /** Nothing of the log that ranks at or below `low` is touched by the queue any more. */
  predicate Settled(q: seq<Task>, f: Flat, low: LogId) {
    forall index: nat :: f.first <= index <= f.Last() && IdAtMost(LogId(index, f.TermAt(index)), low) ==> !Touched(q, index)
  }

  /** A write that survives at an index survives at every earlier one that the log still has. */
  lemma SurvivesEarlier(q: seq<Task>, k: nat, index: nat, f: Flat)
    requires Survives(q, k, index) && f.first <= index
    ensures HasLeft(q, k, f) && FirstLeft(q[k], f) <= index
  {
    var i := FirstLeft(q[k], f);
    forall m | k < m < |q| ensures Keeps(q[m], i) { assert Keeps(q[m], index); }
  }

  lemma IdsSorted(f: Flat, i: nat, j: nat)
    requires Sorted(f.log) && f.first <= i <= j <= f.Last()
    ensures IdAtMost(LogId(i, f.TermAt(i)), LogId(j, f.TermAt(j)))
  {
    if i < j { assert f.log[i - f.first].term <= f.log[j - f.first].term; }
  }

  lemma TouchedAbove(store: Flat, q: seq<Task>, index: nat, low: LogId)
    requires Runs(store, q) && Sorted(Drained(store, q).log) && WritesAbove(q, Drained(store, q), low)
    requires Drained(store, q).first <= index <= Drained(store, q).Last() && Touched(q, index)
    ensures IdLess(low, LogId(index, Drained(store, q).TermAt(index)))
  {
    var f := Drained(store, q);
    hide Runs, Drained, Sorted;
    TouchedSurvives(store, q, index);
    var k: nat :| Survives(q, k, index);
    SurvivesEarlier(q, k, index, f);
    var i := FirstLeft(q[k], f);
    IdsSorted(f, i, index);
    IdLessTrans(low, LogId(i, f.TermAt(i)), LogId(index, f.TermAt(index)));
  }

  /** For every storage and queue: ranks at or below `low` are settled exactly if what every waiting write leaves begins above `low`. */
  lemma SettledIff(store: Flat, q: seq<Task>, low: LogId)
    requires Runs(store, q) && Sorted(Drained(store, q).log)
    ensures Settled(q, Drained(store, q), low) <==> WritesAbove(q, Drained(store, q), low)
  {
    var f := Drained(store, q);
    hide Runs, Drained, Sorted;
    if Settled(q, f, low) {
      forall k: nat | k < |q| && HasLeft(q, k, f) ensures IdLess(low, LogId(FirstLeft(q[k], f), f.TermAt(FirstLeft(q[k], f)))) {
        var i := FirstLeft(q[k], f);
        SurvivorIs(store, q, k, i);
        assert q[k] in q && !Spares(q[k], i + 1);
        assert Touched(q, i);
      }
    }
    if WritesAbove(q, f, low) {
      forall index: nat | f.first <= index <= f.Last() && Touched(q, index) ensures IdLess(low, LogId(index, f.TermAt(index))) {
        TouchedAbove(store, q, index, low);
      }
    }
  }

  /** What a cut and its replacement make of the storage. */
  lemma Replacing(store: Flat, kept: nat, term: nat, es: seq<Record>)
    requires store.first - 1 <= kept <= store.Last() && es != []
    ensures var q := [CutAfter(kept, term), Write(kept + 1, es)];
      Runs(store, q) && Drained(store, q) == Appended(SuffixCut(store, kept), es)
    ensures Appended(SuffixCut(store, kept), es).TermAt(kept + 1) == es[0].term
  {
    var q := [CutAfter(kept, term), Write(kept + 1, es)];
    var cut := SuffixCut(store, kept);
    var f := Appended(cut, es);
    assert q[1..] == [q[1]] && q[1..][1..] == [];
    assert cut.Last() == kept && Do(store, q[0]) == cut && Do(cut, q[1]) == f;
    assert Runs(f, []) && Runs(cut, q[1..]);
    assert Drained(store, q) == Drained(cut, q[1..]) == Drained(f, []) == f;
  }

  /** Only the replacement is a write, and it is left whole. */
  lemma ReplacementLeft(q: seq<Task>, kept: nat, es: seq<Record>, f: Flat)
    requires |q| == 2 && q[0].CutAfter? && q[1] == Write(kept + 1, es) && es != [] && f.first <= kept + 1
    ensures FirstLeft(q[1], f) == kept + 1 && forall k: nat :: HasLeft(q, k, f) <==> k == 1
  {
    assert Survives(q, 1, kept + 1);
  }

  /** A cut and what replaces it: settled exactly if the first new entry ranks above `low`, which can be seen before either is queued. */
  lemma ReplacedIff(store: Flat, kept: nat, term: nat, es: seq<Record>, low: LogId)
    requires store.first - 1 <= kept <= store.Last() && es != []
    requires Sorted(store.log[..kept + 1 - store.first] + es)
    ensures var q := [CutAfter(kept, term), Write(kept + 1, es)];
      && Runs(store, q)
      && (Settled(q, Drained(store, q), low) <==> !IdAtMost(IdOf(kept + 1, es, 0), low))
  {
    hide Runs, Drained, Sorted, Settled, HasLeft, FirstLeft;
    var q := [CutAfter(kept, term), Write(kept + 1, es)];
    Replacing(store, kept, term, es);
    SettledIff(store, q, low);
    ReplacementLeft(q, kept, es, Drained(store, q));
    assert HasLeft(q, 1, Drained(store, q));
  }

  /** Rising ids settle everything that ranks at or below what has been written. */
  lemma RisingSettles(store: Flat, q: seq<Task>, low: LogId)
    requires Runs(store, q) && Ascend(q, low)
    ensures Settled(q, Drained(store, q), low)
  {
    var f := Drained(store, q);
    forall index: nat | f.first <= index <= f.Last() && IdAtMost(LogId(index, f.TermAt(index)), low) ensures !Touched(q, index) {
      SafeToForget(store, q, index, low);
    }
  }
}
