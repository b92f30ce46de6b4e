/** What the disk thread answers to a flush that asks for the last log id, and when that is right (log_manager.cpp). */
module LogFlush {
  import opened Quorum
  import opened LogTypes
  import opened SegmentFormat
  import opened FlatLog
  import opened LogQueue

  /** The storage after the first `n` tasks. */
  function After(store: Flat, q: seq<Task>, n: nat): Flat
    requires Runs(store, q) && n <= |q|
    decreases n
  {
    if n == 0 then store else After(Do(store, q[0]), q[1..], n - 1)
  }

  /** The id that the disk thread holds for the last one written after `q`, having started from `id`. */
  function Following(q: seq<Task>, id: LogId): LogId
    decreases |q|
  {
    if q == [] then id
    else
      match q[|q| - 1]
      case Write(first, es) => if es == [] then Following(q[..|q| - 1], id) else IdOf(first, es, |es| - 1)
      case CutAfter(kept, term) => LogId(kept, term)
      case _ => Following(q[..|q| - 1], id)
  }

  lemma {:induction false} AfterNext(store: Flat, q: seq<Task>, n: nat)
    requires Runs(store, q) && n < |q|
    ensures LogQueue.Fits(After(store, q, n), q[n]) && After(store, q, n + 1) == Do(After(store, q, n), q[n])
    decreases n
  {
    if n > 0 { AfterNext(Do(store, q[0]), q[1..], n - 1); }
  }

  lemma FollowingNext(q: seq<Task>, n: nat, id: LogId)
    requires n < |q|
    ensures Following(q[..n + 1], id) == Following([q[n]], Following(q[..n], id))
  {
    assert q[..n + 1][..n] == q[..n];
  }

  /** The id names the end of the storage, with the term of the entry there, if there is one. */
  predicate Right(store: Flat, id: LogId) {
    id.index == store.Last() && (store.log != [] ==> id.term == store.TermAt(store.Last()))
  }

  /** A task after which the disk thread knows the end again. */
  predicate NamesEnd(t: Task) { t.Write? || t.CutAfter? }

  /** Suffix cuts carry the term of the entry they keep last. */
  predicate CutTermsOk(store: Flat, q: seq<Task>)
    requires Runs(store, q)
    decreases |q|
  {
    q == [] ||
    ((q[0].CutAfter? && q[0].kept >= store.first ==> q[0].term == store.TermAt(q[0].kept)) && CutTermsOk(Do(store, q[0]), q[1..]))
  }

  lemma {:induction false} CutTermsMore(store: Flat, q: seq<Task>, t: Task)
    requires Runs(store, q) && LogQueue.Fits(Drained(store, q), t) && CutTermsOk(store, q)
    requires var f := Drained(store, q); t.CutAfter? && t.kept >= f.first ==> t.term == f.TermAt(t.kept)
    ensures Runs(store, q + [t]) && CutTermsOk(store, q + [t])
    decreases |q|
  {
    RunsMore(store, q, t);
    if q == [] {
      assert q + [t] == [t] && [t][1..] == [];
    } else {
      assert (q + [t])[1..] == q[1..] + [t];
      CutTermsMore(Do(store, q[0]), q[1..], t);
    }
  }

  lemma {:induction false} CutTermAt(store: Flat, q: seq<Task>, n: nat)
    requires Runs(store, q) && CutTermsOk(store, q) && n < |q|
    ensures var s := After(store, q, n); q[n].CutAfter? && q[n].kept >= s.first ==> q[n].term == s.TermAt(q[n].kept)
    decreases n
  {
    if n > 0 { CutTermAt(Do(store, q[0]), q[1..], n - 1); }
  }

  /** A task that does not name the end leaves the end alone or the log empty. */
  lemma EndKept(s: Flat, t: Task)
    requires LogQueue.Fits(s, t) && !NamesEnd(t)
    ensures var s' := Do(s, t);
      s'.log != [] ==> s.log != [] && s'.Last() == s.Last() && s'.TermAt(s'.Last()) == s.TermAt(s.Last())
  {
  }

  lemma EndNamed(s: Flat, t: Task, id: LogId)
    requires LogQueue.Fits(s, t) && NamesEnd(t) && (t.CutAfter? && t.kept >= s.first ==> t.term == s.TermAt(t.kept))
    ensures Right(Do(s, t), Following([t], id))
  {
    assert [t][..0] == [] && Following([], id) == id;
  }

  /** Of the first `n` tasks, task `j` is the last that names the end. */
  predicate LastNamed(q: seq<Task>, n: nat, j: nat) {
    j < n <= |q| && NamesEnd(q[j]) && forall m :: j < m < n ==> !NamesEnd(q[m])
  }

  /** The answer comes from the last task that names the end, and can only be wrong about where the end has moved since. */
  lemma {:induction false} AnswerSince(store: Flat, q: seq<Task>, n: nat, j: nat, id: LogId)
    requires Runs(store, q) && CutTermsOk(store, q) && LastNamed(q, n, j)
    ensures var s, a := After(store, q, n), Following(q[..n], id);
      && a.index == After(store, q, j + 1).Last()
      && (s.log != [] ==> s.Last() == a.index && a.term == s.TermAt(s.Last()))
    decreases n
  {
    AfterNext(store, q, n - 1);
    FollowingNext(q, n - 1, id);
    if j == n - 1 {
      CutTermAt(store, q, j);
      EndNamed(After(store, q, j), q[j], Following(q[..j], id));
    } else {
      AnswerSince(store, q, n - 1, j, id);
      EndKept(After(store, q, n - 1), q[n - 1]);
    }
  }

  lemma {:induction false} AnswerUnchanged(store: Flat, q: seq<Task>, n: nat, id: LogId)
    requires Runs(store, q) && n <= |q| && forall m :: 0 <= m < n ==> !NamesEnd(q[m])
    ensures Following(q[..n], id) == id
    ensures var s := After(store, q, n);
      s.log != [] ==> store.log != [] && s.Last() == store.Last() && s.TermAt(s.Last()) == store.TermAt(store.Last())
    decreases n
  {
    if n > 0 {
      AnswerUnchanged(store, q, n - 1, id);
      AfterNext(store, q, n - 1);
      FollowingNext(q, n - 1, id);
      EndKept(After(store, q, n - 1), q[n - 1]);
    }
  }

  /**
   The answer to an ask after `n` tasks of a batch that began with the id `disk` is right exactly if the end is where
   the last write or suffix cut of the batch has put it, or, if there is none, if `disk` already was the id of that end.
   */
  lemma AskIsRightIff(store: Flat, q: seq<Task>, n: nat, disk: LogId)
    requires Runs(store, q) && CutTermsOk(store, q) && n <= |q|
    ensures var s := After(store, q, n);
      Right(s, Following(q[..n], disk)) <==>
        || (exists j: nat :: LastNamed(q, n, j) && After(store, q, j + 1).Last() == s.Last())
        || ((forall m :: 0 <= m < n ==> !NamesEnd(q[m])) && disk.index == s.Last() && (s.log != [] ==> Right(store, disk)))
  {
    if m :| 0 <= m < n && NamesEnd(q[m]) {
      var j := FindLast(q, n, m);
      AnswerSince(store, q, n, j, disk);
      forall i: nat | LastNamed(q, n, i) ensures i == j { }
    } else {
      AnswerUnchanged(store, q, n, disk);
    }
  }

  lemma {:induction false} FindLast(q: seq<Task>, n: nat, m: nat) returns (j: nat)
    requires m < n <= |q| && NamesEnd(q[m])
    ensures LastNamed(q, n, j)
    decreases n
  {
    if NamesEnd(q[n - 1]) {
      j := n - 1;
    } else {
      j := FindLast(q, n - 1, m);
    }
  }

  /** Ids that rise never fall behind: if the last end a batch names is that of a write, the disk id follows it. */
  lemma DiskIdFollows(store: Flat, q: seq<Task>, n: nat, j: nat, disk: LogId, low: LogId)
    requires Runs(store, q) && CutTermsOk(store, q) && Ascend(q, low) && IdAtMost(disk, low)
    requires LastNamed(q, n, j) && q[j].Write? && After(store, q, j + 1).Last() == After(store, q, n).Last()
    ensures Right(After(store, q, n), IdMax(disk, Following(q[..n], disk)))
  {
    AnswerSince(store, q, n, j, disk);
    WrittenAbove(store, q, n, j, disk, low);
  }

  lemma {:induction false} WrittenAbove(store: Flat, q: seq<Task>, n: nat, j: nat, disk: LogId, low: LogId)
    requires Runs(store, q) && Ascend(q, low) && IdAtMost(disk, low) && LastNamed(q, n, j) && q[j].Write?
    ensures IdLess(disk, Following(q[..n], disk))
    decreases n
  {
    if j == n - 1 {
      AfterNext(store, q, j);
      AscendAt(q, j, low);
      AscendTop(q[j].first, q[j].es, low, |q[j].es| - 1);
    } else {
      assert q[..n][..n - 1] == q[..n - 1];
      WrittenAbove(store, q, n - 1, j, disk, low);
    }
  }

  lemma {:induction false} AscendAt(q: seq<Task>, j: nat, low: LogId)
    requires Ascend(q, low) && j < |q| && q[j].Write?
    ensures RisesFrom(q[j].first, q[j].es, low)
    decreases |q|
  {
    if j > 0 {
      if q[0].Write? { AscendTop(q[0].first, q[0].es, low, |q[0].es| - 1); }
      AscendAt(q[1..], j - 1, Raise(q[0], low));
    }
  }

  /** A batch that ends with a cut, then one with the ask alone: the id of the entry that was cut off is reported. */
  lemma StaleAfterCut(a: Record, b: Record)
    requires 0 < a.term <= b.term
    ensures var store, cut, ask := Flat(1, [a, b]), [CutAfter(1, a.term)], [AskLastId];
      && Runs(store, cut) && CutTermsOk(store, cut) && Ascend(cut, LogId(2, b.term))
      && Right(store, LogId(2, b.term))
      && var disk := IdMax(LogId(2, b.term), Following(cut, LogId(2, b.term)));
         disk == LogId(2, b.term) && Following(ask, disk) == LogId(2, b.term) && !Right(After(store, cut, 1), LogId(2, b.term))
  {
    var store, cut := Flat(1, [a, b]), [CutAfter(1, a.term)];
    assert cut[1..] == [];
    assert SuffixCut(store, 1) == Flat(1, [a]);
    assert [AskLastId][..0] == [];
  }
}
