/** The log directory through any number of operations, crashes inside them and restarts. */
module SegmentLife {
  import opened Quorum
  import F = SegmentFormat
  import opened FlatLog
  import opened Pieces
  import opened SegmentCrash

  /** An append is one turn of the loop of append_entries; a torn entry is none, as loading the file cuts it off. */
  datatype Op = Append(record: F.Record) | CutPrefix(firstKept: nat) | CutSuffix(lastKept: int)

  /** `Crash` falls behind the first `i` file operations and is followed by a restart. */
  datatype Event = Done(op: Op) | Crash(op: Op, i: nat)

  const FRESH := Disk(1, [], [])

  function PlanOf(d: Disk, op: Op, max: nat): seq<FileOp> {
    match op
    case Append(record) => RollPlan(d, max) + [Write(record)]
    case CutPrefix(firstKept) => PrefixPlan(d, firstKept)
    case CutSuffix(lastKept) => SuffixPlan(d, lastKept)
  }

  /** The directory after the clean-up of a restart: files that end before the first index on record are deleted. */
  function Reopened(d: Disk): Disk {
    d.(closed := match ListClosed(d.closed, d.meta, None) { case Some(kept) => kept case None => d.closed },
       open := if |d.open| == 1 && d.open[0].Next() <= d.meta then [] else d.open)
  }

  function Next(d: Disk, e: Event, max: nat): Disk {
    match e
    case Done(op) => ExecAll(d, PlanOf(d, op, max))
    case Crash(op, i) => if i <= |PlanOf(d, op, max)| then Reopened(ExecAll(d, PlanOf(d, op, max)[..i])) else d
  }

  function LogOf(d: Disk): Flat {
    match Recover(d)
    case Ready(log) => log
    case _ => Flat(0, [])
  }

  /** The log manager cuts the end within the log; everything else is allowed. */
  predicate Allowed(f: Flat, op: Op) {
    match op
    case CutSuffix(lastKept) => f.first - 1 <= lastKept <= f.Last()
    case _ => true
  }

  predicate Enabled(d: Disk, e: Event, max: nat) {
    Allowed(LogOf(d), e.op) && (e.Crash? ==> e.i <= |PlanOf(d, e.op, max)|)
  }

  function Effect(f: Flat, op: Op): Flat
    requires Allowed(f, op)
  {
    match op
    case Append(record) => Appended(f, [record])
    case CutPrefix(firstKept) => PrefixCut(f, firstKept)
    case CutSuffix(lastKept) => SuffixCut(f, lastKept)
  }

  /** What a log may turn into: a finished operation has its effect, a crashed one its effect, none, or half a back cut. */
  predicate Outcome(f: Flat, e: Event, g: Flat)
    requires Allowed(f, e.op)
  {
    match e
    case Done(op) => g == Effect(f, op)
    case Crash(op, _) => g == f || g == Effect(f, op) || (op.CutSuffix? && KeepsThrough(g, f, op.lastKept))
  }

  ghost predicate Sound(d: Disk) { exists base: nat, whole :: Settled(d, base, whole) }

  // ----- which directories are settled

  /** The first file reaches the first index on record, or is the empty one that starts there. */
  predicate Alive(d: Disk) {
    DiskPieces(d) == [] || d.meta < DiskPieces(d)[0].Next() || DiskPieces(d) == [Piece(d.meta, [])]
  }

  lemma SettledAlive(d: Disk, base: nat, whole: seq<F.Record>)
    requires Settled(d, base, whole)
    ensures Alive(d)
  {
    hide AllNamed, PieceOk;
    var ps := DiskPieces(d);
    SettledParts(d, base, whole);
    FirstNotEmpty(d);
    if ps != [] && ps[0].entries == [] { assert |ps| == 1; }
  }

  lemma AliveSettles(d: Disk, base: nat, whole: seq<F.Record>) returns (b: nat, w: seq<F.Record>)
    requires Fits(d, base, whole) && Alive(d)
    ensures Settled(d, b, w) && base <= d.meta && Meaning(d.meta, b, w) == Meaning(d.meta, base, whole)
  {
    hide AllNamed, PieceOk;
    b, w := base, whole;
    var ps := DiskPieces(d);
    if ps == [] {
      b, w := d.meta, [];
    } else {
      FirstPiece(ps, base, whole);
    }
  }

  /** A directory that fits and is alive after an event stands for the log a restart finds. */
  lemma Stands(d: Disk, base: nat, whole: seq<F.Record>)
    requires Fits(d, base, whole) && Alive(d)
    ensures Sound(d) && Recover(d) == Ready(LogOf(d)) && base <= d.meta && LogOf(d) == Meaning(d.meta, base, whole)
  {
    hide Fits, Recover, Meaning, Alive, Settled;
    RecoverFits(d, base, whole);
    var b, w := AliveSettles(d, base, whole);
  }

  // ----- restarts

  lemma {:induction false} UnlinkedFront(d: Disk, k: nat)
    requires k <= |d.closed|
    ensures ExecAll(d, Times(UnlinkFirst, k)) == d.(closed := d.closed[k..])
    decreases k
  {
    if k == 0 {
      assert d.closed[0..] == d.closed;
    } else {
      assert Times(UnlinkFirst, k)[1..] == Times(UnlinkFirst, k - 1);
      assert d.closed[1..][k - 1..] == d.closed[k..];
      UnlinkedFront(Exec(d, UnlinkFirst), k - 1);
    }
  }

  /** The closed files a restart deletes are dead ones at the front. */
  lemma ClosedToDelete(d: Disk, base: nat, whole: seq<F.Record>) returns (k: nat)
    requires Fits(d, base, whole)
    ensures k <= |d.closed| && ListClosed(d.closed, d.meta, None) == Some(d.closed[k..])
    ensures k <= |DiskPieces(d)| && forall i :: 0 <= i < k ==> DiskPieces(d)[i].Next() <= d.meta
    ensures k < |d.closed| ==> d.meta < DiskPieces(d)[k].Next()
    ensures k < |d.closed| && d.open != [] ==> d.meta < d.open[0].Next()
  {
    hide Chain, Adjoin, ListClosed, AllNamed, Fits, FilePieces;
    FitsParts(d, base, whole);
    PiecesOfDisk(d);
    if d.closed == [] {
      NothingListed(d.meta);
      k := 0;
    } else {
      var end := SplitOpen(d, base, whole);
      k := ListKeeps(d.closed, d.meta);
      forall i | 0 <= i < |d.closed| ensures DiskPieces(d)[i].Next() == d.closed[i].last + 1 { PieceEnds(d.closed, i); }
      if k < |d.closed| { LastIsMost(d.closed, k); }
    }
  }

  /** A restart finds the same log in what it leaves of the directory, and leaves it settled. */
  lemma RestartSettles(d: Disk, base: nat, whole: seq<F.Record>)
    requires Fits(d, base, whole)
    ensures Sound(Reopened(d)) && |Reopened(d).open| <= 1 && Recover(Reopened(d)) == Recover(d) == Ready(LogOf(d))
  {
    hide Fits, Recover, Meaning, ListClosed, DiskPieces, ExecAll;
    FitsParts(d, base, whole);
    RecoverFits(d, base, whole);
    PiecesOfDisk(d);
    var k := ClosedToDelete(d, base, whole);
    var d1 := d.(closed := d.closed[k..]);
    UnlinkedFront(d, k);
    var b, w := FitsFront(d, k, base, whole);
    PiecesOfDisk(d1);
    if k == |d.closed| && d.open != [] && d.open[0].Next() <= d.meta {
      b, w := DropOne(d1, b, w);
      PiecesOfDisk(d1.(open := []));
    }
    Stands(Reopened(d), b, w);
  }

  // ----- what each operation leaves behind, at any point

  lemma LogOfSettled(d: Disk, base: nat, whole: seq<F.Record>)
    requires Settled(d, base, whole)
    ensures base <= d.meta && d.meta - base <= |whole| && Recover(d) == Ready(LogOf(d))
    ensures LogOf(d) == Meaning(d.meta, base, whole) == Flat(d.meta, whole[d.meta - base..])
    ensures LogOf(d).first == d.meta && LogOf(d).Last() == base + |whole| - 1
  {
    hide Fits, Recover;
    FitsParts(d, base, whole);
    RecoverFits(d, base, whole);
  }

  lemma WriteFits(d: Disk, base: nat, whole: seq<F.Record>, r: F.Record)
    requires Fits(d, base, whole) && |d.open| == 1
    ensures var d1 := Exec(d, Write(r)); Fits(d1, base, whole + [r]) && d1.meta == d.meta && d1.closed == d.closed
  {
    hide Chain, AllNamed;
    var p := d.open[0];
    assert d.open == [p];
    ChainGrow(FilePieces(d.closed), p, base, whole, r);
  }

  lemma RollOpens(d: Disk, max: nat)
    requires |d.open| <= 1
    ensures var d1 := ExecAll(d, RollPlan(d, max));
      && |d1.open| == 1 && d1.meta == d.meta
      && (d1.closed == d.closed
          || (d.open != [] && d.open[0].entries != [] && DiskPieces(d) <= DiskPieces(d1)
              && |d1.closed| == |d.closed| + 1))
  {
    hide Exec;
    var plan := RollPlan(d, max);
    if plan != [] {
      RunPlan(d, plan, |plan|);
      assert plan[..|plan|] == plan;
      Rolled(d, max);
    }
  }

  lemma Rolled(d: Disk, max: nat)
    requires |d.open| <= 1 && RollPlan(d, max) != []
    ensures d.open == [] ==> RollPlan(d, max) == [CreateOpen(End(d))] && Exec(d, CreateOpen(End(d))) == d.(open := [Piece(End(d), [])])
    ensures d.open != [] ==>
      && RollPlan(d, max) == [CloseOpen, CreateOpen(End(d))] && d.open[0].entries != []
      && var d1 := Exec(Exec(d, CloseOpen), CreateOpen(End(d)));
         && d1.open == [Piece(End(d), [])] && d1.meta == d.meta && |d1.closed| == |d.closed| + 1
         && DiskPieces(d) <= DiskPieces(d1)
  {
    if d.open != [] {
      var o := d.open[0];
      assert d.open == [o];
      var d1 := Exec(d, CloseOpen);
      assert FilePieces(d1.closed) == FilePieces(d.closed) + [o];
    }
  }

  lemma MeaningGrows(meta: nat, base: nat, whole: seq<F.Record>, r: F.Record)
    requires base <= meta && meta - base <= |whole|
    ensures Meaning(meta, base, whole + [r]) == Appended(Meaning(meta, base, whole), [r])
  {
    assert (whole + [r])[meta - base..] == whole[meta - base..] + [r];
  }

  /** A first piece with entries stays the first one, and alive, while pieces are added behind it. */
  lemma GrownAlive(d: Disk, base: nat, whole: seq<F.Record>, d1: Disk, w: seq<F.Record>)
    requires Settled(d, base, whole) && Fits(d1, base, w) && d1.meta == d.meta < base + |w| && |d1.open| == 1
    requires d1.closed == d.closed
      || (d.open != [] && d.open[0].entries != [] && |d1.closed| == |d.closed| + 1 && DiskPieces(d) <= DiskPieces(d1))
    ensures Alive(d1)
  {
    hide AllNamed, PieceOk, Chain;
    SettledAlive(d, base, whole);
    PiecesOfDisk(d);
    PiecesOfDisk(d1);
    FitsParts(d, base, whole);
    FitsParts(d1, base, w);
    if d1.closed == [] {
      OpenReaches(d1, base, w);
    } else if d.closed == d1.closed {
      assert Named(d.closed[0]);
      assert DiskPieces(d)[0] == DiskPieces(d1)[0];
    } else {
      assert DiskPieces(d)[0] == DiskPieces(d1)[0];
      FirstNotEmpty(d);
    }
  }

  lemma AppendAt(d: Disk, r: F.Record, max: nat, i: nat, base: nat, whole: seq<F.Record>) returns (w: seq<F.Record>)
    requires Settled(d, base, whole) && i <= |PlanOf(d, Append(r), max)|
    ensures var d1, f := ExecAll(d, PlanOf(d, Append(r), max)[..i]), LogOf(d);
      && Fits(d1, base, w) && base <= d1.meta
      && Meaning(d1.meta, base, w) == (if i <= |RollPlan(d, max)| then f else Appended(f, [r]))
      && (i > |RollPlan(d, max)| ==> Alive(d1))
  {
    hide Fits, Recover, Meaning, DiskPieces, ExecAll, Alive, Settled, Exec, RollPlan;
    var roll := RollPlan(d, max);
    LogOfSettled(d, base, whole);
    SettledParts(d, base, whole);
    w := whole;
    if i <= |roll| {
      assert PlanOf(d, Append(r), max)[..i] == roll[..i];
      RollCrashSafe(d, max, i, base, whole);
      RollMeta(d, max, i);
    } else {
      assert roll[..|roll|] == roll && PlanOf(d, Append(r), max)[..i] == roll + [Write(r)];
      RollCrashSafe(d, max, |roll|, base, whole);
      RollOpens(d, max);
      ExecSplit(d, roll, [Write(r)]);
      var d1 := ExecAll(d, roll);
      ExecOne(d1, Write(r));
      WriteFits(d1, base, whole, r);
      MeaningGrows(d.meta, base, whole, r);
      w := whole + [r];
      WriteAlive(d, base, whole, d1, r);
    }
  }

  lemma WriteAlive(d: Disk, base: nat, whole: seq<F.Record>, d1: Disk, r: F.Record)
    requires Settled(d, base, whole) && Fits(d1, base, whole) && Fits(Exec(d1, Write(r)), base, whole + [r])
    requires d1.meta == d.meta && |d1.open| == 1
    requires d1.closed == d.closed
      || (d.open != [] && d.open[0].entries != [] && |d1.closed| == |d.closed| + 1 && DiskPieces(d) <= DiskPieces(d1))
    ensures Alive(Exec(d1, Write(r)))
  {
    hide AllNamed, PieceOk, Chain;
    var d2 := Exec(d1, Write(r));
    PiecesOfDisk(d);
    PiecesOfDisk(d1);
    PiecesOfDisk(d2);
    FitsParts(d, base, whole);
    if d1.closed != d.closed {
      forall j | 0 <= j < |DiskPieces(d)| ensures DiskPieces(d2)[j] == DiskPieces(d)[j] { assert DiskPieces(d1)[j] == DiskPieces(d)[j]; }
    }
    GrownAlive(d, base, whole, d2, whole + [r]);
  }

  lemma RollMeta(d: Disk, max: nat, i: nat)
    requires i <= |RollPlan(d, max)|
    ensures ExecAll(d, RollPlan(d, max)[..i]).meta == d.meta
  {
    if RollPlan(d, max) != [] { RunPlan(d, RollPlan(d, max), i); }
  }

  lemma {:induction false} DeadFrontStops(ps: seq<Piece>, kept: nat)
    ensures DeadFront(ps, kept) < |ps| ==> kept < ps[DeadFront(ps, kept)].Next()
  {
    if ps != [] && ps[0].Next() <= kept { DeadFrontStops(ps[1..], kept); }
  }

  /** A finished front cut has deleted every file that ends before the new first index. */
  lemma PrefixAlive(d: Disk, kept: nat, base: nat, whole: seq<F.Record>)
    requires Settled(d, base, whole)
    ensures Alive(ExecAll(d, PrefixPlan(d, kept)))
  {
    hide Fits, DiskPieces, Settled;
    SettledAlive(d, base, whole);
    SettledParts(d, base, whole);
    if kept > d.meta {
      var k := DeadFront(DiskPieces(d), kept);
      var d1 := d.(meta := kept);
      FitsMeta(d, kept, base, whole);
      DeadFrontEnds(DiskPieces(d), kept);
      DeadFrontStops(DiskPieces(d), kept);
      assert PrefixPlan(d, kept)[1..] == Times(UnlinkFirst, k);
      var b, w := FitsFront(d1, k, base, whole);
    }
  }

  predicate FromBack(ops: seq<FileOp>) {
    forall i :: 0 <= i < |ops| ==> ops[i].UnlinkLast? || ops[i].ReopenLast? || ops[i].CutOpen?
  }

  /** Operations on the last files leave the others as they are. */
  lemma {:induction false} FrontStays(d: Disk, ops: seq<FileOp>)
    requires FromBack(ops)
    ensures ExecAll(d, ops).closed <= d.closed && ExecAll(d, ops).meta == d.meta
    decreases |ops|
  {
    if ops != [] { FrontStays(Exec(d, ops[0]), ops[1..]); }
  }

  lemma {:induction false} OnlyTimes(op: FileOp, n: nat)
    ensures forall i :: 0 <= i < n ==> Times(op, n)[i] == op
  {
    if n > 0 {
      OnlyTimes(op, n - 1);
      forall i | 0 <= i < n ensures Times(op, n)[i] == op { if i > 0 { assert Times(op, n)[i] == Times(op, n - 1)[i - 1]; } }
    }
  }

  lemma SuffixFromBack(d: Disk, kept: int)
    ensures FromBack(SuffixPlan(d, kept))
  {
    hide DeadBack, DiskPieces;
    var r := DeadBack(DiskPieces(d), kept);
    OnlyTimes(UnlinkLast, r);
    OnlyTimes(UnlinkLast, r + 1);
  }

  /** If nothing is to be left of the log, no file is. */
  lemma AllGone(d: Disk, kept: int, base: nat, whole: seq<F.Record>)
    requires Settled(d, base, whole) && d.meta - 1 == kept < base + |whole|
    ensures DiskPieces(ExecAll(d, SuffixPlan(d, kept))) == []
  {
    hide Fits, DiskPieces, Settled, DeadBack, ExecAll;
    var n, r := |DiskPieces(d)|, DeadBack(DiskPieces(d), kept);
    SettledParts(d, base, whole);
    if r < n { OnlyDeadFileLeft(d, kept, base, whole); }
    DeletesAll(d, kept);
    hide SuffixPlan, Times, Reach, Chain, AllNamed;
    FitsBack(d, n, base, whole);
  }

  lemma DeletesAll(d: Disk, kept: int)
    requires d.meta > kept
    requires DeadBack(DiskPieces(d), kept) == |DiskPieces(d)| || DeadBack(DiskPieces(d), kept) + 1 == |DiskPieces(d)|
    ensures SuffixPlan(d, kept) == Times(UnlinkLast, |DiskPieces(d)|)
  {
    hide DeadBack, DiskPieces, Times;
  }

  lemma SuffixAlive(d: Disk, kept: int, base: nat, whole: seq<F.Record>, w: seq<F.Record>)
    requires Settled(d, base, whole) && d.meta - 1 <= kept < base + |whole|
    requires var d1 := ExecAll(d, SuffixPlan(d, kept)); d1.meta == d.meta && Fits(d1, base, w) && (kept >= d.meta ==> |w| == kept + 1 - base)
    ensures Alive(ExecAll(d, SuffixPlan(d, kept)))
  {
    hide Fits, DiskPieces, Settled, SuffixPlan, ExecAll;
    var d1 := ExecAll(d, SuffixPlan(d, kept));
    if d.meta - 1 == kept {
      AllGone(d, kept, base, whole);
    } else {
      SuffixFromBack(d, kept);
      FrontStays(d, SuffixPlan(d, kept));
      SettledAlive(d, base, whole);
      SettledParts(d, base, whole);
      FitsParts(d1, base, w);
      PiecesOfDisk(d1);
      PiecesOfDisk(d);
      OpenReaches(d1, base, w);
      if d1.closed != [] { SameFirst(d, d1); }
    }
  }

  lemma SameFirst(d: Disk, d1: Disk)
    requires d1.closed <= d.closed && d1.closed != [] && AllNamed(d.closed)
    ensures DiskPieces(d1) != [] && DiskPieces(d) != [] && DiskPieces(d1)[0] == DiskPieces(d)[0] && DiskPieces(d)[0].entries != []
  {
    assert d.closed[0] == d1.closed[0];
    assert Named(d.closed[0]);
  }

  // ----- every event keeps the directory sound

  /** Behind any number of its file operations, an operation has left a directory that fits. */
  lemma Midway(d: Disk, op: Op, max: nat, i: nat, base: nat, whole: seq<F.Record>) returns (b: nat, w: seq<F.Record>)
    requires Settled(d, base, whole) && Allowed(LogOf(d), op) && i <= |PlanOf(d, op, max)|
    ensures var plan := PlanOf(d, op, max); var d1 := ExecAll(d, plan[..i]);
      && Fits(d1, b, w) && Recover(d1) == Ready(LogOf(d1)) && Outcome(LogOf(d), Crash(op, i), LogOf(d1))
      && (i == |plan| ==> LogOf(d1) == Effect(LogOf(d), op) && Alive(d1))
  {
    hide Fits, Recover, Meaning, DiskPieces, ExecAll, Alive, Settled, RollPlan, PrefixPlan, SuffixPlan, KeepsThrough;
    LogOfSettled(d, base, whole);
    var plan := PlanOf(d, op, max);
    var d1 := ExecAll(d, plan[..i]);
    assert i == |plan| ==> plan[..i] == plan;
    match op
    case Append(record) =>
      b := base;
      w := AppendAt(d, record, max, i, base, whole);
      RecoverFits(d1, b, w);
    case CutPrefix(kept) =>
      b, w := PrefixCrashSafe(d, kept, i, base, whole);
      if i == |plan| {
        PrefixAlive(d, kept, base, whole);
        if i == 0 { NothingToCut(d, kept); }
      }
    case CutSuffix(kept) =>
      b := base;
      w := SuffixCrashSafe(d, kept, i, base, whole);
      if i == |plan| {
        RecoverFits(d1, b, w);
        SuffixFromBack(d, kept);
        FrontStays(d, plan);
        SuffixLength(d, kept, base, whole, w);
        SuffixAlive(d, kept, base, whole, w);
      }
  }

  lemma NothingToCut(d: Disk, kept: nat)
    requires PrefixPlan(d, kept) == []
    ensures kept <= d.meta
  {
  }

  lemma SuffixLength(d: Disk, kept: int, base: nat, whole: seq<F.Record>, w: seq<F.Record>)
    requires base <= d.meta && d.meta - base <= |whole| && d.meta - 1 <= kept < base + |whole|
    requires Meaning(d.meta, base, w) == SuffixCut(Meaning(d.meta, base, whole), kept)
    ensures kept >= d.meta ==> |w| == kept + 1 - base
  {
  }

  /** A restart after any event succeeds, and finds the log that the event may have left. */
  predicate Found(d: Disk, e: Event, d1: Disk)
    requires Allowed(LogOf(d), e.op)
  {
    |d1.open| <= 1 && Recover(d1) == Ready(LogOf(d1)) && Outcome(LogOf(d), e, LogOf(d1))
  }

  lemma NextSound(d: Disk, e: Event, max: nat)
    requires Sound(d) && Enabled(d, e, max)
    ensures Sound(Next(d, e, max)) && Found(d, e, Next(d, e, max))
  {
    hide Settled, Fits, Recover, PlanOf, ExecAll, Alive, Outcome, Effect, Reopened;
    var base: nat, whole :| Settled(d, base, whole);
    var plan := PlanOf(d, e.op, max);
    match e
    case Done(op) =>
      var b, w := Midway(d, op, max, |plan|, base, whole);
      assert plan[..|plan|] == plan;
      FitsParts(ExecAll(d, plan), b, w);
      Stands(ExecAll(d, plan), b, w);
      DoneOutcome(LogOf(d), op, |plan|, LogOf(ExecAll(d, plan)));
    case Crash(op, i) =>
      var b, w := Midway(d, op, max, i, base, whole);
      RestartSettles(ExecAll(d, plan[..i]), b, w);
  }

  lemma DoneOutcome(f: Flat, op: Op, i: nat, g: Flat)
    requires Allowed(f, op) && g == Effect(f, op)
    ensures Outcome(f, Done(op), g)
  {
  }

  // ----- whole lives of a directory

  ghost predicate Life(ds: seq<Disk>, es: seq<Event>, max: nat) {
    && |ds| == |es| + 1 && ds[0] == FRESH
    && forall k :: 0 <= k < |es| ==> Enabled(ds[k], es[k], max) && ds[k + 1] == Next(ds[k], es[k], max)
  }

  lemma FreshSound()
    ensures Sound(FRESH) && Recover(FRESH) == Ready(Flat(1, []))
  {
    assert Settled(FRESH, 1, []);
    RecoverFits(FRESH, 1, []);
  }

  lemma {:induction false} SoundAlways(ds: seq<Disk>, es: seq<Event>, max: nat, k: nat)
    requires Life(ds, es, max) && k <= |es|
    ensures Sound(ds[k])
    decreases k
  {
    hide Sound, Enabled, Next;
    if k == 0 {
      FreshSound();
    } else {
      SoundAlways(ds, es, max, k - 1);
      NextSound(ds[k - 1], es[k - 1], max);
    }
  }

  /** Whatever has been done, torn and restarted before, a restart finds the log as the next event left it. */
  lemma EveryRestartFindsTheLog(ds: seq<Disk>, es: seq<Event>, max: nat, k: nat)
    requires Life(ds, es, max) && k < |es|
    ensures Allowed(LogOf(ds[k]), es[k].op) && Found(ds[k], es[k], ds[k + 1])
  {
    hide Sound, Next, Found;
    SoundAlways(ds, es, max, k);
    NextSound(ds[k], es[k], max);
  }

  /** A cut, finished or not, that is meant to take the entry at `index`. */
  predicate Takes(e: Event, index: int) {
    match e.op
    case Append(_) => false
    case CutPrefix(kept) => kept > index
    case CutSuffix(kept) => kept < index
  }

  /** An index loses its entry only to a cut, and gets one only as the next in line. */
  lemma OneIndex(f: Flat, e: Event, g: Flat, index: int)
    requires Allowed(f, e.op) && Outcome(f, e, g)
    ensures f.At(index).Some? && !Takes(e, index) ==> g.At(index) == f.At(index)
    ensures g.At(index).Some? && g.At(index) != f.At(index) ==> index == f.Last() + 1 && e.op == Append(g.At(index).value)
  {
  }

  lemma LogStep(ds: seq<Disk>, es: seq<Event>, max: nat, k: nat, index: int)
    requires Life(ds, es, max) && k < |es|
    ensures var f, g := LogOf(ds[k]), LogOf(ds[k + 1]);
      && (f.At(index).Some? && !Takes(es[k], index) ==> g.At(index) == f.At(index))
      && (g.At(index).Some? && g.At(index) != f.At(index) ==> index == f.Last() + 1 && es[k].op == Append(g.At(index).value))
  {
    hide LogOf, Enabled, Next, Outcome;
    EveryRestartFindsTheLog(ds, es, max, k);
    OneIndex(LogOf(ds[k]), es[k], LogOf(ds[k + 1]), index);
  }

  /** An entry outlives every operation, crash and restart but a cut that takes it. */
  lemma {:induction false} EntrySurvives(ds: seq<Disk>, es: seq<Event>, max: nat, j: nat, k: nat, index: int)
    requires Life(ds, es, max) && j <= k <= |es|
    requires LogOf(ds[j]).At(index).Some? && forall m :: j <= m < k ==> !Takes(es[m], index)
    ensures LogOf(ds[k]).At(index) == LogOf(ds[j]).At(index)
    decreases k - j
  {
    hide LogOf, Enabled, Next;
    if j < k {
      EntrySurvives(ds, es, max, j, k - 1, index);
      LogStep(ds, es, max, k - 1, index);
    }
  }

  /** An entry that a restart finds was appended at its index, finished or not, and has been there ever since. */
  lemma {:induction false} EntryWasAppended(ds: seq<Disk>, es: seq<Event>, max: nat, k: nat, index: int) returns (j: nat)
    requires Life(ds, es, max) && k <= |es| && LogOf(ds[k]).At(index).Some?
    ensures j < k && es[j].op == Append(LogOf(ds[k]).At(index).value) && LogOf(ds[j]).Last() + 1 == index
    ensures forall m :: j < m <= k ==> LogOf(ds[m]).At(index) == LogOf(ds[k]).At(index)
    decreases k
  {
    hide LogOf, Enabled, Next;
    if k == 0 {
      NothingAtFirst();
    } else {
      LogStep(ds, es, max, k - 1, index);
      if LogOf(ds[k - 1]).At(index) == LogOf(ds[k]).At(index) {
        j := EntryWasAppended(ds, es, max, k - 1, index);
      } else {
        j := k - 1;
      }
    }
  }

  lemma NothingAtFirst()
    ensures forall index :: LogOf(FRESH).At(index) == None
  {
    FreshSound();
  }
}
