/** The segmented and the in-memory storage side by side, over arbitrary sequences of operations. */
module StorageRuns {
  import opened Quorum
  import opened SegmentFormat
  import opened FlatLog
  import opened MemoryLog
  import opened SegmentStore

  datatype Op =
    | Append(entries: seq<Record>)
    | CutPrefix(firstKept: nat)
    | CutSuffix(lastKept: int)
    | Reset(next: nat)

  /** The log manager's discipline: cuts lie within the log, or drop it all from the front. */
  predicate Allowed(f: Flat, op: Op) {
    match op
    case Append(entries) => AllFit(entries)
    case CutPrefix(firstKept) => firstKept >= f.first
    case CutSuffix(lastKept) => f.first - 1 <= lastKept <= f.Last()
    case Reset(next) => next > 0
  }

  function Effect(f: Flat, op: Op): Flat
    requires Allowed(f, op)
  {
    match op
    case Append(entries) => Appended(f, entries)
    case CutPrefix(firstKept) => PrefixCut(f, firstKept)
    case CutSuffix(lastKept) => SuffixCut(f, lastKept)
    case Reset(next) => Restarted(next)
  }

  predicate Legal(f: Flat, ops: seq<Op>)
    decreases |ops|
  {
    ops == [] || (Allowed(f, ops[0]) && Legal(Effect(f, ops[0]), ops[1..]))
  }

  function After(f: Flat, ops: seq<Op>): Flat
    requires Legal(f, ops)
    decreases |ops|
  {
    if ops == [] then f else After(Effect(f, ops[0]), ops[1..])
  }

  /** One operation on both storages. */
  method Both(s: SegmentLogStorage, m: MemoryLogStorage, op: Op)
    requires s.Valid() && m.Valid() && s.View() == m.flat && Allowed(m.flat, op)
    modifies s, m, s.repr
    ensures s.Valid() && m.Valid() && s.View() == m.flat == Effect(old(m.flat), op)
    ensures fresh(s.repr - old(s.repr))
  {
    hide SegmentLogStorage.Valid;
    s.ViewBounds();
    s.Footprint();
    match op
    case Append(entries) =>
      var n := s.AppendEntries((s.lastLogIndex + 1) as nat, entries);
      m.AppendEntries(entries);
    case CutPrefix(firstKept) =>
      s.TruncatePrefix(firstKept);
      m.TruncatePrefix(firstKept);
    case CutSuffix(lastKept) =>
      var ok := s.TruncateSuffix(lastKept);
      m.TruncateSuffix(lastKept);
    case Reset(next) =>
      var a := s.Reset(next);
      var b := m.Reset(next);
  }

  /** Every run of the discipline leaves both storages with the log that one flat sequence would be. */
  method Replay(s: SegmentLogStorage, m: MemoryLogStorage, ops: seq<Op>)
    requires s.Valid() && m.Valid() && s.View() == m.flat && Legal(m.flat, ops)
    modifies s, m, s.repr
    ensures s.Valid() && m.Valid() && s.View() == m.flat == After(old(m.flat), ops)
    ensures fresh(s.repr - old(s.repr))
  {
    hide SegmentLogStorage.Valid, SegmentLogStorage.View, MemoryLogStorage.Valid;
    var i := 0;
    while i < |ops|
      invariant i <= |ops| && s.Valid() && m.Valid() && s.View() == m.flat && fresh(s.repr - old(s.repr))
      invariant Legal(m.flat, ops[i..]) && After(m.flat, ops[i..]) == After(old(m.flat), ops)
    {
      assert ops[i..][1..] == ops[i + 1..];
      Both(s, m, ops[i]);
      i := i + 1;
    }
  }

  /** After any run, both answer every read alike. */
  method SameReads(s: SegmentLogStorage, m: MemoryLogStorage, ops: seq<Op>, index: int)
      returns (a: Option<Record>, b: Option<Record>, ta: nat, tb: nat)
    requires s.Valid() && m.Valid() && s.View() == m.flat && Legal(m.flat, ops)
    modifies s, m, s.repr
    ensures a == b == After(old(m.flat), ops).At(index)
    ensures ta == tb == After(old(m.flat), ops).TermAt(index)
  {
    hide SegmentLogStorage.Valid, SegmentLogStorage.View, MemoryLogStorage.Valid;
    Replay(s, m, ops);
    a := s.GetEntry(index);
    b := m.GetEntry(index);
    ta := s.GetTerm(index);
    tb := m.GetTerm(index);
  }
}
