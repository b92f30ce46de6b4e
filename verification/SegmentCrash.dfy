/**
 The log directory under crashes: what each operation does file by file, and what a restart makes of
 a directory left in the middle. A renamed-away file counts as gone, since a restart deletes it.
 */
module SegmentCrash {
  import opened Quorum
  import opened SegmentFormat
  import opened FlatLog
  import opened Pieces

  /** A closed file carries its last index in its name. */
  datatype ClosedFile = ClosedFile(first: nat, last: int, content: seq<Record>)

  /** `closed` in the order of their first indexes; `open` lists the in-progress files. */
  datatype Disk = Disk(meta: nat, closed: seq<ClosedFile>, open: seq<Piece>)

  // ----- restart

  /** The check of list_segments: the closed files kept, or nothing if they do not fit together. */
  function ListClosed(closed: seq<ClosedFile>, meta: nat, lastLog: Option<int>): Option<seq<ClosedFile>>
    decreases |closed|
  {
    if closed == [] then Some([])
    else
      var s := closed[0];
      if s.first > s.last then None
      else if lastLog.Some? && s.first != lastLog.value + 1 then None
      else if lastLog.None? && meta < s.first then None
      else if lastLog.None? && meta > s.last then ListClosed(closed[1..], meta, None)
      else
        match ListClosed(closed[1..], meta, Some(s.last))
        case None => None
        case Some(rest) => Some([s] + rest)
  }

  /** A closed file must hold exactly the entries its name promises. */
  function LoadClosed(closed: seq<ClosedFile>): Option<seq<Record>> {
    if closed == [] then Some([])
    else if |closed[0].content| != closed[0].last + 1 - closed[0].first then None
    else
      match LoadClosed(closed[1..])
      case None => None
      case Some(rest) => Some(closed[0].content + rest)
  }

  /** `Holed`: the restart only warns about a gap before the in-progress file. */
  datatype Restart = Failed | Holed | Ready(log: Flat)

  function Recover(d: Disk): Restart {
    if |d.open| > 1 then Failed
    else
      match ListClosed(d.closed, d.meta, None)
      case None => Failed
      case Some(kept) =>
        match LoadClosed(kept)
        case None => Failed
        case Some(log) =>
          var last := if kept == [] then None else Some(kept[|kept| - 1].last);
          if d.open == [] || d.open[0].Next() <= d.meta then
            (if kept == [] then Ready(Flat(d.meta, []))
             else if kept[0].first > d.meta || d.meta - kept[0].first > |log| then Failed
             else Ready(Flat(d.meta, log[d.meta - kept[0].first..])))
          else
            var o := d.open[0];
            if last.Some? && last.value > o.first - 1 then Failed
            else if last.Some? && last.value + 1 != o.first then Holed
            else if last.None? && d.meta < o.first then Holed
            else
              var base := if kept == [] then o.first else kept[0].first;
              if base > d.meta || d.meta - base > |log + o.entries| then Failed
              else Ready(Flat(d.meta, (log + o.entries)[d.meta - base..]))
  }

  // ----- directories that fit together

  function PieceOfFile(f: ClosedFile): Piece { Piece(f.first, f.content) }

  function FilePieces(closed: seq<ClosedFile>): (ps: seq<Piece>)
    ensures |ps| == |closed| && forall i :: 0 <= i < |closed| ==> ps[i] == PieceOfFile(closed[i])
  {
    if closed == [] then [] else [PieceOfFile(closed[0])] + FilePieces(closed[1..])
  }

  function DiskPieces(d: Disk): seq<Piece> { FilePieces(d.closed) + d.open }

  lemma FilesFrom(closed: seq<ClosedFile>, k: nat)
    requires k <= |closed|
    ensures FilePieces(closed)[k..] == FilePieces(closed[k..])
  {
  }

  lemma FilesUpTo(closed: seq<ClosedFile>, open: seq<Piece>)
    ensures (FilePieces(closed) + open)[..|closed|] == FilePieces(closed)
  {
  }

  ghost predicate AllNamed(closed: seq<ClosedFile>) {
    forall i {:trigger closed[i]} :: 0 <= i < |closed| ==> Named(closed[i])
  }

  /** Each file ends where the next one begins. */
  ghost predicate Adjoin(closed: seq<ClosedFile>) {
    forall i, j {:trigger closed[i], closed[j]} :: 0 <= i < |closed| && j == i + 1 < |closed| ==> closed[i].last + 1 == closed[j].first
  }

  predicate Named(f: ClosedFile) { f.content != [] && f.last == f.first + |f.content| - 1 }

  /** The files form one chain that reaches back to the first index on record, or there are none. */
  ghost predicate Fits(d: Disk, base: nat, whole: seq<Record>) {
    && |d.open| <= 1
    && AllNamed(d.closed)
    && (DiskPieces(d) != [] ==> Chain(DiskPieces(d), base, whole) && base <= d.meta)
    && (DiskPieces(d) == [] ==> whole == [] && base <= d.meta)
  }

  /** What the directory means: everything from the first index on record. */
  function Meaning(meta: nat, base: nat, whole: seq<Record>): Flat
    requires base <= meta
  {
    if meta - base <= |whole| then Flat(meta, whole[meta - base..]) else Flat(meta, [])
  }

  /** Closed files behind a kept one are all kept, and load to the rest of the chain. */
  lemma {:induction false} ListFollowing(closed: seq<ClosedFile>, meta: nat, last: int)
    requires AllNamed(closed)
    requires closed != [] ==> closed[0].first == last + 1
    requires Adjoin(closed)
    ensures ListClosed(closed, meta, Some(last)) == Some(closed)
    decreases |closed|
  {
    if closed != [] {
      ListFollowing(closed[1..], meta, closed[0].last);
      assert [closed[0]] + closed[1..] == closed;
    }
  }

  /** The files dropped at a restart are those that end before the first index on record. */
  lemma {:induction false} ListKeeps(closed: seq<ClosedFile>, meta: nat) returns (k: nat)
    requires AllNamed(closed)
    requires Adjoin(closed)
    requires closed != [] ==> closed[0].first <= meta
    ensures k <= |closed| && ListClosed(closed, meta, None) == Some(closed[k..])
    ensures forall i :: 0 <= i < k ==> closed[i].last < meta
    ensures k < |closed| ==> closed[k].first <= meta <= closed[k].last
    decreases |closed|
  {
    if closed == [] {
      k := 0;
    } else if meta > closed[0].last {
      k := ListKeeps(closed[1..], meta);
      k := k + 1;
      assert closed[1..][k - 1..] == closed[k..];
    } else {
      k := 0;
      ListFollowing(closed[1..], meta, closed[0].last);
      assert [closed[0]] + closed[1..] == closed;
    }
  }

  /** The first piece is the front of the whole. */
  lemma FirstPiece(ps: seq<Piece>, base: nat, whole: seq<Record>)
    requires Chain(ps, base, whole) && ps != []
    ensures ps[0].first == base && |ps[0].entries| <= |whole| && ps[0].entries == whole[..|ps[0].entries|]
    ensures |ps| == 1 ==> ps[0].entries == whole
    ensures |ps| > 1 ==> ps[1].first == base + |ps[0].entries|
  {
    assert PieceOk(ps[0], base, whole);
    if |ps| > 1 { assert ps[0].Next() == ps[1].first; }
  }

  lemma LoadNext(closed: seq<ClosedFile>, rest: seq<Record>)
    requires closed != [] && AllNamed(closed) && LoadClosed(closed[1..]) == Some(rest)
    ensures LoadClosed(closed) == Some(closed[0].content + rest)
  {
    assert Named(closed[0]);
  }

  lemma NothingLoaded(closed: seq<ClosedFile>, base: nat, whole: seq<Record>)
    requires closed == [] && Chain(FilePieces(closed), base, whole)
    ensures LoadClosed(closed) == Some(whole)
  {
  }

  lemma NamedFrom(closed: seq<ClosedFile>, k: nat)
    requires AllNamed(closed) && k <= |closed|
    ensures AllNamed(closed[k..])
  {
    forall i | 0 <= i < |closed[k..]| ensures Named(closed[k..][i]) { assert Named(closed[k + i]); }
  }

  /** The first file's content, and the chain of the others. */
  lemma FirstFile(closed: seq<ClosedFile>, base: nat, whole: seq<Record>) returns (rest: seq<Record>)
    requires closed != [] && AllNamed(closed) && Chain(FilePieces(closed), base, whole)
    ensures whole == closed[0].content + rest
    ensures Chain(FilePieces(closed[1..]), closed[0].first + |closed[0].content|, rest)
  {
    hide PieceOk, AllNamed, Chain, FilePieces;
    var ps := FilePieces(closed);
    FirstPiece(ps, base, whole);
    FilesFrom(closed, 1);
    rest := whole[|closed[0].content|..];
    if |closed| > 1 {
      ChainDropFront(ps, 1, base, whole);
    } else {
      assert closed[1..] == [] && rest == [];
      EmptyChain(base + |closed[0].content|);
    }
  }

  lemma EmptyChain(base: nat)
    ensures Chain([], base, [])
  {
  }

  /** Loading well-named files of a chain gives the stretch of the whole they cover. */
  lemma {:induction false} LoadIsStretch(closed: seq<ClosedFile>, base: nat, whole: seq<Record>)
    requires AllNamed(closed)
    requires Chain(FilePieces(closed), base, whole)
    ensures LoadClosed(closed) == Some(whole)
    decreases |closed|
  {
    hide PieceOk, AllNamed, Chain, FilePieces, LoadClosed;
    if closed == [] {
      NothingLoaded(closed, base, whole);
    } else {
      var rest := FirstFile(closed, base, whole);
      NamedFrom(closed, 1);
      LoadIsStretch(closed[1..], closed[0].first + |closed[0].content|, rest);
      LoadNext(closed, rest);
    }
  }

  lemma PieceEnds(closed: seq<ClosedFile>, i: nat)
    requires AllNamed(closed) && i < |closed|
    ensures FilePieces(closed)[i] == PieceOfFile(closed[i]) && closed[i].last + 1 == FilePieces(closed)[i].Next()
  {
    assert Named(closed[i]);
  }

  lemma ClosedAdjoin(closed: seq<ClosedFile>, base: nat, whole: seq<Record>)
    requires AllNamed(closed) && Chain(FilePieces(closed), base, whole)
    ensures Adjoin(closed)
  {
    hide PieceOk, AllNamed;
    var ps := FilePieces(closed);
    forall i, j | 0 <= i < |closed| && j == i + 1 < |closed| ensures closed[i].last + 1 == closed[j].first {
      PieceEnds(closed, i);
      PieceEnds(closed, j);
      assert ps[i].Next() == ps[j].first;
    }
  }

  /** The closed files alone are a chain, and the in-progress file holds the rest. */
  lemma SplitOpen(d: Disk, base: nat, whole: seq<Record>) returns (end: nat)
    requires Fits(d, base, whole) && d.closed != []
    ensures base <= end && end - base <= |whole|
    ensures Chain(FilePieces(d.closed), base, whole[..end - base]) && Adjoin(d.closed)
    ensures d.closed[0].first == base && d.closed[|d.closed| - 1].last + 1 == end
    ensures d.open != [] ==> d.open[0].first == end && d.open[0].entries == whole[end - base..]
    ensures d.open == [] ==> end == base + |whole|
  {
    hide PieceOk, AllNamed, Chain, FilePieces;
    var ps, cs, n := DiskPieces(d), FilePieces(d.closed), |d.closed|;
    FilesUpTo(d.closed, d.open);
    assert ps[n - 1] == cs[n - 1] && ps[0] == cs[0];
    ChainKeepFront(ps, n, base, whole);
    end := ps[n - 1].Next();
    PieceEnds(d.closed, n - 1);
    PieceEnds(d.closed, 0);
    FirstPiece(ps, base, whole);
    ClosedAdjoin(d.closed, base, whole[..end - base]);
    TailPiece(ps, base, whole);
    if d.open != [] {
      assert ps[n] == d.open[0];
      Seam(ps, n, base, whole);
    }
  }

  lemma Seam(ps: seq<Piece>, k: nat, base: nat, whole: seq<Record>)
    requires Chain(ps, base, whole) && 0 < k < |ps|
    ensures ps[k - 1].Next() == ps[k].first
  {
  }

  /** The closed files from `k` on load to their stretch of the whole. */
  lemma ClosedFrom(closed: seq<ClosedFile>, k: nat, base: nat, whole: seq<Record>)
    requires AllNamed(closed) && Chain(FilePieces(closed), base, whole) && k < |closed|
    ensures base <= closed[k].first && closed[k].first - base <= |whole|
    ensures LoadClosed(closed[k..]) == Some(whole[closed[k].first - base..])
  {
    hide PieceOk, Chain, AllNamed, LoadClosed, FilePieces;
    ChainDropFront(FilePieces(closed), k, base, whole);
    FilesFrom(closed, k);
    NamedFrom(closed, k);
    LoadIsStretch(closed[k..], closed[k].first, whole[closed[k].first - base..]);
  }

  lemma TailPiece(ps: seq<Piece>, base: nat, whole: seq<Record>)
    requires Chain(ps, base, whole) && ps != []
    ensures var p := ps[|ps| - 1];
      base <= p.first && p.first - base <= |whole| && p.entries == whole[p.first - base..] && p.Next() == base + |whole|
  {
    assert PieceOk(ps[|ps| - 1], base, whole);
  }

  lemma LastKept(closed: seq<ClosedFile>, k: nat)
    requires k < |closed|
    ensures closed[k..] != [] && closed[k..][0] == closed[k] && closed[k..][|closed[k..]| - 1] == closed[|closed| - 1]
  {
  }

  lemma StretchTail(whole: seq<Record>, a: nat, b: nat, c: nat)
    requires a <= b <= |whole| && a <= c
    ensures whole[..b][a..] + whole[b..] == whole[a..]
    ensures c <= |whole| ==> whole[a..][c - a..] == whole[c..]
    ensures c <= b ==> whole[..b][a..][c - a..] == whole[..b][c..]
  {
  }

  /** What the last part of Recover computes, with the in-progress file in use. */
  lemma RecoverUsesOpen(d: Disk, kept: seq<ClosedFile>, log: seq<Record>)
    requires ListClosed(d.closed, d.meta, None) == Some(kept) && LoadClosed(kept) == Some(log)
    requires |d.open| == 1 && d.open[0].Next() > d.meta
    requires if kept == [] then d.open[0].first <= d.meta else kept[|kept| - 1].last + 1 == d.open[0].first && kept[0].first <= d.meta
    ensures var base := if kept == [] then d.open[0].first else kept[0].first;
      var all := log + d.open[0].entries;
      Recover(d) == if d.meta - base <= |all| then Ready(Flat(d.meta, all[d.meta - base..])) else Failed
  {
  }

  lemma RecoverWithoutOpen(d: Disk, kept: seq<ClosedFile>, log: seq<Record>)
    requires ListClosed(d.closed, d.meta, None) == Some(kept) && LoadClosed(kept) == Some(log)
    requires d.open == [] || (|d.open| == 1 && d.open[0].Next() <= d.meta)
    requires kept != [] ==> kept[0].first <= d.meta && d.meta - kept[0].first <= |log|
    ensures Recover(d) == Ready(Flat(d.meta, if kept == [] then [] else log[d.meta - kept[0].first..]))
  {
  }

  lemma MeaningWithin(meta: nat, base: nat, whole: seq<Record>)
    requires base <= meta
    ensures meta - base <= |whole| ==> Meaning(meta, base, whole) == Flat(meta, whole[meta - base..])
  {
  }

  lemma MeaningBeyond(meta: nat, base: nat, whole: seq<Record>)
    requires base <= meta
    ensures meta - base >= |whole| ==> Meaning(meta, base, whole) == Flat(meta, [])
  {
  }

  lemma NothingLoads()
    ensures LoadClosed([]) == Some([])
  {
  }

  /** Some closed file reaches the first index on record. */
  lemma RecoverWithClosed(d: Disk, k: nat, base: nat, whole: seq<Record>)
    requires Fits(d, base, whole) && k < |d.closed|
    requires ListClosed(d.closed, d.meta, None) == Some(d.closed[k..])
    requires d.closed[k].first <= d.meta <= d.closed[k].last
    ensures Recover(d) == Ready(Meaning(d.meta, base, whole))
  {
    hide Chain, Adjoin, ListClosed, LoadClosed, AllNamed, Recover, Fits, Meaning, FilePieces;
    FitsParts(d, base, whole);
    var end := SplitOpen(d, base, whole);
    MeaningWithin(d.meta, base, whole);
    ClosedFrom(d.closed, k, base, whole[..end - base]);
    LastKept(d.closed, k);
    LastIsMost(d.closed, k);
    var first := d.closed[k].first;
    var log := whole[..end - base][first - base..];
    StretchTail(whole, first - base, end - base, d.meta - base);
    assert d.meta < end;
    if d.open == [] {
      assert whole[..end - base] == whole;
      RecoverWithoutOpen(d, d.closed[k..], log);
    } else {
      assert log + d.open[0].entries == whole[first - base..];
      RecoverUsesOpen(d, d.closed[k..], log);
    }
  }

  lemma LastIsMost(closed: seq<ClosedFile>, k: nat)
    requires Adjoin(closed) && AllNamed(closed) && k < |closed|
    ensures closed[k].last <= closed[|closed| - 1].last
    decreases |closed| - k
  {
    if k + 1 < |closed| {
      assert Named(closed[k + 1]);
      LastIsMost(closed, k + 1);
    }
  }

  /** No closed file does: all of them, if any, are deleted. */
  lemma RecoverWithoutClosed(d: Disk, base: nat, whole: seq<Record>)
    requires Fits(d, base, whole)
    requires ListClosed(d.closed, d.meta, None) == Some([])
    requires d.closed != [] ==> d.closed[|d.closed| - 1].last < d.meta
    ensures Recover(d) == Ready(Meaning(d.meta, base, whole))
  {
    hide Chain, Adjoin, ListClosed, AllNamed, Recover, Fits, Meaning, FilePieces, LoadClosed;
    FitsParts(d, base, whole);
    NothingLoads();
    OpenReaches(d, base, whole);
    var end := base;
    if d.closed != [] { end := SplitOpen(d, base, whole); }
    if d.open == [] || d.open[0].Next() <= d.meta {
      MeaningBeyond(d.meta, base, whole);
      RecoverWithoutOpen(d, [], []);
    } else {
      DropNone(whole);
      OpenAlone(d, end, base, whole);
    }
  }

  lemma DropNone(whole: seq<Record>)
    ensures whole[0..] == whole
  {
  }

  lemma DropTwice(whole: seq<Record>, a: nat, c: nat)
    requires a <= c <= |whole|
    ensures whole[a..][c - a..] == whole[c..]
  {
  }

  lemma RecoverOpenOnly(d: Disk)
    requires |d.open| == 1 && ListClosed(d.closed, d.meta, None) == Some([])
    requires d.open[0].first <= d.meta < d.open[0].Next()
    ensures Recover(d) == Ready(Flat(d.meta, d.open[0].entries[d.meta - d.open[0].first..]))
  {
    hide ListClosed, Recover, LoadClosed;
    NothingLoads();
    RecoverUsesOpen(d, [], []);
    assert [] + d.open[0].entries == d.open[0].entries;
  }

  /** The in-progress file alone holds everything from the first index on record. */
  lemma OpenAlone(d: Disk, end: nat, base: nat, whole: seq<Record>)
    requires |d.open| == 1 && ListClosed(d.closed, d.meta, None) == Some([])
    requires base <= end <= d.meta < d.open[0].Next() == base + |whole|
    requires d.open[0].first == end && d.open[0].entries == whole[end - base..]
    ensures Recover(d) == Ready(Meaning(d.meta, base, whole))
  {
    hide ListClosed, Recover, Meaning;
    RecoverOpenOnly(d);
    DropTwice(whole, end - base, d.meta - base);
    MeaningWithin(d.meta, base, whole);
  }

  lemma OpenReaches(d: Disk, base: nat, whole: seq<Record>)
    requires Fits(d, base, whole)
    ensures d.open != [] ==> d.open[0].Next() == base + |whole|
    ensures d.closed == [] && d.open != [] ==> d.open[0].first == base
  {
    if d.open != [] {
      var ps := DiskPieces(d);
      assert ps[|ps| - 1] == d.open[0];
    }
  }

  /** A restart on a directory whose files fit together finds exactly the log it stands for. */
  lemma RecoverFits(d: Disk, base: nat, whole: seq<Record>)
    requires Fits(d, base, whole)
    ensures Recover(d) == Ready(Meaning(d.meta, base, whole))
  {
    hide Chain, Adjoin, ListClosed, LoadClosed, AllNamed, Recover;
    FitsParts(d, base, whole);
    if d.closed == [] {
      NothingListed(d.meta);
      RecoverWithoutClosed(d, base, whole);
    } else {
      var end := SplitOpen(d, base, whole);
      var k := ListKeeps(d.closed, d.meta);
      if k < |d.closed| {
        RecoverWithClosed(d, k, base, whole);
      } else {
        assert d.closed[k..] == [];
        RecoverWithoutClosed(d, base, whole);
      }
    }
  }

  lemma NothingListed(meta: nat)
    ensures ListClosed([], meta, None) == Some([])
  {
  }

  lemma FitsParts(d: Disk, base: nat, whole: seq<Record>)
    requires Fits(d, base, whole)
    ensures |d.open| <= 1 && base <= d.meta
    ensures AllNamed(d.closed)
    ensures d.closed == [] && d.open == [] ==> whole == []
    ensures d.closed == [] && d.open != [] ==> d.open[0].entries == whole
  {
    if d.closed == [] && d.open != [] { FirstPiece(DiskPieces(d), base, whole); }
  }

  // ----- the operations, file by file

  datatype FileOp =
    | SaveMeta(first: nat)
    | UnlinkFirst
    | UnlinkLast
    | CloseOpen
    | CreateOpen(first: nat)
    | ReopenLast
    | CutOpen(size: nat)
    | Write(record: Record)

  function Exec(d: Disk, op: FileOp): Disk {
    match op
    case SaveMeta(first) => d.(meta := first)
    case UnlinkFirst => if d.closed != [] then d.(closed := d.closed[1..]) else d.(open := [])
    case UnlinkLast =>
      if d.open != [] then d.(open := [])
      else if d.closed != [] then d.(closed := d.closed[..|d.closed| - 1]) else d
    case CloseOpen =>
      if d.open == [] then d
      else d.(closed := d.closed + [ClosedFile(d.open[0].first, d.open[0].Next() - 1, d.open[0].entries)], open := [])
    case CreateOpen(first) => d.(open := d.open + [Piece(first, [])])
    case ReopenLast =>
      if d.closed == [] then d
      else d.(closed := d.closed[..|d.closed| - 1], open := d.open + [PieceOfFile(d.closed[|d.closed| - 1])])
    case CutOpen(size) =>
      if d.open == [] || size > |d.open[0].entries| then d
      else d.(open := [Piece(d.open[0].first, d.open[0].entries[..size])])
    case Write(record) =>
      if d.open == [] then d else d.(open := [Piece(d.open[0].first, d.open[0].entries + [record])])
  }

  function ExecAll(d: Disk, ops: seq<FileOp>): Disk
    decreases |ops|
  {
    if ops == [] then d else ExecAll(Exec(d, ops[0]), ops[1..])
  }

  function Times(op: FileOp, n: nat): (r: seq<FileOp>)
    ensures |r| == n
  {
    if n == 0 then [] else [op] + Times(op, n - 1)
  }

  /** Pieces in front that end before `kept`. */
  function DeadFront(ps: seq<Piece>, kept: nat): (k: nat)
    ensures k <= |ps|
  {
    if ps == [] || ps[0].Next() > kept then 0 else 1 + DeadFront(ps[1..], kept)
  }

  /** Pieces at the back that begin behind `kept`. */
  function DeadBack(ps: seq<Piece>, kept: int): (k: nat)
    ensures k <= |ps|
  {
    if ps == [] || ps[|ps| - 1].first <= kept then 0 else 1 + DeadBack(ps[..|ps| - 1], kept)
  }

  /** truncate_prefix: the meta file first, then the files from front to back. */
  function PrefixPlan(d: Disk, kept: nat): seq<FileOp> {
    if kept <= d.meta then [] else [SaveMeta(kept)] + Times(UnlinkFirst, DeadFront(DiskPieces(d), kept))
  }

  /** truncate_suffix: files from back to front, then the last one is reopened and cut; or all go. */
  function SuffixPlan(d: Disk, kept: int): seq<FileOp> {
    var ps := DiskPieces(d);
    var r := DeadBack(ps, kept);
    if r == |ps| then Times(UnlinkLast, r)
    else if d.meta > kept then Times(UnlinkLast, r + 1)
    else
      var p := ps[|ps| - 1 - r];
      if p.first > kept + 1 || kept + 1 >= p.Next() then Times(UnlinkLast, r)
      else
        var reopen := if |ps| - 1 - r < |d.closed| then [ReopenLast] else [];
        Times(UnlinkLast, r) + reopen + [CutOpen(kept + 1 - p.first)]
  }

  /** open_segment: a full in-progress file is renamed before the next one is created. */
  function RollPlan(d: Disk, max: nat): seq<FileOp> {
    if d.open == [] then [CreateOpen(End(d))]
    else if TotalSize(d.open[0].entries) > max then [CloseOpen, CreateOpen(End(d))]
    else []
  }

  function End(d: Disk): nat {
    var ps := DiskPieces(d);
    if ps == [] then d.meta else ps[|ps| - 1].Next()
  }

  // ----- a directory between operations

  /** The files fit together and their first one reaches the first index on record. */
  ghost predicate Settled(d: Disk, base: nat, whole: seq<Record>) {
    Fits(d, base, whole) && d.meta - base <= |whole| && FirstOk(DiskPieces(d), base, d.meta)
  }

  lemma PiecesOfDisk(d: Disk)
    ensures |DiskPieces(d)| == |d.closed| + |d.open|
    ensures d.closed != [] ==> DiskPieces(d)[1..] == FilePieces(d.closed[1..]) + d.open
    ensures d.closed == [] ==> DiskPieces(d) == d.open
    ensures d.open == [] ==> DiskPieces(d) == FilePieces(d.closed)
    ensures d.open == [] && d.closed != [] ==> DiskPieces(d)[..|d.closed| - 1] == FilePieces(d.closed[..|d.closed| - 1])
    ensures |d.open| == 1 ==> DiskPieces(d)[..|d.closed|] == FilePieces(d.closed) && DiskPieces(d)[|d.closed|] == d.open[0]
  {
    if d.closed != [] { FilesFrom(d.closed, 1); }
  }

  lemma NamedSlices(closed: seq<ClosedFile>)
    requires AllNamed(closed) && closed != []
    ensures AllNamed(closed[1..]) && AllNamed(closed[..|closed| - 1])
  {
    NamedFrom(closed, 1);
    var q := closed[..|closed| - 1];
    forall i | 0 <= i < |q| ensures Named(q[i]) { assert Named(closed[i]); }
  }

  /** Deleting the first file takes away the first piece. */
  lemma UnlinkFirstPieces(d: Disk)
    requires |d.open| <= 1 && AllNamed(d.closed) && DiskPieces(d) != []
    ensures var d1 := Exec(d, UnlinkFirst);
      DiskPieces(d1) == DiskPieces(d)[1..] && |d1.open| <= 1 && AllNamed(d1.closed) && d1.meta == d.meta
  {
    hide AllNamed;
    PiecesOfDisk(d);
    PiecesOfDisk(Exec(d, UnlinkFirst));
    if d.closed != [] { NamedSlices(d.closed); }
  }

  lemma UnlinkLastPieces(d: Disk)
    requires |d.open| <= 1 && AllNamed(d.closed) && DiskPieces(d) != []
    ensures var d1 := Exec(d, UnlinkLast);
      DiskPieces(d1) == DiskPieces(d)[..|DiskPieces(d)| - 1] && d1.open == [] && AllNamed(d1.closed) && d1.meta == d.meta
  {
    hide AllNamed;
    PiecesOfDisk(d);
    PiecesOfDisk(Exec(d, UnlinkLast));
    if d.open == [] { NamedSlices(d.closed); }
  }

  lemma MeaningDropped(meta: nat, base: nat, b: nat, whole: seq<Record>)
    requires base <= b <= meta && b - base <= |whole|
    ensures Meaning(meta, b, whole[b - base..]) == Meaning(meta, base, whole)
  {
    if meta - base <= |whole| { SliceTwice(whole, b - base, meta - base); }
  }

  /** A dead first file can go: the directory keeps its meaning. */
  lemma DropOne(d: Disk, base: nat, whole: seq<Record>) returns (b: nat, w: seq<Record>)
    requires Fits(d, base, whole) && DiskPieces(d) != [] && DiskPieces(d)[0].Next() <= d.meta
    ensures b <= d.meta && Fits(Exec(d, UnlinkFirst), b, w) && Meaning(d.meta, b, w) == Meaning(d.meta, base, whole)
  {
    hide Chain, AllNamed, Meaning, Exec;
    var ps := DiskPieces(d);
    FirstPiece(ps, base, whole);
    UnlinkFirstPieces(d);
    if |ps| > 1 {
      ChainDropFront(ps, 1, base, whole);
      b, w := ps[1].first, whole[ps[1].first - base..];
      MeaningDropped(d.meta, base, b, whole);
    } else {
      b, w := d.meta, [];
      MeaningNothing(d.meta, base, whole);
    }
  }

  lemma MeaningNothing(meta: nat, base: nat, whole: seq<Record>)
    requires base + |whole| <= meta
    ensures Meaning(meta, base, whole) == Flat(meta, []) == Meaning(meta, meta, [])
  {
  }

  /** So can any number of dead files at the front. */
  lemma {:induction false} FitsFront(d: Disk, k: nat, base: nat, whole: seq<Record>) returns (b: nat, w: seq<Record>)
    requires Fits(d, base, whole) && k <= |DiskPieces(d)|
    requires forall i :: 0 <= i < k ==> DiskPieces(d)[i].Next() <= d.meta
    ensures Fits(ExecAll(d, Times(UnlinkFirst, k)), b, w)
    ensures b <= d.meta && Meaning(d.meta, b, w) == Meaning(d.meta, base, whole)
    ensures ExecAll(d, Times(UnlinkFirst, k)).meta == d.meta
    ensures DiskPieces(ExecAll(d, Times(UnlinkFirst, k))) == DiskPieces(d)[k..]
    decreases k
  {
    hide Fits, Meaning, Exec;
    b, w := base, whole;
    FitsParts(d, base, whole);
    if k > 0 {
      UnlinkFirstPieces(d);
      var d1 := Exec(d, UnlinkFirst);
      b, w := DropOne(d, base, whole);
      assert Times(UnlinkFirst, k)[1..] == Times(UnlinkFirst, k - 1);
      b, w := FitsFront(d1, k - 1, b, w);
      assert DiskPieces(d)[1..][k - 1..] == DiskPieces(d)[k..];
    }
  }

  /** Where the first `m` pieces end, counted from `base`. */
  function Reach(ps: seq<Piece>, m: nat, base: nat): nat
    requires m <= |ps|
  {
    if m == 0 || ps[m - 1].Next() < base then 0 else ps[m - 1].Next() - base
  }

  lemma FitsOneBack(d: Disk, base: nat, whole: seq<Record>)
    requires Fits(d, base, whole) && DiskPieces(d) != []
    ensures var ps, n := DiskPieces(d), |DiskPieces(d)| - 1;
      && Reach(ps, n, base) <= |whole|
      && Fits(Exec(d, UnlinkLast), base, whole[..Reach(ps, n, base)])
  {
    hide Meaning, Exec, AllNamed, Chain, DiskPieces;
    var ps := DiskPieces(d);
    UnlinkLastPieces(d);
    if |ps| > 1 { ChainKeepFront(ps, |ps| - 1, base, whole); }
  }

  lemma PrefixTwice(whole: seq<Record>, n: nat, m: nat)
    requires m <= n <= |whole|
    ensures whole[..n][..m] == whole[..m]
  {
  }

  lemma ReachShorter(ps: seq<Piece>, n: nat, m: nat, base: nat, whole: seq<Record>)
    requires m <= n <= |ps| && Chain(ps, base, whole)
    ensures ps[..n][..m] == ps[..m] && Reach(ps[..n], m, base) == Reach(ps, m, base) <= Reach(ps, n, base) <= |whole|
    ensures whole[..Reach(ps, n, base)][..Reach(ps, m, base)] == whole[..Reach(ps, m, base)]
  {
    if 0 < m < n { assert ps[m - 1].Next() <= ps[n - 1].first; }
    if 0 < n { assert PieceOk(ps[n - 1], base, whole); }
    hide Chain, PieceOk;
    assert ps[..n][..m] == ps[..m];
    PrefixTwice(whole, Reach(ps, n, base), Reach(ps, m, base));
  }

  lemma {:induction false} FitsBack(d: Disk, k: nat, base: nat, whole: seq<Record>)
    requires Fits(d, base, whole) && k <= |DiskPieces(d)|
    ensures var d', n := ExecAll(d, Times(UnlinkLast, k)), |DiskPieces(d)| - k;
      && Reach(DiskPieces(d), n, base) <= |whole|
      && Fits(d', base, whole[..Reach(DiskPieces(d), n, base)])
      && d'.meta == d.meta && DiskPieces(d') == DiskPieces(d)[..n]
      && d'.open == (if k == 0 then d.open else [])
    decreases k
  {
    hide Meaning, Exec, AllNamed, Chain, DiskPieces, Reach;
    var ps := DiskPieces(d);
    ReachAll(ps, base, whole, d);
    if k == 0 {
      assert whole[..|whole|] == whole && ps[..|ps|] == ps;
    } else {
      UnlinkLastPieces(d);
      var d1, n := Exec(d, UnlinkLast), |ps| - 1;
      FitsOneBack(d, base, whole);
      ReachShorter(ps, n, |ps| - k, base, whole);
      assert Times(UnlinkLast, k)[1..] == Times(UnlinkLast, k - 1);
      FitsBack(d1, k - 1, base, whole[..Reach(ps, n, base)]);
    }
  }

  lemma ReachAll(ps: seq<Piece>, base: nat, whole: seq<Record>, d: Disk)
    requires Fits(d, base, whole) && ps == DiskPieces(d)
    ensures Reach(ps, |ps|, base) == |whole|
  {
  }

  // ----- crashes between any two file operations

  lemma {:induction false} TimesPrefix(op: FileOp, n: nat, m: nat)
    requires m <= n
    ensures Times(op, n)[..m] == Times(op, m)
  {
    if m > 0 { TimesPrefix(op, n - 1, m - 1); }
  }

  lemma {:induction false} ExecSplit(d: Disk, a: seq<FileOp>, b: seq<FileOp>)
    ensures ExecAll(d, a + b) == ExecAll(ExecAll(d, a), b)
    decreases |a|
  {
    if a == [] {
      assert a + b == b;
    } else {
      assert (a + b)[1..] == a[1..] + b;
      ExecSplit(Exec(d, a[0]), a[1..], b);
    }
  }

  lemma {:induction false} DeadFrontEnds(ps: seq<Piece>, kept: nat)
    ensures forall i :: 0 <= i < DeadFront(ps, kept) ==> ps[i].Next() <= kept
  {
    if ps != [] && ps[0].Next() <= kept {
      DeadFrontEnds(ps[1..], kept);
      forall i | 0 <= i < DeadFront(ps, kept) ensures ps[i].Next() <= kept {
        if i > 0 { assert ps[i] == ps[1..][i - 1]; }
      }
    }
  }

  lemma {:induction false} DeadBackStarts(ps: seq<Piece>, kept: int)
    ensures var r := DeadBack(ps, kept);
      && (forall i :: |ps| - r <= i < |ps| ==> ps[i].first > kept)
      && (r < |ps| ==> ps[|ps| - r - 1].first <= kept)
  {
    if ps != [] && ps[|ps| - 1].first > kept {
      DeadBackStarts(ps[..|ps| - 1], kept);
    }
  }

  lemma FitsMeta(d: Disk, meta: nat, base: nat, whole: seq<Record>)
    requires Fits(d, base, whole) && meta >= d.meta
    ensures Fits(d.(meta := meta), base, whole) && DiskPieces(d.(meta := meta)) == DiskPieces(d)
  {
  }

  lemma MeaningCut(meta: nat, kept: nat, base: nat, whole: seq<Record>)
    requires base <= meta < kept && meta - base <= |whole|
    ensures Meaning(kept, base, whole) == PrefixCut(Meaning(meta, base, whole), kept)
  {
    if kept - base <= |whole| { SliceTwice(whole, meta - base, kept - base); }
  }

  /** truncate_prefix: a crash before the meta file is saved leaves the old log, any later one the cut log. */
  lemma PrefixCrashSafe(d: Disk, kept: nat, i: nat, base: nat, whole: seq<Record>) returns (b: nat, w: seq<Record>)
    requires Settled(d, base, whole) && i <= |PrefixPlan(d, kept)|
    ensures Fits(ExecAll(d, PrefixPlan(d, kept)[..i]), b, w)
    ensures var f := Meaning(d.meta, base, whole);
      Recover(ExecAll(d, PrefixPlan(d, kept)[..i])) == Ready(if i == 0 then f else PrefixCut(f, kept))
  {
    hide Fits, Recover, Meaning, DiskPieces;
    b, w := base, whole;
    if i == 0 {
      RecoverFits(d, base, whole);
    } else {
      var k := DeadFront(DiskPieces(d), kept);
      var d1 := d.(meta := kept);
      FitsParts(d, base, whole);
      FitsMeta(d, kept, base, whole);
      DeadFrontEnds(DiskPieces(d), kept);
      TimesPrefix(UnlinkFirst, k, i - 1);
      assert PrefixPlan(d, kept)[..i][1..] == Times(UnlinkFirst, i - 1);
      b, w := FitsFront(d1, i - 1, base, whole);
      RecoverFits(ExecAll(d1, Times(UnlinkFirst, i - 1)), b, w);
      MeaningCut(d.meta, kept, base, whole);
    }
  }

  /** `g` starts where `f` starts, keeps at least everything up to `kept`, and adds nothing. */
  predicate KeepsThrough(g: Flat, f: Flat, kept: int) {
    g.first == f.first && f.first - 1 <= kept <= f.Last() && f.log[..kept + 1 - f.first] <= g.log <= f.log
  }

  /** Cutting the whole anywhere behind `kept` keeps what is meant to be kept. */
  lemma MeaningKept(meta: nat, base: nat, whole: seq<Record>, e: nat, kept: int)
    requires base <= meta && meta - 1 <= kept < base + |whole| && kept + 1 - base <= e <= |whole|
    ensures KeepsThrough(Meaning(meta, base, whole[..e]), Meaning(meta, base, whole), kept)
    ensures e == kept + 1 - base ==> Meaning(meta, base, whole[..e]) == SuffixCut(Meaning(meta, base, whole), kept)
  {
    var f := Meaning(meta, base, whole);
    assert f.log == whole[meta - base..];
    SliceWithin(whole, meta - base, e);
    assert f.log[..e - (meta - base)] == whole[..e][meta - base..];
  }

  /** What is left after some of the dead files at the back were deleted reaches `kept`. */
  lemma BackReaches(d: Disk, kept: int, i: nat, base: nat, whole: seq<Record>)
    requires Settled(d, base, whole) && d.meta - 1 <= kept < base + |whole| && i <= DeadBack(DiskPieces(d), kept)
    ensures kept + 1 - base <= Reach(DiskPieces(d), |DiskPieces(d)| - i, base) <= |whole|
    ensures i == |DiskPieces(d)| ==> kept == base - 1 == d.meta - 1
  {
    hide AllNamed, DiskPieces, PieceOk;
    var ps := DiskPieces(d);
    DeadBackStarts(ps, kept);
    if i > 0 {
      assert ps[|ps| - i].first > kept;
      if i < |ps| {
        ReachShorter(ps, |ps|, |ps| - i, base, whole);
        Seam(ps, |ps| - i, base, whole);
      }
    } else {
      ReachAll(ps, base, whole, d);
    }
  }

  /** After `i` of the dead files at the back were deleted, a restart keeps what is meant to be kept. */
  lemma DeletingBackIsSafe(d: Disk, kept: int, i: nat, base: nat, whole: seq<Record>)
    requires Settled(d, base, whole) && d.meta - 1 <= kept < base + |whole| && i <= DeadBack(DiskPieces(d), kept)
    ensures var f, d' := Meaning(d.meta, base, whole), ExecAll(d, Times(UnlinkLast, i));
      var e := Reach(DiskPieces(d), |DiskPieces(d)| - i, base);
      && e <= |whole| && Fits(d', base, whole[..e])
      && Recover(d') == Ready(Meaning(d.meta, base, whole[..e])) && KeepsThrough(Meaning(d.meta, base, whole[..e]), f, kept)
      && (e == kept + 1 - base ==> Meaning(d.meta, base, whole[..e]) == SuffixCut(f, kept))
  {
    hide Fits, Recover, Meaning, DiskPieces, KeepsThrough;
    FitsParts(d, base, whole);
    BackReaches(d, kept, i, base, whole);
    FitsBack(d, i, base, whole);
    var e := Reach(DiskPieces(d), |DiskPieces(d)| - i, base);
    RecoverFits(ExecAll(d, Times(UnlinkLast, i)), base, whole[..e]);
    MeaningKept(d.meta, base, whole, e, kept);
  }

  lemma ChainOrder(ps: seq<Piece>, i: nat, j: nat, base: nat, whole: seq<Record>)
    requires Chain(ps, base, whole) && i < j < |ps|
    ensures ps[i].Next() <= ps[j].first
  {
  }

  lemma FirstNotEmpty(d: Disk)
    requires AllNamed(d.closed) && |d.open| <= 1
    ensures |DiskPieces(d)| > 1 ==> DiskPieces(d)[0].entries != []
  {
    if d.closed != [] { assert Named(d.closed[0]); }
  }

  /** If the log starts behind `kept`, only the file that holds dead entries is left to delete. */
  lemma OnlyDeadFileLeft(d: Disk, kept: int, base: nat, whole: seq<Record>)
    requires Settled(d, base, whole) && d.meta - 1 == kept && DeadBack(DiskPieces(d), kept) < |DiskPieces(d)|
    ensures DeadBack(DiskPieces(d), kept) + 1 == |DiskPieces(d)|
  {
    hide PieceOk, Chain, DiskPieces, FilePieces, Fits, Settled, AllNamed, DeadBack;
    var ps := DiskPieces(d);
    var j := |ps| - DeadBack(ps, kept) - 1;
    DeadBackStarts(ps, kept);
    SettledParts(d, base, whole);
    FirstNotEmpty(d);
    AfterFirst(ps, base, whole);
  }

  lemma AfterFirst(ps: seq<Piece>, base: nat, whole: seq<Record>)
    requires Chain(ps, base, whole)
    ensures forall j :: 0 < j < |ps| ==> ps[0].Next() <= ps[j].first
  {
    hide PieceOk;
    forall j | 0 < j < |ps| ensures ps[0].Next() <= ps[j].first { ChainOrder(ps, 0, j, base, whole); }
  }

  lemma SettledParts(d: Disk, base: nat, whole: seq<Record>)
    requires Settled(d, base, whole)
    ensures Fits(d, base, whole) && AllNamed(d.closed) && |d.open| <= 1 && FirstOk(DiskPieces(d), base, d.meta)
    ensures DiskPieces(d) != [] ==> Chain(DiskPieces(d), base, whole)
  {
  }

  lemma MeaningOfNothing(meta: nat, base: nat, whole: seq<Record>, kept: int)
    requires base <= meta && meta - 1 == kept && meta - base <= |whole|
    ensures KeepsThrough(Meaning(meta, base, []), Meaning(meta, base, whole), kept)
    ensures Meaning(meta, base, []) == SuffixCut(Meaning(meta, base, whole), kept)
  {
  }

  /** A closed last file that is renamed back to in-progress still holds the same piece. */
  lemma ReopenFits(d: Disk, base: nat, whole: seq<Record>)
    requires Fits(d, base, whole) && d.open == [] && d.closed != []
    ensures var d2 := Exec(d, ReopenLast);
      Fits(d2, base, whole) && DiskPieces(d2) == DiskPieces(d) && d2.meta == d.meta && |d2.open| == 1
  {
    hide Chain, AllNamed;
    NamedSlices(d.closed);
    PiecesOfDisk(d);
    var n, cs := |d.closed| - 1, FilePieces(d.closed);
    assert cs == cs[..n] + [PieceOfFile(d.closed[n])];
    assert DiskPieces(Exec(d, ReopenLast)) == FilePieces(d.closed[..n]) + [PieceOfFile(d.closed[n])];
  }

  /** Shortening the in-progress file shortens the whole. */
  lemma CutFits(d: Disk, kept: int, base: nat, whole: seq<Record>)
    requires Fits(d, base, whole) && |d.open| == 1 && d.open[0].first <= kept < base + |whole|
    ensures var d3 := Exec(d, CutOpen((kept + 1 - d.open[0].first) as nat));
      base <= kept + 1 && Fits(d3, base, whole[..kept + 1 - base]) && d3.meta == d.meta
  {
    hide Chain, AllNamed;
    var p := d.open[0];
    OpenReaches(d, base, whole);
    assert d.open == [p];
    ChainCutLast(FilePieces(d.closed), p, (kept + 1 - p.first) as nat, base, whole);
  }

  /** What truncate_suffix does once the dead files are gone. */
  function CutPlan(d: Disk, kept: int, first: nat): seq<FileOp>
    requires first <= kept + 1
  {
    (if d.open == [] then [ReopenLast] else []) + [CutOpen(kept + 1 - first)]
  }

  lemma CuttingIsSafe(d: Disk, kept: int, i: nat, base: nat, whole: seq<Record>) returns (w: seq<Record>)
    requires Fits(d, base, whole) && DiskPieces(d) != [] && d.meta - 1 <= kept < base + |whole|
    requires var p := DiskPieces(d)[|DiskPieces(d)| - 1]; p.first <= kept && i <= |CutPlan(d, kept, p.first)|
    ensures var plan := CutPlan(d, kept, DiskPieces(d)[|DiskPieces(d)| - 1].first);
      var d' := ExecAll(d, plan[..i]);
      && d.meta >= base && kept + 1 >= base && w == (if i < |plan| then whole else whole[..kept + 1 - base])
      && Fits(d', base, w) && |d'.open| <= 1 && Recover(d') == Ready(Meaning(d.meta, base, w))
  {
    hide Fits, Recover, Meaning, Exec;
    var p := DiskPieces(d)[|DiskPieces(d)| - 1];
    var plan := CutPlan(d, kept, p.first);
    FitsParts(d, base, whole);
    PiecesOfDisk(d);
    var d2 := d;
    if d.open == [] {
      ReopenFits(d, base, whole);
      d2 := Exec(d, ReopenLast);
      PiecesOfDisk(d2);
    }
    CutFits(d2, kept, base, whole);
    var d3 := Exec(d2, CutOpen(kept + 1 - p.first));
    RunPlan(d, plan, i);
    FitsParts(d2, base, whole);
    FitsParts(d3, base, whole[..kept + 1 - base]);
    RecoverFits(d, base, whole);
    RecoverFits(d2, base, whole);
    RecoverFits(d3, base, whole[..kept + 1 - base]);
    w := if i < |plan| then whole else whole[..kept + 1 - base];
  }

  /** Plans of one or two operations, unrolled. */
  lemma RunPlan(d: Disk, plan: seq<FileOp>, i: nat)
    requires 1 <= |plan| <= 2 && i <= |plan|
    ensures ExecAll(d, plan[..i]) ==
      if i == 0 then d else if i == 1 then Exec(d, plan[0]) else Exec(Exec(d, plan[0]), plan[1])
  {
    hide Exec;
    if i >= 1 {
      var d1 := Exec(d, plan[0]);
      assert plan[..i] == [plan[0]] + plan[1..i];
      ExecSplit(d, [plan[0]], plan[1..i]);
      ExecOne(d, plan[0]);
      if i == 2 {
        assert plan[1..2] == [plan[1]];
        ExecOne(d1, plan[1]);
      }
    }
  }

  lemma ExecOne(d: Disk, op: FileOp)
    ensures ExecAll(d, [op]) == Exec(d, op)
  {
    assert [op][1..] == [];
  }

  /** truncate_suffix: whatever happened between two file operations, a restart finds a gap-free piece of the old log
      that keeps everything up to `kept`; after the last one, exactly the cut log. */
  lemma SuffixCrashSafe(d: Disk, kept: int, i: nat, base: nat, whole: seq<Record>) returns (w: seq<Record>)
    requires Settled(d, base, whole) && d.meta - 1 <= kept < base + |whole| && i <= |SuffixPlan(d, kept)|
    ensures Fits(ExecAll(d, SuffixPlan(d, kept)[..i]), base, w)
    ensures var f, d' := Meaning(d.meta, base, whole), ExecAll(d, SuffixPlan(d, kept)[..i]);
      && |d'.open| <= 1 && Recover(d').Ready? && KeepsThrough(Recover(d').log, f, kept)
      && (i == |SuffixPlan(d, kept)| ==> Recover(d').log == SuffixCut(f, kept))
  {
    hide Fits, Recover, Meaning, DiskPieces, KeepsThrough, Exec, SuffixCut;
    var ps := DiskPieces(d);
    var r, n := DeadBack(ps, kept), |ps|;
    var plan := SuffixPlan(d, kept);
    if i <= r {
      DeletingBackIsSafe(d, kept, i, base, whole);
      UnlinkedOnly(d, kept, i);
      w := whole[..Reach(ps, n - i, base)];
      FitsParts(ExecAll(d, Times(UnlinkLast, i)), base, w);
      if i == |plan| { LastUnlink(d, kept, base, whole); }
    } else if d.meta > kept {
      OnlyDeadFileLeft(d, kept, base, whole);
      UnlinkedOnly(d, kept, i);
      AllDeleted(d, kept, i, base, whole);
      w := [];
    } else {
      w := CutAfterUnlinks(d, kept, i, base, whole);
    }
  }

  /** The first operations of the plan are deletions from the back. */
  lemma UnlinkedOnly(d: Disk, kept: int, i: nat)
    requires i <= |SuffixPlan(d, kept)|
    requires i <= DeadBack(DiskPieces(d), kept) || (d.meta > kept && DeadBack(DiskPieces(d), kept) < |DiskPieces(d)|)
    ensures SuffixPlan(d, kept)[..i] == Times(UnlinkLast, i)
  {
    var r := DeadBack(DiskPieces(d), kept);
    if i <= r { TimesPrefix(UnlinkLast, r, i); }
    if i <= r + 1 { TimesPrefix(UnlinkLast, r + 1, i); }
    if i <= r { assert SuffixPlan(d, kept)[..r] == Times(UnlinkLast, r) || SuffixPlan(d, kept) == Times(UnlinkLast, r + 1); }
  }

  /** When deleting is all there is to do, what is left ends at `kept`. */
  lemma LastUnlink(d: Disk, kept: int, base: nat, whole: seq<Record>)
    requires Settled(d, base, whole) && d.meta - 1 <= kept < base + |whole|
    requires |SuffixPlan(d, kept)| == DeadBack(DiskPieces(d), kept)
    ensures Reach(DiskPieces(d), |DiskPieces(d)| - DeadBack(DiskPieces(d), kept), base) == kept + 1 - base
  {
    hide PieceOk, DeadBack;
    var r := DeadBack(DiskPieces(d), kept);
    BackReaches(d, kept, r, base, whole);
    DeadBackStarts(DiskPieces(d), kept);
  }

  lemma AllDeleted(d: Disk, kept: int, n: nat, base: nat, whole: seq<Record>)
    requires Settled(d, base, whole) && d.meta - 1 == kept && n == |DiskPieces(d)|
    ensures var f, d' := Meaning(d.meta, base, whole), ExecAll(d, Times(UnlinkLast, n));
      && Fits(d', base, []) && |d'.open| <= 1
      && Recover(d') == Ready(SuffixCut(f, kept)) && KeepsThrough(SuffixCut(f, kept), f, kept)
  {
    hide Fits, Recover, Meaning, DiskPieces, KeepsThrough, Exec, SuffixCut;
    var d' := ExecAll(d, Times(UnlinkLast, n));
    FitsParts(d, base, whole);
    FitsBack(d, n, base, whole);
    FitsParts(d', base, whole[..0]);
    RecoverFits(d', base, whole[..0]);
    assert whole[..0] == [];
    MeaningOfNothing(d.meta, base, whole, kept);
  }

  /** The part of the plan behind the deletions: reopen if need be, then cut. */
  lemma CutAfterUnlinks(d: Disk, kept: int, i: nat, base: nat, whole: seq<Record>) returns (w: seq<Record>)
    requires Settled(d, base, whole) && d.meta <= kept < base + |whole|
    requires DeadBack(DiskPieces(d), kept) < i <= |SuffixPlan(d, kept)|
    ensures Fits(ExecAll(d, SuffixPlan(d, kept)[..i]), base, w)
    ensures var f, d' := Meaning(d.meta, base, whole), ExecAll(d, SuffixPlan(d, kept)[..i]);
      && |d'.open| <= 1 && Recover(d').Ready? && KeepsThrough(Recover(d').log, f, kept)
      && (i == |SuffixPlan(d, kept)| ==> Recover(d').log == SuffixCut(f, kept))
  {
    hide Fits, Recover, Meaning, KeepsThrough, Exec, SuffixCut;
    var ps := DiskPieces(d);
    var r, n := DeadBack(ps, kept), |ps|;
    var d1, e := ExecAll(d, Times(UnlinkLast, r)), Reach(ps, n - r, base);
    FitsParts(d, base, whole);
    PlanTail(d, kept);
    FitsBack(d, r, base, whole);
    DeadBackStarts(ps, kept);
    BackReaches(d, kept, r, base, whole);
    var tail := CutPlan(d1, kept, ps[n - r - 1].first);
    assert SuffixPlan(d, kept)[..i] == Times(UnlinkLast, r) + tail[..i - r];
    ExecSplit(d, Times(UnlinkLast, r), tail[..i - r]);
    w := CuttingIsSafe(d1, kept, i - r, base, whole[..e]);
    assert whole[..e][..kept + 1 - base] == whole[..kept + 1 - base];
    MeaningKept(d.meta, base, whole, e, kept);
    MeaningKept(d.meta, base, whole, kept + 1 - base, kept);
  }

  lemma {:induction false} OpenAfter(d: Disk, r: nat)
    requires |d.open| <= 1
    ensures ExecAll(d, Times(UnlinkLast, r)).open == if r == 0 then d.open else []
    decreases r
  {
    if r > 0 {
      assert Times(UnlinkLast, r)[1..] == Times(UnlinkLast, r - 1);
      OpenAfter(Exec(d, UnlinkLast), r - 1);
    }
  }

  lemma PlanTail(d: Disk, kept: int)
    requires |d.open| <= 1 && d.meta <= kept && DeadBack(DiskPieces(d), kept) < |SuffixPlan(d, kept)|
    ensures var ps, r := DiskPieces(d), DeadBack(DiskPieces(d), kept);
      && r < |ps| && ps[|ps| - r - 1].first <= kept
      && SuffixPlan(d, kept) == Times(UnlinkLast, r) + CutPlan(ExecAll(d, Times(UnlinkLast, r)), kept, ps[|ps| - r - 1].first)
  {
    hide ExecAll, DeadBack, DiskPieces, Times;
    var ps, r := DiskPieces(d), DeadBack(DiskPieces(d), kept);
    DeadBackStarts(ps, kept);
    PiecesOfDisk(d);
    OpenAfter(d, r);
    var p := ps[|ps| - 1 - r];
    var reopen := if |ps| - 1 - r < |d.closed| then [ReopenLast] else [];
    assert SuffixPlan(d, kept) == Times(UnlinkLast, r) + reopen + [CutOpen((kept + 1 - p.first) as nat)];
    assert Times(UnlinkLast, r) + (reopen + [CutOpen((kept + 1 - p.first) as nat)])
        == Times(UnlinkLast, r) + reopen + [CutOpen((kept + 1 - p.first) as nat)];
  }

  // ----- rolling

  lemma CloseFits(d: Disk, base: nat, whole: seq<Record>)
    requires Fits(d, base, whole) && |d.open| == 1 && d.open[0].entries != []
    ensures var d1 := Exec(d, CloseOpen);
      Fits(d1, base, whole) && DiskPieces(d1) == DiskPieces(d) && d1.meta == d.meta && d1.open == []
  {
    hide Chain;
    var o := d.open[0];
    var f := ClosedFile(o.first, o.Next() - 1, o.entries);
    var closed := d.closed + [f];
    assert d.open == [o];
    forall i | 0 <= i < |closed| ensures Named(closed[i]) {
      if i < |d.closed| { assert Named(d.closed[i]); }
    }
    assert FilePieces(closed) == FilePieces(d.closed) + [o];
    assert AllNamed(closed);
    var d1 := Exec(d, CloseOpen);
    assert d1 == d.(closed := closed, open := []);
    assert DiskPieces(d1) == FilePieces(closed) == DiskPieces(d);
  }

  lemma CreateFits(d: Disk, base: nat, whole: seq<Record>)
    requires Settled(d, base, whole) && d.open == []
    ensures var d1 := Exec(d, CreateOpen(End(d)));
      Fits(d1, base, whole) && d1.meta == d.meta
  {
    var ps := DiskPieces(d);
    PiecesOfDisk(d);
    if ps == [] {
      assert DiskPieces(Exec(d, CreateOpen(End(d)))) == [Piece(d.meta, [])];
    } else {
      ChainAddEmpty(ps, base, whole);
      assert DiskPieces(Exec(d, CreateOpen(End(d)))) == ps + [Piece(base + |whole|, [])];
    }
  }

  /** open_segment: at every point of a roll a restart finds the whole log and at most one in-progress file. */
  lemma RollCrashSafe(d: Disk, max: nat, i: nat, base: nat, whole: seq<Record>)
    requires Settled(d, base, whole) && i <= |RollPlan(d, max)|
    ensures var d' := ExecAll(d, RollPlan(d, max)[..i]);
      Fits(d', base, whole) && |d'.open| <= 1 && d.meta >= base && Recover(d') == Ready(Meaning(d.meta, base, whole))
  {
    hide Fits, Recover, Meaning, DiskPieces, Exec, FirstOk;
    var plan := RollPlan(d, max);
    FitsParts(d, base, whole);
    RecoverFits(d, base, whole);
    if plan != [] {
      RunPlan(d, plan, i);
      var d1 := d;
      if d.open != [] {
        CloseFits(d, base, whole);
        d1 := Exec(d, CloseOpen);
        RecoverFits(d1, base, whole);
      }
      CreateFits(d1, base, whole);
      var d2 := Exec(d1, CreateOpen(End(d1)));
      FitsParts(d2, base, whole);
      RecoverFits(d2, base, whole);
    }
  }
}
