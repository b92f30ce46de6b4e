/** Pieces of one sequence that follow one another without gap or overlap. */
module Pieces {
  import opened SegmentFormat

  datatype Piece = Piece(first: nat, entries: seq<Record>) {
    function Next(): nat { first + |entries| }
  }

  /** The piece holds its stretch of `whole`, whose first entry has index `base`. */
  predicate PieceOk(p: Piece, base: nat, whole: seq<Record>) {
    base <= p.first && p.Next() - base <= |whole| && p.entries == whole[p.first - base..p.Next() - base]
  }

  ghost predicate Chain(ps: seq<Piece>, base: nat, whole: seq<Record>) {
    && (forall i {:trigger ps[i]} :: 0 <= i < |ps| ==> PieceOk(ps[i], base, whole))
    && (forall i, j {:trigger ps[i], ps[j]} :: 0 <= i < j < |ps| ==>
          ps[i].Next() <= ps[j].first && (j == i + 1 ==> ps[i].Next() == ps[j].first))
    && if ps == [] then whole == [] else ps[0].first == base && ps[|ps| - 1].Next() == base + |whole|
  }

  lemma ChainAddEmpty(ps: seq<Piece>, base: nat, whole: seq<Record>)
    requires Chain(ps, base, whole)
    ensures Chain(ps + [Piece(base + |whole|, [])], base, whole)
  {
  }

  lemma PieceGrows(p: Piece, base: nat, whole: seq<Record>, r: Record)
    requires PieceOk(p, base, whole)
    ensures PieceOk(p, base, whole + [r])
    ensures p.Next() == base + |whole| ==> PieceOk(Piece(p.first, p.entries + [r]), base, whole + [r])
  {
    assert (whole + [r])[p.first - base..p.Next() - base] == whole[p.first - base..p.Next() - base];
  }

  lemma ChainGrow(ps: seq<Piece>, p: Piece, base: nat, whole: seq<Record>, r: Record)
    requires Chain(ps + [p], base, whole)
    ensures Chain(ps + [Piece(p.first, p.entries + [r])], base, whole + [r])
  {
    hide PieceOk;
    var q0, q := ps + [p], ps + [Piece(p.first, p.entries + [r])];
    assert q0[|ps|] == p;
    forall i | 0 <= i < |q| ensures PieceOk(q[i], base, whole + [r]) { PieceGrows(q0[i], base, whole, r); }
    forall i, j | 0 <= i < j < |q| ensures q[i].Next() <= q[j].first && (j == i + 1 ==> q[i].Next() == q[j].first) {
      assert q0[i].Next() <= q0[j].first;
    }
    assert q0[0].first == base;
  }

  lemma PieceShifts(p: Piece, base: nat, whole: seq<Record>, newBase: nat)
    requires PieceOk(p, base, whole) && base <= newBase <= p.first
    ensures newBase - base <= |whole| && PieceOk(p, newBase, whole[newBase - base..])
  {
    assert whole[newBase - base..][p.first - newBase..p.Next() - newBase] == whole[p.first - base..p.Next() - base];
  }

  /** Dropping the first `k` pieces leaves the chain of the rest. */
  lemma ChainDropFront(ps: seq<Piece>, k: nat, base: nat, whole: seq<Record>)
    requires Chain(ps, base, whole) && k < |ps|
    ensures base <= ps[k].first && ps[k].first - base <= |whole|
    ensures Chain(ps[k..], ps[k].first, whole[ps[k].first - base..])
  {
    assert PieceOk(ps[k], base, whole);
    var q, w := ps[k..], whole[ps[k].first - base..];
    forall i | 0 <= i < |q| ensures PieceOk(q[i], ps[k].first, w) {
      assert i > 0 ==> ps[k].Next() <= ps[k + i].first;
      PieceShifts(ps[k + i], base, whole, ps[k].first);
    }
    forall i, j | 0 <= i < j < |q| ensures q[i].Next() <= q[j].first && (j == i + 1 ==> q[i].Next() == q[j].first) {
      assert ps[k + i].Next() <= ps[k + j].first;
    }
    assert q[|q| - 1] == ps[|ps| - 1];
  }

  /** Keeping the first `k` pieces keeps their part of the whole. */
  lemma ChainKeepFront(ps: seq<Piece>, k: nat, base: nat, whole: seq<Record>)
    requires Chain(ps, base, whole) && 0 < k <= |ps|
    ensures base <= ps[k - 1].Next() <= base + |whole|
    ensures Chain(ps[..k], base, whole[..ps[k - 1].Next() - base])
  {
    var q, w := ps[..k], whole[..ps[k - 1].Next() - base];
    forall i | 0 <= i < |q| ensures PieceOk(q[i], base, w) {
      assert PieceOk(ps[i], base, whole);
      assert i < k - 1 ==> ps[i].Next() <= ps[k - 1].first;
    }
  }

  /** Shortening the last piece shortens the whole. */
  lemma ChainCutLast(ps: seq<Piece>, p: Piece, n: nat, base: nat, whole: seq<Record>)
    requires Chain(ps + [p], base, whole) && n <= |p.entries|
    ensures base <= p.first && p.first + n - base <= |whole|
    ensures Chain(ps + [Piece(p.first, p.entries[..n])], base, whole[..p.first + n - base])
  {
    var q0, q, w := ps + [p], ps + [Piece(p.first, p.entries[..n])], whole[..p.first + n - base];
    assert q0[|ps|] == p;
    forall i | 0 <= i < |q| ensures PieceOk(q[i], base, w) {
      assert PieceOk(q0[i], base, whole);
      assert i < |ps| ==> q0[i].Next() <= q0[|ps|].first;
    }
    forall i, j | 0 <= i < j < |q| ensures q[i].Next() <= q[j].first && (j == i + 1 ==> q[i].Next() == q[j].first) {
      assert q0[i].Next() <= q0[j].first;
    }
    assert q0[0].first == base;
  }

  /** An index inside piece `i` names the same entry in the piece and in the whole. */
  lemma ChainAt(ps: seq<Piece>, i: nat, index: nat, base: nat, whole: seq<Record>)
    requires Chain(ps, base, whole) && i < |ps| && ps[i].first <= index < ps[i].Next()
    ensures base <= index && index - base < |whole| && ps[i].entries[index - ps[i].first] == whole[index - base]
  {
    assert PieceOk(ps[i], base, whole);
    assert whole[ps[i].first - base..ps[i].Next() - base][index - ps[i].first] == whole[index - base];
  }

  /** The first piece reaches the first index of the log, unless nothing is in it. */
  predicate FirstOk(ps: seq<Piece>, base: nat, first: nat) {
    if ps == [] then base == first else ps[0].entries != [] ==> first < ps[0].Next()
  }

  /** The bounds of a log kept in pieces. */
  ghost predicate Shape(ps: seq<Piece>, base: nat, whole: seq<Record>, first: nat, last: int) {
    Chain(ps, base, whole) && last == base + |whole| - 1 && base <= first <= last + 1 && FirstOk(ps, base, first)
  }

  lemma ShapeParts(ps: seq<Piece>, base: nat, whole: seq<Record>, first: nat, last: int)
    requires Shape(ps, base, whole, first, last)
    ensures last == base + |whole| - 1 && base <= first <= last + 1
    ensures ps == [] ==> base == first == last + 1
    ensures ps != [] ==> ps[|ps| - 1].Next() == last + 1 && ps[0].first == base
  {
  }

  lemma ShapeEmpty(next: nat)
    ensures Shape([], next, [], next, next - 1)
  {
  }

  lemma ShapeAddEmpty(ps: seq<Piece>, base: nat, whole: seq<Record>, first: nat, last: int)
    requires Shape(ps, base, whole, first, last)
    ensures last + 1 >= 0 && Shape(ps + [Piece((last + 1) as nat, [])], base, whole, first, last)
  {
    ChainAddEmpty(ps, base, whole);
  }

  lemma ShapeGrow(ps: seq<Piece>, p: Piece, base: nat, whole: seq<Record>, first: nat, last: int, r: Record)
    requires Shape(ps + [p], base, whole, first, last)
    ensures Shape(ps + [Piece(p.first, p.entries + [r])], base, whole + [r], first, last + 1)
    ensures (whole + [r])[first - base..] == whole[first - base..] + [r]
  {
    hide Chain;
    ChainGrow(ps, p, base, whole, r);
    var q0, q := ps + [p], ps + [Piece(p.first, p.entries + [r])];
    ChainEnds(q0, base, whole);
    if ps == [] {
      assert q0 == [p] && q == [Piece(p.first, p.entries + [r])];
    } else {
      assert q0[0] == ps[0] == q[0];
    }
  }

  /** The piece that an index falls into, by the upper bound of the first indexes. */
  lemma ShapeFind(ps: seq<Piece>, it: nat, index: int, base: nat, whole: seq<Record>, first: nat, last: int)
    requires Shape(ps, base, whole, first, last) && first <= index <= last && it <= |ps|
    requires it < |ps| ==> index < ps[it].first
    requires it > 0 ==> ps[it - 1].first <= index
    ensures it > 0 && ps[it - 1].first <= index < ps[it - 1].Next()
    ensures ps[it - 1].entries[index - ps[it - 1].first] == whole[index - base]
  {
    assert ps != [] && ps[0].first == base;
    if it > 0 && it < |ps| { assert ps[it - 1].Next() == ps[it].first; }
    ChainAt(ps, it - 1, index, base, whole);
  }

  /** Pieces wholly before `kept` go; the rest is the cut log. */
  lemma ShapeDropFront(ps: seq<Piece>, k: nat, kept: nat, base: nat, whole: seq<Record>, first: nat, last: int)
    requires Shape(ps, base, whole, first, last) && first < kept && k < |ps|
    requires ps[k].Next() > kept && (k > 0 ==> ps[k - 1].Next() <= kept)
    ensures base <= ps[k].first <= kept <= last && ps[k].first - base <= |whole|
    ensures Shape(ps[k..], ps[k].first, whole[ps[k].first - base..], kept, last)
    ensures whole[ps[k].first - base..][kept - ps[k].first..] == whole[kept - base..]
  {
    hide Chain;
    ChainDropFront(ps, k, base, whole);
    ChainSeam(ps, k, base, whole);
    assert ps[k..][0] == ps[k];
    SliceTwice(whole, ps[k].first - base, kept - base);
  }

  lemma ChainSeam(ps: seq<Piece>, k: nat, base: nat, whole: seq<Record>)
    requires Chain(ps, base, whole) && k < |ps|
    ensures base <= ps[k].first && ps[k].Next() <= base + |whole|
    ensures if k == 0 then ps[k].first == base else ps[k - 1].Next() == ps[k].first
  {
    assert PieceOk(ps[k], base, whole);
    if k > 0 { assert ps[k - 1].Next() == ps[k].first; }
  }

  lemma SliceTwice(s: seq<Record>, a: nat, b: nat)
    requires a <= b <= |s|
    ensures s[a..][b - a..] == s[b..]
  {
  }

  lemma SliceWithin(s: seq<Record>, a: nat, b: nat)
    requires a <= b <= |s|
    ensures s[..b][a..] == s[a..][..b - a]
  {
  }

  lemma ShapeAllDead(ps: seq<Piece>, kept: nat, base: nat, whole: seq<Record>, first: nat, last: int)
    requires Shape(ps, base, whole, first, last) && first < kept
    requires ps != [] ==> ps[|ps| - 1].Next() <= kept
    ensures last < kept
  {
  }

  /** Keeping the first `j` pieces, none of the others starting at or before `kept`. */
  lemma ShapeKeepFront(ps: seq<Piece>, j: nat, kept: int, base: nat, whole: seq<Record>, first: nat, last: int)
    requires Shape(ps, base, whole, first, last) && first - 1 <= kept <= last && j <= |ps|
    requires j < |ps| ==> ps[j].first > kept
    requires j > 0 ==> ps[j - 1].first <= kept
    ensures j == 0 || kept < first ==> kept == first - 1
    ensures j > 0 ==> kept < ps[j - 1].Next() <= base + |whole|
    ensures j > 0 && first <= kept ==>
      Shape(ps[..j], base, whole[..ps[j - 1].Next() - base], first, ps[j - 1].Next() - 1)
  {
    if j > 0 {
      ChainKeepFront(ps, j, base, whole);
      if j < |ps| { assert ps[j - 1].Next() == ps[j].first; }
      assert ps[..j][0] == ps[0];
    } else if ps != [] {
      assert ps[0].first == base;
    }
  }

  lemma ShapeCutLast(ps: seq<Piece>, p: Piece, kept: int, base: nat, whole: seq<Record>, first: nat, last: int)
    requires Shape(ps + [p], base, whole, first, last) && p.first <= kept && first <= kept <= last
    ensures kept + 1 - p.first <= |p.entries| && base <= kept + 1 && kept + 1 - base <= |whole|
    ensures Shape(ps + [Piece(p.first, p.entries[..kept + 1 - p.first])], base, whole[..kept + 1 - base], first, kept)
    ensures whole[..kept + 1 - base][first - base..] == whole[first - base..][..kept + 1 - first]
  {
    hide Chain;
    var q0 := ps + [p];
    ChainEnds(q0, base, whole);
    assert q0[|q0| - 1] == p;
    var q := ps + [Piece(p.first, p.entries[..kept + 1 - p.first])];
    ChainCutLast(ps, p, (kept + 1 - p.first) as nat, base, whole);
    if ps == [] {
      assert q0[0] == p && q[0] == Piece(p.first, p.entries[..kept + 1 - p.first]);
    } else {
      assert q0[0] == ps[0] == q[0];
    }
    SliceWithin(whole, first - base, kept + 1 - base);
  }

  lemma ChainEnds(ps: seq<Piece>, base: nat, whole: seq<Record>)
    requires Chain(ps, base, whole) && ps != []
    ensures ps[0].first == base && ps[|ps| - 1].Next() == base + |whole|
  {
  }
}

/** The segmented log: closed segments in index order, one open segment, and the bounds of the log. */
module SegmentStore {
  import opened Quorum
  import opened SegmentFormat
  import opened FlatLog
  import opened Pieces
  import opened Segments

  // ----- what segment objects contribute

  /** A well-formed file that holds the piece's entries. */
  ghost predicate Keeps(s: Segment, p: Piece) reads s {
    s.Valid() && s.firstIndex == p.first && s.entries == p.entries && s.lastIndex == p.Next() - 1
  }

  /** Closed segments are separate objects and not empty. */
  ghost predicate ClosedOk(q: seq<Segment>, ps: seq<Piece>) reads q {
    && |q| == |ps|
    && (forall i, j :: 0 <= i < j < |q| ==> q[i] != q[j])
    && (forall i :: 0 <= i < |q| ==> Keeps(q[i], ps[i]) && !q[i].isOpen && ps[i].entries != [])
  }

  lemma ClosedAt(q: seq<Segment>, ps: seq<Piece>, i: nat)
    requires ClosedOk(q, ps) && i < |q|
    ensures |ps| == |q| && Keeps(q[i], ps[i]) && !q[i].isOpen && ps[i].entries != []
    ensures q[i].firstIndex == ps[i].first && q[i].lastIndex == ps[i].Next() - 1
  {
  }

  lemma ClosedBehind(q: seq<Segment>, ps: seq<Piece>, k: nat)
    requires ClosedOk(q, ps) && k <= |q|
    ensures |ps| == |q| && ClosedOk(q[k..], ps[k..])
  {
  }

  lemma ClosedBefore(q: seq<Segment>, ps: seq<Piece>, k: nat)
    requires ClosedOk(q, ps) && k <= |q|
    ensures |ps| == |q| && ClosedOk(q[..k], ps[..k]) && (k < |q| ==> q[k] !in q[..k])
  {
  }

  lemma ClosedMore(q: seq<Segment>, ps: seq<Piece>, s: Segment, p: Piece)
    requires ClosedOk(q, ps) && s !in q && Keeps(s, p) && !s.isOpen && p.entries != []
    ensures ClosedOk(q + [s], ps + [p])
  {
  }

  // ----- the live part of what the segments hold

  function Live(whole: seq<Record>, base: nat, first: nat): Flat
    requires base <= first && first - base <= |whole|
  {
    Flat(first, whole[first - base..])
  }

  lemma LivePrefixCut(whole: seq<Record>, base: nat, first: nat, kept: nat)
    requires base <= first < kept < base + |whole|
    ensures PrefixCut(Live(whole, base, first), kept) == Live(whole, base, kept)
  {
    SliceTwice(whole, first - base, kept - base);
  }

  lemma LiveDropped(whole: seq<Record>, base: nat, newBase: nat, first: nat)
    requires base <= newBase <= first && first - base <= |whole|
    ensures Live(whole[newBase - base..], newBase, first) == Live(whole, base, first)
  {
    SliceTwice(whole, newBase - base, first - base);
  }

  lemma LiveSuffixCut(whole: seq<Record>, base: nat, first: nat, kept: int)
    requires base <= first <= kept + 1 <= base + |whole|
    ensures Live(whole[..kept + 1 - base], base, first) == SuffixCut(Live(whole, base, first), kept)
  {
    SliceWithin(whole, first - base, kept + 1 - base);
  }

  lemma LiveAppended(whole: seq<Record>, base: nat, first: nat, r: Record)
    requires base <= first && first - base <= |whole|
    ensures Live(whole + [r], base, first) == Appended(Live(whole, base, first), [r])
  {
    assert (whole + [r])[first - base..] == whole[first - base..] + [r];
  }

  lemma LiveAt(whole: seq<Record>, base: nat, first: nat, index: nat)
    requires base <= first <= index < base + |whole|
    ensures Live(whole, base, first).At(index) == Some(whole[index - base])
  {
  }

  class SegmentLogStorage {
    const maxSegmentSize: nat
    const checksumType: byte
    const checksum: Checksum
    var firstLogIndex: nat
    var lastLogIndex: int
    /** The ordered map of closed segments, as the sequence of its values in key order. */
    var segments: seq<Segment>
    var openSegment: Segment?
    /** The first index on record in the meta file. */
    var savedFirst: nat

    /** The entries of all segments, from index `base` on; those before `firstLogIndex` are dead. */
    ghost var base: nat
    ghost var whole: seq<Record>
    /** What the closed segments hold, and the open one if there is one. */
    ghost var closed: seq<Piece>
    ghost var tail: seq<Piece>
    ghost var repr: set<Segment>

    ghost predicate OpenOk() reads this, openSegment {
      && |tail| == (if openSegment == null then 0 else 1)
      && (openSegment != null ==> Keeps(openSegment, tail[0]) && openSegment.isOpen && openSegment !in segments)
    }

    ghost predicate Valid() reads this, segments, openSegment {
      && Known(checksumType) && ClosedOk(segments, closed) && OpenOk() && InRepr()
      && Shape(closed + tail, base, whole, firstLogIndex, lastLogIndex)
    }

    ghost function View(): Flat
      requires Valid()
      reads this, segments, openSegment
    {
      hide Segment.Valid, ClosedOk, OpenOk, InRepr;
      Live(whole, base, firstLogIndex)
    }

    /** All segments this log ever allocated. */
    ghost predicate InRepr() reads this {
      (forall s :: s in segments ==> s in repr) && (openSegment != null ==> openSegment in repr)
    }

    ghost predicate Bare() reads this { segments == [] && openSegment == null }

    constructor (maxSegmentSize: nat, checksumType: byte, checksum: Checksum)
      requires Known(checksumType)
      ensures Valid() && View() == Flat(1, []) && this.maxSegmentSize == maxSegmentSize && Bare() && repr == {}
    {
      this.maxSegmentSize, this.checksumType, this.checksum := maxSegmentSize, checksumType, checksum;
      firstLogIndex, lastLogIndex, segments, openSegment, savedFirst := 1, 0, [], null, 1;
      base, whole, closed, tail, repr := 1, [], [], [], {};
      new;
      assert closed + tail == [];
      hide Shape, Segment.Valid, Keeps;
      ShapeEmpty(1);
    }

    /** A new empty segment goes where the next entry will be. */
    method CreateOpen()
      requires Valid() && openSegment == null
      modifies this`openSegment, this`tail, this`repr
      ensures Valid() && View() == old(View()) && openSegment != null && fresh(openSegment)
      ensures fresh(repr - old(repr)) && old(repr) <= repr
      ensures openSegment.bytes == 0 && openSegment.lastIndex == lastLogIndex
    {
      hide Segment.Valid, Shape, ClosedOk;
      ShapeParts(closed + tail, base, whole, firstLogIndex, lastLogIndex);
      ShapeAddEmpty(closed + tail, base, whole, firstLogIndex, lastLogIndex);
      var s := new Segment.Create((lastLogIndex + 1) as nat, checksumType, checksum);
      s.Facts();
      assert closed + tail == closed;
      openSegment := s;
      tail := [Piece((lastLogIndex + 1) as nat, [])];
      repr := repr + {s};
    }

    /** The open segment joins the closed ones. */
    method CloseOpen()
      requires Valid() && openSegment != null && openSegment.bytes > 0
      modifies this`openSegment, this`segments, this`closed, this`tail, openSegment
      ensures Valid() && View() == old(View()) && openSegment == null
    {
      hide Segment.Valid, Shape, ClosedOk;
      openSegment.Facts();
      openSegment.Close();
      ClosedMore(segments, closed, openSegment, tail[0]);
      assert closed + tail == (closed + [tail[0]]) + [];
      segments := segments + [openSegment];
      closed, tail, openSegment := closed + [tail[0]], [], null;
    }

    lemma LastIsOpen()
      requires Valid() && openSegment != null
      ensures openSegment.lastIndex == lastLogIndex
    {
      hide Segment.Valid, Shape, ClosedOk;
      ShapeParts(closed + tail, base, whole, firstLogIndex, lastLogIndex);
      assert (closed + tail)[|closed + tail| - 1] == tail[0];
    }

    /** The segment that takes the next entry; a full one is closed first. */
    method OpenSegment()
      requires Valid()
      modifies this`openSegment, this`segments, this`closed, this`tail, this`repr, openSegment
      ensures Valid() && View() == old(View()) && openSegment != null
      ensures fresh(repr - old(repr)) && old(repr) <= repr
      ensures openSegment.bytes <= maxSegmentSize && openSegment.lastIndex == lastLogIndex
      ensures openSegment == old(openSegment) || fresh(openSegment)
    {
      hide Segment.Valid, Shape, ClosedOk, OpenOk;
      if openSegment == null { CreateOpen(); }
      if openSegment.bytes > maxSegmentSize {
        CloseOpen();
        CreateOpen();
      } else {
        LastIsOpen();
      }
    }

    /** Puts one entry into the open segment, which ends where the log ends. */
    method AppendOne(r: Record)
      requires Valid() && openSegment != null && Fits(r)
      modifies this`lastLogIndex, this`whole, this`tail, openSegment
      ensures Valid() && View() == Appended(old(View()), [r]) && lastLogIndex == old(lastLogIndex) + 1
    {
      hide Segment.Valid, Shape, ClosedOk, Live, Appended;
      ghost var p := tail[0];
      ShapeParts(closed + tail, base, whole, firstLogIndex, lastLogIndex);
      assert tail == [p];
      LastIsOpen();
      ShapeGrow(closed, p, base, whole, firstLogIndex, lastLogIndex, r);
      LiveAppended(whole, base, firstLogIndex, r);
      var ok := openSegment.Append(lastLogIndex + 1, r);
      openSegment.Facts();
      lastLogIndex := lastLogIndex + 1;
      whole := whole + [r];
      tail := [Piece(p.first, p.entries + [r])];
    }

    /** Appends at the end of the log only; a gap is refused before anything is written. */
    method AppendEntries(first: nat, entries: seq<Record>) returns (n: int)
      requires Valid() && AllFit(entries)
      modifies this`openSegment, this`segments, this`lastLogIndex, this`whole, this`closed, this`tail, this`repr, openSegment
      ensures Valid() && fresh(repr - old(repr)) && old(repr) <= repr
      ensures entries == [] ==> n == 0
      ensures entries != [] ==> n == if first == old(lastLogIndex) + 1 then |entries| else -1
      ensures View() == if n > 0 then Appended(old(View()), entries) else old(View())
    {
      hide Segment.Valid, Shape, ClosedOk, OpenOk, Fits, Live;
      if entries == [] { return 0; }
      if lastLogIndex + 1 != first { return -1; }
      var i := 0;
      while i < |entries|
        invariant i <= |entries| && Valid() && (openSegment == old(openSegment) || fresh(openSegment))
        invariant fresh(repr - old(repr)) && old(repr) <= repr
        invariant View() == Appended(old(View()), entries[..i])
      {
        OpenSegment();
        AppendOne(entries[i]);
        assert entries[..i + 1] == entries[..i] + [entries[i]];
        i := i + 1;
      }
      assert entries[..i] == entries;
      n := |entries|;
    }

    /** How many closed segments start at or before `index`: the upper bound in the map. */
    method UpperBound(index: int) returns (it: nat)
      ensures it <= |segments| && (it > 0 ==> segments[it - 1].firstIndex <= index)
      ensures it < |segments| ==> segments[it].firstIndex > index
    {
      it := 0;
      while it < |segments| && segments[it].firstIndex <= index
        invariant it <= |segments| && (it > 0 ==> segments[it - 1].firstIndex <= index)
      {
        it := it + 1;
      }
    }

    /** The segment that holds `index`: the open one, or the last closed one that starts at or before it. */
    method GetSegment(index: int) returns (s: Segment?)
      requires Valid()
      ensures s != null <==> firstLogIndex <= index <= lastLogIndex
      ensures s != null ==> s.Valid() && s.firstIndex <= index <= s.lastIndex
      ensures s != null ==> View().At(index) == Some(s.entries[index - s.firstIndex])
    {
      hide Segment.Valid, Shape, ClosedOk, Live;
      ghost var ps := closed + tail;
      ShapeParts(ps, base, whole, firstLogIndex, lastLogIndex);
      if firstLogIndex == lastLogIndex + 1 || index < firstLogIndex || index > lastLogIndex { return null; }
      LiveAt(whole, base, firstLogIndex, index);
      ClosedBefore(segments, closed, |segments|);
      if openSegment != null && index >= openSegment.firstIndex {
        assert ps[|segments|] == tail[0];
        ShapeFind(ps, |segments| + 1, index, base, whole, firstLogIndex, lastLogIndex);
        return openSegment;
      }
      var it := UpperBound(index);
      if it < |segments| { ClosedAt(segments, closed, it); }
      if it > 0 { ClosedAt(segments, closed, it - 1); }
      ShapeFind(ps, it, index, base, whole, firstLogIndex, lastLogIndex);
      s := segments[it - 1];
    }

    method GetEntry(index: int) returns (r: Option<Record>)
      requires Valid()
      ensures r == View().At(index)
    {
      hide Segment.Valid, Shape, ClosedOk, OpenOk;
      ShapeParts(closed + tail, base, whole, firstLogIndex, lastLogIndex);
      var s := GetSegment(index);
      if s == null { return None; }
      r := s.Get(index);
    }

    method GetTerm(index: int) returns (t: nat)
      requires Valid()
      ensures t == View().TermAt(index)
    {
      hide Segment.Valid, Shape, ClosedOk, OpenOk;
      ShapeParts(closed + tail, base, whole, firstLogIndex, lastLogIndex);
      var s := GetSegment(index);
      if s == null { return 0; }
      t := s.GetTerm(index);
    }

    /** Nothing is left: the log is empty and goes on at `next`. */
    method DropAll(next: nat)
      requires Known(checksumType)
      modifies this
      ensures Valid() && View() == Flat(next, []) && Bare() && savedFirst == old(savedFirst)
      ensures repr == old(repr)
    {
      hide Shape;
      ShapeEmpty(next);
      ghost var none: seq<Piece> := [];
      assert none + none == none;
      segments, openSegment, firstLogIndex, lastLogIndex := [], null, next, next - 1;
      base, whole, closed, tail := next, [], none, none;
    }

    /** How many closed segments lie wholly before `kept`. */
    method FirstReaching(kept: nat) returns (k: nat)
      ensures k <= |segments| && (k > 0 ==> segments[k - 1].lastIndex < kept)
      ensures k < |segments| ==> segments[k].lastIndex >= kept
    {
      k := 0;
      while k < |segments| && segments[k].lastIndex < kept
        invariant k <= |segments| && (k > 0 ==> segments[k - 1].lastIndex < kept)
      {
        k := k + 1;
      }
    }

    /** Where the pieces end, read off the objects. */
    lemma Ends(k: nat)
      requires Valid() && k <= |segments|
      ensures |closed| == |segments|
      ensures k > 0 ==> segments[k - 1].lastIndex == (closed + tail)[k - 1].Next() - 1
      ensures k > 0 ==> segments[k - 1].firstIndex == (closed + tail)[k - 1].first
      ensures k < |segments| ==> segments[k].lastIndex == (closed + tail)[k].Next() - 1 && segments[k].firstIndex == (closed + tail)[k].first
      ensures openSegment != null ==>
        |closed + tail| == |segments| + 1 && openSegment.firstIndex == (closed + tail)[|segments|].first
        && openSegment.lastIndex == (closed + tail)[|segments|].Next() - 1
      ensures openSegment == null ==> |closed + tail| == |segments|
    {
    }

    /** What is left when the first `k` closed segments go and the next one reaches `kept`. */
    lemma FrontGone(k: nat, kept: nat) returns (next: nat, rest: seq<Record>)
      requires Valid() && firstLogIndex < kept && k <= |segments|
      requires k < |closed + tail| && (closed + tail)[k].Next() > kept
      requires k > 0 ==> (closed + tail)[k - 1].Next() <= kept
      ensures |closed| == |segments| && ClosedOk(segments[k..], closed[k..])
      ensures Shape(closed[k..] + tail, next, rest, kept, lastLogIndex)
      ensures next <= kept && kept - next <= |rest| && Live(rest, next, kept) == PrefixCut(View(), kept)
    {
      hide Segment.Valid, Shape, ClosedOk, Keeps, PrefixCut, Live, InRepr;
      var ps := closed + tail;
      ShapeParts(ps, base, whole, firstLogIndex, lastLogIndex);
      ShapeDropFront(ps, k, kept, base, whole, firstLogIndex, lastLogIndex);
      next := ps[k].first;
      rest := whole[next - base..];
      LivePrefixCut(whole, base, firstLogIndex, kept);
      LiveDropped(whole, base, next, kept);
      ClosedBehind(segments, closed, k);
      assert ps[k..] == closed[k..] + tail;
    }

    /** The first `k` closed segments go; the next one reaches `kept`. */
    method DropFront(k: nat, kept: nat)
      requires Valid() && firstLogIndex < kept && k <= |segments|
      requires k < |closed + tail| && (closed + tail)[k].Next() > kept
      requires k > 0 ==> (closed + tail)[k - 1].Next() <= kept
      modifies this`base, this`whole, this`closed, this`segments, this`firstLogIndex
      ensures Valid() && View() == PrefixCut(old(View()), kept)
    {
      hide Segment.Valid, Shape, ClosedOk, Keeps, PrefixCut, Live;
      ghost var next, rest := FrontGone(k, kept);
      whole, base, closed := rest, next, closed[k..];
      segments := segments[k..];
      firstLogIndex := kept;
    }

    /** Drops segments that lie wholly before `kept`; the meta file is written first. */
    method TruncatePrefix(kept: nat)
      requires Valid()
      modifies this
      ensures Valid() && View() == PrefixCut(old(View()), kept) && repr == old(repr)
      ensures savedFirst == if kept > old(firstLogIndex) then kept else old(savedFirst)
    {
      hide Segment.Valid, Shape, ClosedOk;
      ShapeParts(closed + tail, base, whole, firstLogIndex, lastLogIndex);
      if firstLogIndex >= kept { return; }
      savedFirst := kept;
      var k := FirstReaching(kept);
      if k < |segments| || (openSegment != null && openSegment.lastIndex >= kept) {
        Ends(k);
        DropFront(k, kept);
      } else {
        Ends(k);
        ShapeAllDead(closed + tail, kept, base, whole, firstLogIndex, lastLogIndex);
        DropAll(kept);
      }
    }

    /** The open segment ends at `kept` or behind it: it is cut in place. */
    method CutOpen(kept: int)
      requires Valid() && openSegment != null && openSegment.firstIndex <= kept
      requires firstLogIndex <= kept <= lastLogIndex
      modifies this`lastLogIndex, this`whole, this`tail, openSegment
      ensures Valid() && View() == SuffixCut(old(View()), kept)
    {
      hide Segment.Valid, Shape, ClosedOk, SuffixCut, Live;
      ShapeParts(closed + tail, base, whole, firstLogIndex, lastLogIndex);
      ghost var p := tail[0];
      assert tail == [p];
      LastIsOpen();
      ShapeCutLast(closed, p, kept, base, whole, firstLogIndex, lastLogIndex);
      LiveSuffixCut(whole, base, firstLogIndex, kept);
      openSegment.Truncate(kept);
      openSegment.Facts();
      assert p.entries[..|p.entries|] == p.entries;
      lastLogIndex := kept;
      whole := whole[..kept + 1 - base];
      tail := [Piece(p.first, p.entries[..kept + 1 - p.first])];
    }

    /** Only the first `j` closed segments stay. */
    method DropBack(j: nat, ghost kept: int)
      requires Valid() && 0 < j <= |segments| && firstLogIndex <= kept <= lastLogIndex
      requires segments[j - 1].firstIndex <= kept
      requires j < |segments| ==> segments[j].firstIndex > kept
      requires j == |segments| && openSegment != null ==> openSegment.firstIndex > kept
      modifies this`lastLogIndex, this`whole, this`closed, this`tail, this`segments, this`openSegment
      ensures Valid() && openSegment == null && segments == old(segments)[..j]
      ensures kept <= lastLogIndex <= old(lastLogIndex) && View() == SuffixCut(old(View()), lastLogIndex)
    {
      hide Segment.Valid, Shape, ClosedOk, SuffixCut, Live;
      ghost var ps := closed + tail;
      Ends(j);
      ShapeParts(ps, base, whole, firstLogIndex, lastLogIndex);
      ShapeKeepFront(ps, j, kept, base, whole, firstLogIndex, lastLogIndex);
      LiveSuffixCut(whole, base, firstLogIndex, segments[j - 1].lastIndex);
      ClosedBefore(segments, closed, j);
      assert ps[..j] == closed[..j] + [];
      lastLogIndex := segments[j - 1].lastIndex;
      whole := whole[..ps[j - 1].Next() - base];
      closed, tail := closed[..j], [];
      segments, openSegment := segments[..j], null;
    }

    /** The last closed segment becomes the open one when something is cut off it. */
    method CutClosed(kept: int)
      requires Valid() && openSegment == null && segments != []
      requires segments[|segments| - 1].firstIndex <= kept && firstLogIndex <= kept < lastLogIndex
      modifies this`lastLogIndex, this`whole, this`closed, this`tail, this`segments, this`openSegment, segments[|segments| - 1]
      ensures Valid() && View() == SuffixCut(old(View()), kept) && openSegment == old(segments)[|old(segments)| - 1]
    {
      hide Segment.Valid, Shape, ClosedOk, SuffixCut, Live;
      ShapeParts(closed + tail, base, whole, firstLogIndex, lastLogIndex);
      var n := |segments| - 1;
      var s := segments[n];
      ClosedAt(segments, closed, n);
      ClosedBefore(segments, closed, n);
      ghost var p := closed[n];
      assert closed + tail == closed[..n] + [p];
      assert (closed + tail)[n] == p;
      ShapeCutLast(closed[..n], p, kept, base, whole, firstLogIndex, lastLogIndex);
      LiveSuffixCut(whole, base, firstLogIndex, kept);
      s.Truncate(kept);
      s.Facts();
      segments, openSegment := segments[..n], s;
      lastLogIndex := kept;
      whole := whole[..kept + 1 - base];
      closed, tail := closed[..n], [Piece(p.first, p.entries[..kept + 1 - p.first])];
    }

    lemma ViewBounds()
      requires Valid()
      ensures View().first == firstLogIndex && View().Last() == lastLogIndex
    {
      ShapeParts(closed + tail, base, whole, firstLogIndex, lastLogIndex);
    }

    lemma Footprint()
      requires Valid()
      ensures InRepr()
    {
    }

    /** How many closed segments start at or before `kept`, looking from the back. */
    method LastStarting(kept: int) returns (j: nat)
      ensures j <= |segments| && (j > 0 ==> segments[j - 1].firstIndex <= kept)
      ensures j < |segments| ==> segments[j].firstIndex > kept
    {
      j := |segments|;
      while j > 0 && segments[j - 1].firstIndex > kept
        invariant j <= |segments| && (j < |segments| ==> segments[j].firstIndex > kept)
      {
        j := j - 1;
      }
    }

    /** Cutting away the last live entry leaves an empty log at the same place. */
    lemma CutToNothing(kept: int)
      requires Valid() && kept == firstLogIndex - 1
      ensures SuffixCut(View(), kept) == Flat(firstLogIndex, [])
    {
      ShapeParts(closed + tail, base, whole, firstLogIndex, lastLogIndex);
    }

    /** Drops everything behind `kept`, from the back; answers failure on a log that has no segment to work on. */
    method TruncateSuffix(kept: int) returns (ok: bool)
      requires Valid() && firstLogIndex - 1 <= kept <= lastLogIndex
      modifies this, segments, openSegment
      ensures Valid() && View() == SuffixCut(old(View()), kept)
      ensures ok <==> !old(Bare())
      ensures repr == old(repr)
    {
      hide Segment.Valid, Shape, ClosedOk, SuffixCut, Live, Keeps;
      ShapeParts(closed + tail, base, whole, firstLogIndex, lastLogIndex);
      ViewBounds();
      if kept == firstLogIndex - 1 { CutToNothing(kept); }
      ok := openSegment != null || segments != [];
      if openSegment != null && openSegment.firstIndex <= kept {
        if firstLogIndex <= kept {
          CutOpen(kept);
        } else {
          DropAll(firstLogIndex);
        }
        return;
      }
      var j := LastStarting(kept);
      Ends(j);
      ShapeKeepFront(closed + tail, j, kept, base, whole, firstLogIndex, lastLogIndex);
      if j == 0 || firstLogIndex > kept {
        DropAll((kept + 1) as nat);
      } else {
        DropBack(j, kept);
        if kept < lastLogIndex {
          ShapeParts(closed + tail, base, whole, firstLogIndex, lastLogIndex);
          CutTwice(old(View()), lastLogIndex, kept);
          CutClosed(kept);
        }
      }
    }

    method Reset(next: nat) returns (ok: bool)
      requires Valid()
      modifies this
      ensures ok <==> next > 0
      ensures Valid() && View() == (if ok then Restarted(next) else old(View()))
      ensures ok ==> Bare() && savedFirst == next
      ensures repr == old(repr)
    {
      if next == 0 { return false; }
      hide Shape, ClosedOk;
      DropAll(next);
      hide Valid;
      savedFirst := next;
      ok := true;
    }
  }

  lemma CutTwice(f: Flat, a: int, b: int)
    requires f.first - 1 <= b <= a <= f.Last()
    ensures SuffixCut(f, a).Last() == a && SuffixCut(SuffixCut(f, a), b) == SuffixCut(f, b)
  {
    assert f.log[..a + 1 - f.first][..b + 1 - f.first] == f.log[..b + 1 - f.first];
  }
}
