/** One segment of the log: a file, and the offsets and terms kept in memory for it. */
module Segments {
  import opened Quorum
  import opened SegmentFormat

  // ----- where things lie in a written file

  lemma {:induction false} EncodeAllConcat(a: seq<Record>, b: seq<Record>, ct: byte, c: Checksum)
    ensures EncodeAll(a + b, ct, c) == EncodeAll(a, ct, c) + EncodeAll(b, ct, c)
    ensures TotalSize(a + b) == TotalSize(a) + TotalSize(b)
  {
    hide Encode, Size;
    if b == [] {
      assert a + b == a;
    } else {
      var k := |b| - 1;
      EncodeAllConcat(a, b[..k], ct, c);
      assert (a + b)[..|a + b| - 1] == a + b[..k];
    }
  }

  lemma {:induction false} LayoutAt(es: seq<Record>, off: nat, k: nat)
    requires k < |es|
    ensures Layout(es, off)[k] == (off + TotalSize(es[..k]), es[k].term)
    decreases k
  {
    if k == 0 {
      assert es[..0] == [];
    } else {
      LayoutAt(es[1..], off + Size(es[0]), k - 1);
      TotalSizeFront(es[..k]);
      assert es[..k][1..] == es[1..][..k - 1];
    }
  }

  lemma {:induction false} LayoutConcat(a: seq<Record>, b: seq<Record>, off: nat)
    ensures Layout(a + b, off) == Layout(a, off) + Layout(b, off + TotalSize(a))
  {
    hide Size;
    if a == [] {
      assert a + b == b;
    } else {
      LayoutConcat(a[1..], b, off + Size(a[0]));
      TotalSizeFront(a);
      assert (a + b)[1..] == a[1..] + b;
    }
  }

  /** Entry `k` occupies the bytes between the sizes of the first `k` and the first `k + 1` entries. */
  lemma EntryPlace(es: seq<Record>, k: nat, ct: byte, c: Checksum)
    requires k < |es|
    ensures TotalSize(es[..k + 1]) == TotalSize(es[..k]) + Size(es[k]) <= TotalSize(es)
    ensures EncodeAll(es, ct, c)[TotalSize(es[..k])..TotalSize(es[..k + 1])] == Encode(es[k], ct, c)
  {
    var a, b := es[..k + 1], es[k + 1..];
    EncodeAllConcat(a, b, ct, c);
    assert a + b == es && a[..k] == es[..k];
  }

  lemma PrefixPlace(es: seq<Record>, k: nat, ct: byte, c: Checksum)
    requires k <= |es|
    ensures TotalSize(es[..k]) <= TotalSize(es)
    ensures EncodeAll(es, ct, c)[..TotalSize(es[..k])] == EncodeAll(es[..k], ct, c)
    ensures Layout(es, 0)[..k] == Layout(es[..k], 0)
  {
    EncodeAllConcat(es[..k], es[k..], ct, c);
    LayoutConcat(es[..k], es[k..], 0);
    assert es[..k] + es[k..] == es;
  }

  class Segment {
    const firstIndex: nat
    const checksumType: byte
    const checksum: Checksum
    var lastIndex: int
    var isOpen: bool
    var bytes: nat
    var offsetAndTerm: seq<(nat, nat)>
    var file: seq<byte>

    /** The entries the file holds. */
    ghost var entries: seq<Record>

    ghost predicate Valid() reads this {
      && Known(checksumType) && AllFit(entries)
      && file == EncodeAll(entries, checksumType, checksum)
      && offsetAndTerm == Layout(entries, 0)
      && bytes == |file|
      && lastIndex == firstIndex + |entries| - 1
    }

    /** What users of a segment may rely on without looking at its bytes. */
    lemma Facts()
      requires Valid()
      ensures lastIndex == firstIndex + |entries| - 1 && (bytes > 0 <==> entries != [])
    {
      if entries != [] { assert TotalSize(entries) >= Size(entries[|entries| - 1]); }
    }

    constructor Create(firstIndex: nat, checksumType: byte, checksum: Checksum)
      requires Known(checksumType)
      ensures Valid() && isOpen && entries == [] && bytes == 0
      ensures this.firstIndex == firstIndex && this.checksumType == checksumType && this.checksum == checksum
    {
      this.firstIndex, this.checksumType, this.checksum := firstIndex, checksumType, checksum;
      lastIndex, isOpen, bytes := firstIndex - 1, true, 0;
      offsetAndTerm, file, entries := [], [], [];
    }

    /** A file found on disk, not read yet; `lastIndex` is known only for a closed one. */
    constructor Found(firstIndex: nat, closedLast: Option<int>, file: seq<byte>, checksumType: byte, checksum: Checksum)
      ensures this.firstIndex == firstIndex && this.checksumType == checksumType && this.checksum == checksum
      ensures this.file == file && isOpen == closedLast.None? && offsetAndTerm == []
      ensures closedLast.Some? ==> lastIndex == closedLast.value
    {
      this.firstIndex, this.checksumType, this.checksum := firstIndex, checksumType, checksum;
      lastIndex := if closedLast.Some? then closedLast.value else firstIndex - 1;
      isOpen, bytes, offsetAndTerm, this.file, entries := closedLast.None?, 0, [], file, [];
    }

    /** The reading loop of load: it stops at the end, at a torn entry, or at a header that does not check. */
    method ScanFile() returns (index: seq<(nat, nat)>, off: nat, bad: bool)
      ensures ScanFrom(file, 0, checksum) == Scan(index, off, bad) && off <= |file|
    {
      hide LoadEntry;
      index, off, bad := [], 0, false;
      while off < |file|
        invariant off <= |file| && !bad
        invariant var rest := ScanFrom(file, off, checksum);
          ScanFrom(file, 0, checksum) == Scan(index + rest.index, rest.end, rest.bad)
        decreases |file| - off
      {
        var loaded := LoadEntry(file, off, HEADER_SIZE, false, checksum);
        if loaded.Short? { break; }
        if loaded.Corrupt? {
          bad := true;
          break;
        }
        var skip := HEADER_SIZE + loaded.head.dataLen;
        if off + skip > |file| { break; }
        if loaded.head.kind == CONFIGURATION && !LoadEntry(file, off, skip, true, checksum).Loaded? { break; }
        index := index + [(off, loaded.head.term)];
        off := off + skip;
      }
    }

    /** The file is what is left of `written` after a crash. */
    ghost predicate Torn(f: seq<byte>, written: seq<Record>) {
      HoldsFrom(f, 0, written, checksumType, checksum) && AllFit(written) && Known(checksumType)
    }

    lemma TornScan(f: seq<byte>, written: seq<Record>)
      requires Torn(f, written)
      ensures var es := written[..WholeWithin(written, |f|)];
        && ScanFrom(f, 0, checksum) == Scan(Layout(es, 0), TotalSize(es), false)
        && TotalSize(es) <= |f| && f[..TotalSize(es)] == EncodeAll(es, checksumType, checksum) && AllFit(es)
    {
      hide Encode, Layout;
      var k := WholeWithin(written, |f|);
      ScanTorn(f, 0, written, checksumType, checksum);
      PrefixPlace(written, k, checksumType, checksum);
      WholeWithinIsMost(written, |f|);
      assert f[0..] == f;
    }

    /** Reads the index from the file and cuts off what was not completely written. */
    method Load(ghost written: seq<Record>) returns (ok: bool)
      requires offsetAndTerm == []
      modifies this
      ensures isOpen == old(isOpen)
      ensures ok == (!ScanFrom(old(file), 0, checksum).bad
        && (old(isOpen) || firstIndex + |ScanFrom(old(file), 0, checksum).index| - 1 == old(lastIndex)))
      ensures ok ==> offsetAndTerm == ScanFrom(old(file), 0, checksum).index
      ensures ok ==> file == old(file)[..ScanFrom(old(file), 0, checksum).end] && bytes == |file|
      ensures Torn(old(file), written) ==>
        var k := WholeWithin(written, |old(file)|);
        && (ok <==> old(isOpen) || old(lastIndex) == firstIndex + k - 1)
        && (ok ==> Valid() && entries == written[..k])
    {
      hide ScanFrom, EncodeAll, Layout, HoldsFrom;
      var index, off, bad := ScanFile();
      if Torn(file, written) { TornScan(file, written); }
      if bad || (!isOpen && firstIndex + |index| - 1 != lastIndex) { return false; }
      if isOpen { lastIndex := firstIndex + |index| - 1; }
      entries := written[..WholeWithin(written, |file|)];
      offsetAndTerm := index;
      file := file[..off];
      bytes := off;
      ok := true;
    }

    method Append(index: int, r: Record) returns (ok: bool)
      requires Valid() && isOpen && Fits(r)
      modifies this
      ensures ok <==> index == old(lastIndex) + 1
      ensures Valid() && isOpen && entries == if ok then old(entries) + [r] else old(entries)
    {
      hide Encode, Fits;
      if index != lastIndex + 1 { return false; }
      EncodeAllConcat(entries, [r], checksumType, checksum);
      LayoutConcat(entries, [r], 0);
      var one := [r];
      assert one[..0] == [] && one[1..] == [];
      assert (entries + [r])[..|entries|] == entries;
      file := file + Encode(r, checksumType, checksum);
      offsetAndTerm := offsetAndTerm + [(bytes, r.term)];
      lastIndex := lastIndex + 1;
      bytes := bytes + Size(r);
      entries := entries + [r];
      ok := true;
    }

    /** Offset, term and length of an entry; nothing outside the segment. */
    method GetMeta(index: int) returns (meta: Option<(nat, nat, nat)>)
      requires Valid()
      ensures meta.Some? <==> firstIndex <= index <= lastIndex
      ensures meta.Some? ==>
        var k := index - firstIndex;
        meta.value == (TotalSize(entries[..k]), entries[k].term, Size(entries[k]))
    {
      if index > lastIndex || index < firstIndex { return None; }
      if lastIndex == firstIndex - 1 { return None; }
      var k := index - firstIndex;
      LayoutAt(entries, 0, k);
      EntryPlace(entries, k, checksumType, checksum);
      if index < lastIndex { LayoutAt(entries, 0, k + 1); }
      assert index == lastIndex ==> entries[..k + 1] == entries;
      var cursor := offsetAndTerm[k].0;
      var next := if index < lastIndex then offsetAndTerm[k + 1].0 else bytes;
      meta := Some((cursor, offsetAndTerm[k].1, next - cursor));
    }

    /** Reads the entry back through its header, exactly as it was appended. */
    method Get(index: int) returns (r: Option<Record>)
      requires Valid()
      ensures r == if firstIndex <= index <= lastIndex then Some(entries[index - firstIndex]) else None
    {
      var meta := GetMeta(index);
      if meta.None? { return None; }
      ghost var k := index - firstIndex;
      EntryPlace(entries, k, checksumType, checksum);
      EntryLoads(file, meta.value.0, entries[k], checksumType, checksum, meta.value.2, true);
      match LoadEntry(file, meta.value.0, meta.value.2, true, checksum)
      case Loaded(head, data) => r := Some(Record(head.term, head.kind, data));
      case _ => r := None;
    }

    method GetTerm(index: int) returns (t: nat)
      requires Valid()
      ensures t == if firstIndex <= index <= lastIndex then entries[index - firstIndex].term else 0
    {
      var meta := GetMeta(index);
      if meta.None? { return 0; }
      t := meta.value.1;
    }

    method Close()
      requires Valid() && isOpen
      modifies this`isOpen
      ensures Valid() && !isOpen
    {
      isOpen := false;
    }

    /** Drops everything behind `lastKept`; a closed segment becomes the open one again. */
    method Truncate(lastKept: int)
      requires Valid() && lastKept >= firstIndex - 1
      modifies this
      ensures Valid()
      ensures entries == if lastKept >= old(lastIndex) then old(entries) else old(entries)[..lastKept + 1 - firstIndex]
      ensures isOpen == (old(isOpen) || lastKept < old(lastIndex))
    {
      if lastKept >= lastIndex { return; }
      var k := lastKept + 1 - firstIndex;
      LayoutAt(entries, 0, k);
      PrefixPlace(entries, k, checksumType, checksum);
      var size := offsetAndTerm[k].0;
      isOpen := true;
      file := file[..size];
      offsetAndTerm := offsetAndTerm[..k];
      lastIndex := lastKept;
      bytes := size;
      entries := entries[..k];
    }
  }
}
