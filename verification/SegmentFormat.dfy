/** The bytes of a segment file: 24-byte headers, data, and what a torn file decodes to. */
module SegmentFormat {
  import opened Quorum

  type byte = x: nat | x < 256

  const HEADER_SIZE: nat := 24
  const CONFIGURATION: byte := 3
  const TWO_32: nat := 0x1_0000_0000
  const TWO_64: nat := 0x1_0000_0000_0000_0000

  /** One log entry as the segment sees it; a configuration arrives already serialized. */
  datatype Record = Record(term: nat, kind: byte, data: seq<byte>)

  /** The checksum functions by their type; nothing is known about them but that they are functions. */
  type Checksum = (byte, seq<byte>) -> nat

  /** The types that verify_checksum knows: murmurhash32 and crc32. */
  predicate Known(checksumType: byte) { checksumType <= 1 }

  function Sum(c: Checksum, t: byte, bs: seq<byte>): nat { c(t, bs) % TWO_32 }

  // ----- big-endian numbers

  function Pow256(k: nat): nat { if k == 0 then 1 else 256 * Pow256(k - 1) }

  function Pack(n: nat, k: nat): (r: seq<byte>)
    ensures |r| == k
  {
    if k == 0 then [] else Pack(n / 256, k - 1) + [n % 256]
  }

  function Unpack(b: seq<byte>): nat {
    if b == [] then 0 else Unpack(b[..|b| - 1]) * 256 + b[|b| - 1]
  }

  lemma {:induction false} PackUnpack(n: nat, k: nat)
    requires n < Pow256(k)
    ensures Unpack(Pack(n, k)) == n
  {
    if k > 0 {
      PackUnpack(n / 256, k - 1);
      assert Pack(n, k)[..k - 1] == Pack(n / 256, k - 1);
    }
  }

  lemma Powers()
    ensures Pow256(4) == TWO_32 && Pow256(8) == TWO_64
  {
    assert Pow256(1) == 256 && Pow256(2) == 0x1_0000 && Pow256(3) == 0x100_0000 && Pow256(4) == TWO_32;
    assert Pow256(5) == 0x100_0000_0000 && Pow256(6) == 0x1_0000_0000_0000 && Pow256(7) == 0x100_0000_0000_0000;
  }

  // ----- printing

  function Fields(r: Record, ct: byte, c: Checksum): (b: seq<byte>)
    ensures |b| == HEADER_SIZE - 4
  {
    Pack(r.term, 8) + Pack(r.kind * 0x100_0000 + ct * 0x1_0000, 4) + Pack(|r.data| % TWO_32, 4) + Pack(Sum(c, ct, r.data), 4)
  }

  function Header(r: Record, ct: byte, c: Checksum): (b: seq<byte>)
    ensures |b| == HEADER_SIZE
  {
    Fields(r, ct, c) + Pack(Sum(c, ct, Fields(r, ct, c)), 4)
  }

  function Size(r: Record): nat { HEADER_SIZE + |r.data| }

  function Encode(r: Record, ct: byte, c: Checksum): (b: seq<byte>)
    ensures |b| == Size(r)
  {
    Header(r, ct, c) + r.data
  }

  function TotalSize(es: seq<Record>): nat {
    if es == [] then 0 else TotalSize(es[..|es| - 1]) + Size(es[|es| - 1])
  }

  function EncodeAll(es: seq<Record>, ct: byte, c: Checksum): (b: seq<byte>)
    ensures |b| == TotalSize(es)
  {
    if es == [] then [] else EncodeAll(es[..|es| - 1], ct, c) + Encode(es[|es| - 1], ct, c)
  }

  // ----- parsing

  datatype Head = Head(term: nat, kind: nat, checksumType: byte, dataLen: nat, dataChecksum: nat)

  function ParseHead(h: seq<byte>): Head
    requires |h| == HEADER_SIZE
  {
    var meta := Unpack(h[8..12]);
    Head(Unpack(h[..8]), meta / 0x100_0000, (meta / 0x1_0000) % 256, Unpack(h[12..16]), Unpack(h[16..20]))
  }

  datatype Loaded = Short | Corrupt | Loaded(head: Head, data: seq<byte>)

  /** One entry at `off`; the data is read and checked only when asked for. */
  function LoadEntry(file: seq<byte>, off: nat, hint: nat, wantData: bool, c: Checksum): Loaded {
    var toRead := if hint >= HEADER_SIZE then hint else HEADER_SIZE;
    if off + toRead > |file| then Short
    else
      var h := file[off..off + HEADER_SIZE];
      var head := ParseHead(h);
      if !Known(head.checksumType) || Unpack(h[20..24]) != Sum(c, head.checksumType, h[..20]) then Corrupt
      else if !wantData then Loaded(head, [])
      else if off + HEADER_SIZE + head.dataLen > |file| then Short
      else
        var data := file[off + HEADER_SIZE..off + HEADER_SIZE + head.dataLen];
        if Sum(c, head.checksumType, data) != head.dataChecksum then Corrupt else Loaded(head, data)
  }

  /** What an entry may look like for the header to hold it. */
  predicate Fits(r: Record) { r.term < TWO_64 && |r.data| < TWO_32 }

  predicate AllFit(es: seq<Record>) { forall i :: 0 <= i < |es| ==> Fits(es[i]) }

  function HeadOf(r: Record, ct: byte, c: Checksum): Head {
    Head(r.term, r.kind, ct, |r.data|, Sum(c, ct, r.data))
  }

  lemma MetaField(kind: byte, ct: byte)
    ensures var m := kind * 0x100_0000 + ct * 0x1_0000;
      m < TWO_32 && m / 0x100_0000 == kind && (m / 0x1_0000) % 256 == ct
  {
    var m := kind * 0x100_0000 + ct * 0x1_0000;
    assert m / 0x1_0000 == kind * 256 + ct;
  }

  /** Where the fields of a printed header lie. */
  lemma HeaderSlices(r: Record, ct: byte, c: Checksum)
    ensures var h, m := Header(r, ct, c), r.kind * 0x100_0000 + ct * 0x1_0000;
      && h[..8] == Pack(r.term, 8) && h[8..12] == Pack(m, 4)
      && h[12..16] == Pack(|r.data| % TWO_32, 4) && h[16..20] == Pack(Sum(c, ct, r.data), 4)
      && h[20..24] == Pack(Sum(c, ct, Fields(r, ct, c)), 4) && h[..20] == Fields(r, ct, c)
  {
    hide Pack, Sum;
    var f := Fields(r, ct, c);
    var h := Header(r, ct, c);
    assert h[..20] == f && h[..8] == f[..8] && h[8..12] == f[8..12] && h[12..16] == f[12..16] && h[16..20] == f[16..20];
  }

  /** A printed header parses to what was printed. */
  lemma HeaderParses(r: Record, ct: byte, c: Checksum)
    requires Fits(r)
    ensures var h := Header(r, ct, c);
      && ParseHead(h) == HeadOf(r, ct, c)
      && h[..20] == Fields(r, ct, c)
      && Unpack(h[20..24]) == Sum(c, ct, h[..20])
  {
    Powers();
    MetaField(r.kind, ct);
    var m := r.kind * 0x100_0000 + ct * 0x1_0000;
    var h := Header(r, ct, c);
    HeaderSlices(r, ct, c);
    hide Pack, Unpack, Pow256, Header, Fields;
    PackUnpack(r.term, 8);
    PackUnpack(m, 4);
    PackUnpack(|r.data|, 4);
    PackUnpack(Sum(c, ct, r.data), 4);
    PackUnpack(Sum(c, ct, Fields(r, ct, c)), 4);
  }

  /** The printed length is the length exactly for data under 2^32 bytes; longer data wraps around. */
  lemma LengthWraps(r: Record, ct: byte, c: Checksum)
    ensures ParseHead(Header(r, ct, c)).dataLen == |r.data| <==> |r.data| < TWO_32
  {
    Powers();
    PackUnpack(|r.data| % TWO_32, 4);
    assert Header(r, ct, c)[12..16] == Pack(|r.data| % TWO_32, 4);
  }

  /** An entry that lies whole at `off` is read back as it was written. */
  lemma EntryLoads(file: seq<byte>, off: nat, r: Record, ct: byte, c: Checksum, hint: nat, wantData: bool)
    requires Fits(r) && Known(ct) && off + Size(r) <= |file| && hint <= Size(r)
    requires file[off..off + Size(r)] == Encode(r, ct, c)
    ensures LoadEntry(file, off, hint, wantData, c) == Loaded(HeadOf(r, ct, c), if wantData then r.data else [])
  {
    HeaderParses(r, ct, c);
    var whole := file[off..off + Size(r)];
    assert file[off..off + HEADER_SIZE] == whole[..HEADER_SIZE] == Header(r, ct, c);
    assert file[off + HEADER_SIZE..off + Size(r)] == whole[HEADER_SIZE..] == r.data;
  }

  /** The header alone is enough to read the header, even when the data is torn. */
  lemma HeaderLoads(file: seq<byte>, off: nat, r: Record, ct: byte, c: Checksum)
    requires Fits(r) && Known(ct) && off + HEADER_SIZE <= |file|
    requires file[off..off + HEADER_SIZE] == Header(r, ct, c)
    ensures LoadEntry(file, off, HEADER_SIZE, false, c) == Loaded(HeadOf(r, ct, c), [])
  {
    HeaderParses(r, ct, c);
  }

  // ----- scanning a file at start-up

  /** Offsets and terms of the entries found, where the scan stopped, and whether it met a bad header. */
  datatype Scan = Scan(index: seq<(nat, nat)>, end: nat, bad: bool)

  function ScanFrom(file: seq<byte>, off: nat, c: Checksum): (s: Scan)
    ensures off <= |file| ==> off <= s.end <= |file|
    decreases |file| - off
  {
    if off >= |file| then Scan([], off, false)
    else
      match LoadEntry(file, off, HEADER_SIZE, false, c)
      case Short => Scan([], off, false)
      case Corrupt => Scan([], off, true)
      case Loaded(head, _) =>
        var skip := HEADER_SIZE + head.dataLen;
        if off + skip > |file| then Scan([], off, false)
        else if head.kind == CONFIGURATION && !LoadEntry(file, off, skip, true, c).Loaded? then Scan([], off, false)
        else
          var rest := ScanFrom(file, off + skip, c);
          Scan([(off, head.term)] + rest.index, rest.end, rest.bad)
  }

  /** Offsets and terms of entries laid out one after another from `off`. */
  function Layout(es: seq<Record>, off: nat): (r: seq<(nat, nat)>)
    ensures |r| == |es|
  {
    if es == [] then [] else [(off, es[0].term)] + Layout(es[1..], off + Size(es[0]))
  }

  /** How many of the entries lie whole within the first `n` bytes. */
  function WholeWithin(es: seq<Record>, n: int): (k: nat)
    ensures k <= |es|
  {
    if es == [] || n < Size(es[0]) then 0 else 1 + WholeWithin(es[1..], n - Size(es[0]))
  }

  lemma {:induction false} TotalSizeFront(es: seq<Record>)
    requires es != []
    ensures TotalSize(es) == Size(es[0]) + TotalSize(es[1..])
  {
    if |es| > 1 {
      TotalSizeFront(es[..|es| - 1]);
      assert es[..|es| - 1][1..] == es[1..][..|es| - 2];
    }
  }

  lemma {:induction false} EncodeAllFront(es: seq<Record>, ct: byte, c: Checksum)
    requires es != []
    ensures EncodeAll(es, ct, c) == Encode(es[0], ct, c) + EncodeAll(es[1..], ct, c)
  {
    if |es| > 1 {
      var k := |es| - 1;
      EncodeAllFront(es[..k], ct, c);
      assert es[..k][1..] == es[1..][..k - 1];
      assert EncodeAll(es, ct, c) == EncodeAll(es[..k], ct, c) + Encode(es[k], ct, c);
      assert EncodeAll(es[1..], ct, c) == EncodeAll(es[1..][..k - 1], ct, c) + Encode(es[k], ct, c);
    } else {
      assert es[..0] == [] && es[1..] == [];
    }
  }

  /** WholeWithin is the largest number of entries whose total length fits. */
  lemma {:induction false} WholeWithinIsMost(es: seq<Record>, n: nat)
    ensures var k := WholeWithin(es, n);
      && TotalSize(es[..k]) <= n
      && (k < |es| ==> TotalSize(es[..k + 1]) > n)
  {
    var k := WholeWithin(es, n);
    if es == [] {
    } else if n < Size(es[0]) {
      assert es[..1][..0] == [];
    } else {
      WholeWithinIsMost(es[1..], n - Size(es[0]));
      TotalSizeFront(es[..k]);
      assert es[..k][1..] == es[1..][..k - 1];
      if k < |es| {
        TotalSizeFront(es[..k + 1]);
        assert es[..k + 1][1..] == es[1..][..k];
      }
    }
  }

  /** From `off` on, the file holds the first bytes of what printing `es` gives. */
  ghost predicate HoldsFrom(file: seq<byte>, off: nat, es: seq<Record>, ct: byte, c: Checksum) {
    off <= |file| && file[off..] <= EncodeAll(es, ct, c)
  }

  /** One whole entry at the front: the rest of the file holds the rest of the entries. */
  lemma HoldsRest(file: seq<byte>, off: nat, es: seq<Record>, ct: byte, c: Checksum)
    requires HoldsFrom(file, off, es, ct, c) && es != [] && off + Size(es[0]) <= |file|
    ensures file[off..off + Size(es[0])] == Encode(es[0], ct, c)
    ensures HoldsFrom(file, off + Size(es[0]), es[1..], ct, c)
  {
    EncodeAllFront(es, ct, c);
    var all, s := EncodeAll(es, ct, c), Size(es[0]);
    assert file[off..] == all[..|file| - off];
    assert file[off..off + s] == file[off..][..s] == all[..s];
    assert file[off + s..] == file[off..][s..];
    assert all[..|file| - off][s..] == EncodeAll(es[1..], ct, c)[..|file| - off - s];
  }

  lemma HoldsHeader(file: seq<byte>, off: nat, es: seq<Record>, ct: byte, c: Checksum)
    requires HoldsFrom(file, off, es, ct, c) && es != [] && off + HEADER_SIZE <= |file|
    ensures file[off..off + HEADER_SIZE] == Header(es[0], ct, c)
  {
    EncodeAllFront(es, ct, c);
    var all := EncodeAll(es, ct, c);
    assert file[off..] == all[..|file| - off];
    assert file[off..off + HEADER_SIZE] == file[off..][..HEADER_SIZE] == all[..HEADER_SIZE];
  }

  /** An entry that is cut off ends the scan where it starts. */
  lemma ScanCut(file: seq<byte>, off: nat, es: seq<Record>, ct: byte, c: Checksum)
    requires HoldsFrom(file, off, es, ct, c) && AllFit(es) && Known(ct)
    requires off < |file| && es != [] && |file| - off < Size(es[0])
    ensures ScanFrom(file, off, c) == Scan([], off, false)
  {
    if off + HEADER_SIZE <= |file| {
      HoldsHeader(file, off, es, ct, c);
      HeaderLoads(file, off, es[0], ct, c);
    }
  }

  /** A whole entry is listed and the scan goes on behind it. */
  lemma ScanWhole(file: seq<byte>, off: nat, es: seq<Record>, ct: byte, c: Checksum)
    requires HoldsFrom(file, off, es, ct, c) && AllFit(es) && Known(ct)
    requires es != [] && off + Size(es[0]) <= |file|
    ensures var rest := ScanFrom(file, off + Size(es[0]), c);
      ScanFrom(file, off, c) == Scan([(off, es[0].term)] + rest.index, rest.end, rest.bad)
  {
    hide EncodeAll, Encode;
    HoldsRest(file, off, es, ct, c);
    EntryLoads(file, off, es[0], ct, c, HEADER_SIZE, false);
    EntryLoads(file, off, es[0], ct, c, Size(es[0]), true);
  }

  lemma LayoutNext(es: seq<Record>, k: nat, off: nat)
    requires 1 <= k <= |es|
    ensures Layout(es[..k], off) == [(off, es[0].term)] + Layout(es[1..][..k - 1], off + Size(es[0]))
    ensures TotalSize(es[..k]) == Size(es[0]) + TotalSize(es[1..][..k - 1])
  {
    TotalSizeFront(es[..k]);
    assert es[..k][1..] == es[1..][..k - 1];
  }

  /** Torn tail: scanning any prefix of a written file finds exactly the wholly contained entries. */
  lemma {:induction false} ScanTorn(file: seq<byte>, off: nat, es: seq<Record>, ct: byte, c: Checksum)
    requires HoldsFrom(file, off, es, ct, c) && AllFit(es) && Known(ct)
    ensures var k := WholeWithin(es, |file| - off);
      ScanFrom(file, off, c) == Scan(Layout(es[..k], off), off + TotalSize(es[..k]), false)
    decreases |es|
  {
    hide LoadEntry, EncodeAll, Encode;
    var k := WholeWithin(es, |file| - off);
    if off >= |file| || es == [] {
      NothingLeft(file, off, es, ct, c);
      assert es[..k] == [];
    } else if |file| - off < Size(es[0]) {
      assert es[..0] == [];
      ScanCut(file, off, es, ct, c);
    } else {
      HoldsRest(file, off, es, ct, c);
      ScanWhole(file, off, es, ct, c);
      ScanTorn(file, off + Size(es[0]), es[1..], ct, c);
      LayoutNext(es, k, off);
    }
  }

  lemma NothingLeft(file: seq<byte>, off: nat, es: seq<Record>, ct: byte, c: Checksum)
    requires HoldsFrom(file, off, es, ct, c)
    ensures es == [] ==> off == |file|
  {
  }
}
