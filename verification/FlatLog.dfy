/** The one indexed sequence that every log storage has to behave like. */
module FlatLog {
  import opened Quorum
  import opened SegmentFormat

  /** Entries at `first`, `first + 1`, ...; an empty log still has a place where the next entry goes. */
  datatype Flat = Flat(first: nat, log: seq<Record>) {
    function Last(): int { first + |log| - 1 }

    function At(index: int): Option<Record> {
      if first <= index <= Last() then Some(log[index - first]) else None
    }

    function TermAt(index: int): nat {
      if first <= index <= Last() then log[index - first].term else 0
    }
  }

  function Appended(f: Flat, es: seq<Record>): Flat { f.(log := f.log + es) }

  /** Everything before `kept` is gone; cutting past the end leaves an empty log that starts at `kept`. */
  function PrefixCut(f: Flat, kept: nat): Flat {
    if kept <= f.first then f
    else if kept > f.Last() then Flat(kept, [])
    else Flat(kept, f.log[kept - f.first..])
  }

  function SuffixCut(f: Flat, kept: int): Flat
    requires f.first - 1 <= kept <= f.Last()
  {
    f.(log := f.log[..kept + 1 - f.first])
  }

  function Restarted(next: nat): Flat { Flat(next, []) }

  // ----- what cutting and appending mean for single indexes

  lemma PrefixCutAt(f: Flat, kept: nat, index: int)
    requires kept >= f.first
    ensures PrefixCut(f, kept).first == kept
    ensures PrefixCut(f, kept).At(index) == if index < kept then None else f.At(index)
  {
  }

  lemma SuffixCutAt(f: Flat, kept: int, index: int)
    requires f.first - 1 <= kept <= f.Last()
    ensures SuffixCut(f, kept).At(index) == if index > kept then None else f.At(index)
  {
  }

  lemma AppendedAt(f: Flat, es: seq<Record>, index: int)
    ensures Appended(f, es).At(index) ==
      if f.Last() < index <= f.Last() + |es| then Some(es[index - f.Last() - 1]) else f.At(index)
  {
  }
}

/** The deque-backed storage of memory_log.cpp. */
module MemoryLog {
  import opened Quorum
  import opened SegmentFormat
  import opened FlatLog

  /** Entries in memory carry their own index. */
  datatype Indexed = Indexed(index: nat, record: Record)

  class MemoryLogStorage {
    var firstLogIndex: nat
    var lastLogIndex: int
    var data: seq<Indexed>
    ghost var flat: Flat

    ghost predicate Valid() reads this {
      && firstLogIndex == flat.first && lastLogIndex == flat.Last() && |data| == |flat.log|
      && forall i :: 0 <= i < |data| ==> data[i] == Indexed(flat.first + i, flat.log[i])
    }

    constructor ()
      ensures Valid() && flat == Flat(1, [])
    {
      firstLogIndex, lastLogIndex, data, flat := 1, 0, [], Flat(1, []);
    }

    method GetEntry(index: int) returns (r: Option<Record>)
      requires Valid()
      ensures r == flat.At(index)
    {
      if index < firstLogIndex || index > lastLogIndex { return None; }
      r := Some(data[index - firstLogIndex].record);
    }

    method GetTerm(index: int) returns (t: nat)
      requires Valid()
      ensures t == flat.TermAt(index)
    {
      if index < firstLogIndex || index > lastLogIndex { return 0; }
      t := data[index - firstLogIndex].record.term;
    }

    method AppendEntries(entries: seq<Record>)
      requires Valid()
      modifies this
      ensures Valid() && flat == Appended(old(flat), entries)
    {
      var i := 0;
      while i < |entries|
        invariant i <= |entries| && Valid() && flat == Appended(old(flat), entries[..i])
      {
        data := data + [Indexed((lastLogIndex + 1) as nat, entries[i])];
        lastLogIndex := lastLogIndex + 1;
        flat := flat.(log := flat.log + [entries[i]]);
        assert entries[..i + 1] == entries[..i] + [entries[i]];
        i := i + 1;
      }
      assert entries[..i] == entries;
    }

    method TruncatePrefix(kept: nat)
      requires Valid() && kept >= firstLogIndex
      modifies this
      ensures Valid() && flat == PrefixCut(old(flat), kept)
    {
      ghost var d := data;
      ghost var k := 0;
      while data != [] && data[0].index < kept
        invariant k <= |d| && data == d[k..] && (k > 0 ==> firstLogIndex + k <= kept)
        invariant firstLogIndex == old(firstLogIndex) && lastLogIndex == old(lastLogIndex) && flat == old(flat)
        decreases |data|
      {
        data := data[1..];
        k := k + 1;
      }
      firstLogIndex := kept;
      if firstLogIndex > lastLogIndex { lastLogIndex := kept - 1; }
      flat := PrefixCut(flat, kept);
    }

    method TruncateSuffix(kept: int)
      requires Valid() && firstLogIndex - 1 <= kept <= lastLogIndex
      modifies this
      ensures Valid() && flat == SuffixCut(old(flat), kept)
    {
      ghost var d := data;
      while data != [] && data[|data| - 1].index > kept
        invariant |data| <= |d| && data == d[..|data|] && firstLogIndex + |data| - 1 >= kept
        invariant firstLogIndex == old(firstLogIndex) && lastLogIndex == old(lastLogIndex) && flat == old(flat)
        decreases |data|
      {
        data := data[..|data| - 1];
      }
      lastLogIndex := kept;
      if firstLogIndex > lastLogIndex { firstLogIndex := (kept + 1) as nat; }
      flat := SuffixCut(flat, kept);
    }

    method Reset(next: nat) returns (ok: bool)
      requires Valid()
      modifies this
      ensures ok <==> next > 0
      ensures Valid() && flat == if ok then Restarted(next) else old(flat)
    {
      if next == 0 { return false; }
      data, firstLogIndex, lastLogIndex := [], next, next - 1;
      flat := Restarted(next);
      ok := true;
    }
  }
}
