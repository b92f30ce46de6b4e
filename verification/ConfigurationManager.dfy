/** The index of configurations along the log (configuration_manager.cpp), against the full history of the log. */
module ConfigurationHistory {
  import opened Quorum
  import opened LogTypes

  datatype ConfigurationEntry = ConfigurationEntry(id: LogId, conf: Conf)

  const EMPTY_ENTRY := ConfigurationEntry(LogId(0, 0), Conf({}, {}))

  /** The log from index 1, cut or not: the configuration an index carries, if it carries one. */
  type History = seq<Option<ConfigurationEntry>>

  predicate WellIndexed(full: History) {
    forall i :: 0 <= i < |full| && full[i].Some? ==> full[i].value.id.index == i + 1
  }

  /** The last configuration that the log carries. */
  function Latest(full: History): Conf {
    if full == [] then EMPTY_ENTRY.conf
    else
      match full[|full| - 1]
      case Some(e) => e.conf
      case None => Latest(full[..|full| - 1])
  }

  function UpTo(full: History, index: nat): History { if index < |full| then full[..index] else full }

  /** The configuration in force at `index`: the last one at or before it in the full history. */
  function InForce(full: History, index: nat): Conf { Latest(UpTo(full, index)) }

  /** The configuration entries of the log at index `from` and later. */
  function Confs(full: History, from: nat): seq<ConfigurationEntry> {
    if full == [] || |full| < from then []
    else Confs(full[..|full| - 1], from) + (match full[|full| - 1] case Some(e) => [e] case None => [])
  }

  lemma {:induction false} ConfsAt(full: History, from: nat, j: nat)
    requires WellIndexed(full) && j < |Confs(full, from)|
    ensures var e := Confs(full, from)[j];
      from <= e.id.index && 1 <= e.id.index <= |full| && full[e.id.index - 1] == Some(e)
  {
    var short := full[..|full| - 1];
    if j < |Confs(short, from)| { ConfsAt(short, from, j); }
  }

  lemma {:induction false} ConfsRise(full: History, from: nat, i: nat, j: nat)
    requires WellIndexed(full) && i < j < |Confs(full, from)|
    ensures Confs(full, from)[i].id.index < Confs(full, from)[j].id.index
  {
    var short := full[..|full| - 1];
    if j < |Confs(short, from)| { ConfsRise(short, from, i, j); } else { ConfsAt(short, from, i); }
  }

  /** Cutting the history at `kept` keeps the configurations at or before `kept`. */
  lemma {:induction false} ConfsCut(full: History, from: nat, kept: nat) returns (n: nat)
    requires WellIndexed(full) && kept <= |full|
    ensures n <= |Confs(full, from)| && Confs(full[..kept], from) == Confs(full, from)[..n]
    ensures forall j :: n <= j < |Confs(full, from)| ==> Confs(full, from)[j].id.index > kept
    ensures forall j :: 0 <= j < n ==> Confs(full, from)[j].id.index <= kept
  {
    if kept == |full| {
      assert full[..kept] == full;
      n := |Confs(full, from)|;
      forall j | 0 <= j < n ensures Confs(full, from)[j].id.index <= kept { ConfsAt(full, from, j); }
    } else {
      var short := full[..|full| - 1];
      n := ConfsCut(short, from, kept);
      assert short[..kept] == full[..kept];
      assert Confs(full, from)[..n] == Confs(short, from)[..n];
    }
  }

  lemma AppendSplits(a: seq<ConfigurationEntry>, n: nat, tail: seq<ConfigurationEntry>)
    requires n <= |a|
    ensures (a + tail)[n..] == a[n..] + tail
  {
  }

  /** Starting later drops the front of the index, and nothing else. */
  lemma {:induction false} ConfsLater(full: History, from: nat, later: nat) returns (n: nat)
    requires WellIndexed(full) && from <= later
    ensures n <= |Confs(full, from)| && Confs(full, later) == Confs(full, from)[n..]
    ensures forall j :: 0 <= j < n ==> Confs(full, from)[j].id.index < later
    ensures forall j :: n <= j < |Confs(full, from)| ==> Confs(full, from)[j].id.index >= later
  {
    if full == [] || |full| < later {
      n := |Confs(full, from)|;
      forall j | 0 <= j < n ensures Confs(full, from)[j].id.index < later { ConfsAt(full, from, j); }
    } else {
      var short := full[..|full| - 1];
      n := ConfsLater(short, from, later);
      var tail := match full[|full| - 1] case Some(e) => [e] case None => [];
      AppendSplits(Confs(short, from), n, tail);
    }
  }

  /** The history with nothing after `index`, made up to that length with entries that carry no configuration. */
  function PaddedTo(full: History, index: nat): (r: History)
    ensures |r| == index
    decreases if |full| < index then index - |full| else 0
  {
    if index <= |full| then full[..index] else PaddedTo(full + [None], index)
  }

  lemma {:induction false} PaddedConfs(full: History, from: nat, index: nat)
    requires WellIndexed(full)
    ensures WellIndexed(PaddedTo(full, index)) && Confs(PaddedTo(full, index), from) == Confs(UpTo(full, index), from)
    ensures forall i: nat :: i <= index ==> InForce(PaddedTo(full, index), i) == InForce(full, i)
    decreases if |full| < index then index - |full| else 0
  {
    if index <= |full| {
      assert UpTo(full, index) == full[..index];
      forall i: nat | i <= index ensures UpTo(full[..index], i) == UpTo(full, i) { assert full[..index][..i] == full[..i]; }
    } else {
      var more := full + [None];
      assert more[..|full|] == full;
      PaddedConfs(more, from, index);
      assert UpTo(more, index) == more;
      forall i: nat | i <= index ensures InForce(more, i) == InForce(full, i) {
        if i < |more| { assert UpTo(more, i) == UpTo(full, i); } else { assert UpTo(more, i) == more && UpTo(full, i) == full; }
      }
    }
  }

  /** The history once the entry at its index is a configuration. */
  function Extended(full: History, entry: ConfigurationEntry): History
    requires entry.id.index > 0
  {
    PaddedTo(full, entry.id.index - 1) + [Some(entry)]
  }

  lemma ExtendedConfs(full: History, from: nat, entry: ConfigurationEntry)
    requires WellIndexed(full) && entry.id.index > 0 && from <= entry.id.index
    ensures WellIndexed(Extended(full, entry))
    ensures Confs(Extended(full, entry), from) == Confs(UpTo(full, entry.id.index - 1), from) + [entry]
    ensures forall i: nat :: i < entry.id.index ==> InForce(Extended(full, entry), i) == InForce(full, i)
    ensures forall i: nat :: i >= entry.id.index ==> InForce(Extended(full, entry), i) == entry.conf
  {
    var h := PaddedTo(full, entry.id.index - 1);
    var e := Extended(full, entry);
    PaddedConfs(full, from, entry.id.index - 1);
    assert e[..|e| - 1] == h;
    forall i: nat | i < entry.id.index ensures InForce(e, i) == InForce(full, i) {
      assert UpTo(e, i) == UpTo(h, i);
      assert InForce(h, i) == InForce(full, i);
    }
  }

  lemma {:induction false} LatestIsLast(full: History, from: nat)
    requires Confs(full, from) != []
    ensures Latest(full) == Confs(full, from)[|Confs(full, from)| - 1].conf
  {
    if full[|full| - 1].None? { LatestIsLast(full[..|full| - 1], from); }
  }

  /** With no configuration from `from` on, the latest one is the latest before it. */
  lemma {:induction false} LatestIsEarlier(full: History, from: nat, earlier: nat)
    requires Confs(full, from) == [] && from <= earlier + 1
    ensures Latest(full) == InForce(full, earlier)
  {
    if earlier < |full| {
      var short := full[..|full| - 1];
      LatestIsEarlier(short, from, earlier);
      assert UpTo(short, earlier) == UpTo(full, earlier);
    }
  }

  /** If everything up to `earlier` is in force alike, so is everything the index still covers. */
  lemma LookUp(full: History, from: nat, earlier: nat, index: nat) returns (n: nat)
    requires WellIndexed(full) && from <= earlier + 1
    ensures n <= |Confs(full, from)|
    ensures forall j :: 0 <= j < n ==> Confs(full, from)[j].id.index <= index
    ensures forall j :: n <= j < |Confs(full, from)| ==> Confs(full, from)[j].id.index > index
    ensures n > 0 ==> InForce(full, index) == Confs(full, from)[n - 1].conf
    ensures n == 0 && earlier <= index ==> InForce(full, index) == InForce(full, earlier)
  {
    var kept := if index < |full| then index else |full|;
    var upTo := UpTo(full, index);
    assert upTo == full[..kept];
    n := ConfsCut(full, from, kept);
    forall j | n <= j < |Confs(full, from)| ensures Confs(full, from)[j].id.index > index { ConfsAt(full, from, j); }
    if n > 0 {
      LatestIsLast(upTo, from);
    } else if earlier <= index {
      LatestIsEarlier(upTo, from, earlier);
      assert UpTo(upTo, earlier) == UpTo(full, earlier);
    }
  }
}

module ConfigurationManagers {
  import opened Quorum
  import opened LogTypes
  import opened ConfigurationHistory

  /** An index sorted around `bound` can be split there in one place only. */
  lemma SameSplit(all: seq<ConfigurationEntry>, a: nat, b: nat, bound: nat)
    requires a <= |all| && b <= |all|
    requires forall j :: 0 <= j < a ==> all[j].id.index < bound
    requires forall j :: a <= j < |all| ==> all[j].id.index >= bound
    requires (b == 0 || all[b - 1].id.index < bound) && (b == |all| || all[b].id.index >= bound)
    ensures a == b
  {
  }

  class ConfigurationManager {
    var configurations: seq<ConfigurationEntry>
    var snapshot: ConfigurationEntry
    ghost var full: History
    /** Entries before this index have been cut off. */
    ghost var from: nat

    ghost predicate Valid() reads this {
      && WellIndexed(full) && configurations == Confs(full, from)
      && from <= snapshot.id.index + 1 && snapshot.conf == InForce(full, snapshot.id.index)
    }

    constructor ()
      ensures Valid() && full == [] && snapshot == EMPTY_ENTRY
    {
      configurations, snapshot, full, from := [], EMPTY_ENTRY, [], 0;
    }

    /** The log has got a configuration entry; refused if the index already holds a later one. */
    method Add(entry: ConfigurationEntry) returns (ok: bool)
      requires Valid() && entry.id.index > snapshot.id.index
      modifies this`configurations, this`full
      ensures Valid() && (ok <==> forall e :: e in old(configurations) ==> e.id.index < entry.id.index)
      ensures full == if ok then Extended(old(full), entry) else old(full)
    {
      ghost var upTo := UpTo(full, entry.id.index - 1);
      ghost var n := ConfsCut(full, from, |upTo|);
      forall i, j | 0 <= i < j < |configurations| ensures configurations[i].id.index < configurations[j].id.index {
        ConfsRise(full, from, i, j);
      }
      if configurations != [] && configurations[|configurations| - 1].id.index >= entry.id.index {
        assert configurations[|configurations| - 1] in configurations;
        return false;
      }
      assert upTo == full[..|upTo|];
      forall j | 0 <= j < |configurations| ensures configurations[j].id.index <= |upTo| { ConfsAt(full, from, j); }
      ExtendedConfs(full, from, entry);
      configurations := configurations + [entry];
      full := Extended(full, entry);
      ok := true;
    }

    method PopFront(firstIndexKept: nat) returns (ghost k: nat)
      modifies this`configurations
      ensures k <= |old(configurations)| && configurations == old(configurations)[k..]
      ensures forall j :: 0 <= j < k ==> old(configurations)[j].id.index < firstIndexKept
      ensures configurations == [] || configurations[0].id.index >= firstIndexKept
    {
      k := 0;
      while configurations != [] && configurations[0].id.index < firstIndexKept
        invariant k <= |old(configurations)| && configurations == old(configurations)[k..]
        invariant forall j :: 0 <= j < k ==> old(configurations)[j].id.index < firstIndexKept
        decreases |configurations|
      {
        configurations := configurations[1..];
        k := k + 1;
      }
    }

    method PopBack(lastIndexKept: nat)
      modifies this`configurations
      ensures |configurations| <= |old(configurations)| && configurations == old(configurations)[..|configurations|]
      ensures forall j :: |configurations| <= j < |old(configurations)| ==> old(configurations)[j].id.index > lastIndexKept
      ensures configurations == [] || configurations[|configurations| - 1].id.index <= lastIndexKept
    {
      while configurations != [] && configurations[|configurations| - 1].id.index > lastIndexKept
        invariant |configurations| <= |old(configurations)| && configurations == old(configurations)[..|configurations|]
        invariant forall j :: |configurations| <= j < |old(configurations)| ==> old(configurations)[j].id.index > lastIndexKept
        decreases |configurations|
      {
        configurations := configurations[..|configurations| - 1];
      }
    }

    method TruncatePrefix(firstIndexKept: nat)
      requires Valid() && firstIndexKept <= snapshot.id.index + 1
      modifies this`configurations, this`from
      ensures Valid() && from == if firstIndexKept < old(from) then old(from) else firstIndexKept
    {
      ghost var later := if firstIndexKept < from then from else firstIndexKept;
      ghost var n := ConfsLater(full, from, later);
      forall j | 0 <= j < |configurations| ensures configurations[j].id.index >= from { ConfsAt(full, from, j); }
      ghost var all := configurations;
      ghost var k := PopFront(firstIndexKept);
      SameSplit(all, n, k, later);
      from := later;
    }

    /** The log has lost everything after `lastIndexKept`, which is never before the snapshot. */
    method TruncateSuffix(lastIndexKept: nat)
      requires Valid() && lastIndexKept >= snapshot.id.index
      modifies this`configurations, this`full
      ensures Valid() && full == UpTo(old(full), lastIndexKept)
    {
      ghost var kept := if lastIndexKept < |full| then lastIndexKept else |full|;
      ghost var n := ConfsCut(full, from, kept);
      forall j | 0 <= j < |configurations| ensures configurations[j].id.index <= |full| { ConfsAt(full, from, j); }
      ghost var all := configurations;
      PopBack(lastIndexKept);
      SameSplit(all, n, |configurations|, lastIndexKept + 1);
      assert UpTo(full, lastIndexKept) == full[..kept];
      assert UpTo(full[..kept], snapshot.id.index) == UpTo(full, snapshot.id.index);
      full := UpTo(full, lastIndexKept);
    }

    /** A snapshot taken here: its configuration is the one in force where it ends. */
    method SetSnapshot(entry: ConfigurationEntry)
      requires Valid() && !IdLess(entry.id, snapshot.id) && entry.id.index >= snapshot.id.index
      requires entry.conf == InForce(full, entry.id.index)
      modifies this`snapshot
      ensures Valid() && snapshot == entry
    {
      snapshot := entry;
    }

    /** A snapshot received from the leader stands for a history of its own, and the local log is dropped for it. */
    method InstallSnapshot(entry: ConfigurationEntry, ghost history: History)
      requires Valid() && !IdLess(entry.id, snapshot.id) && entry.id.index >= snapshot.id.index
      requires WellIndexed(history) && |history| <= entry.id.index && entry.conf == InForce(history, entry.id.index)
      modifies this
      ensures Valid() && snapshot == entry && full == history && configurations == []
    {
      snapshot := entry;
      forall i, j | 0 <= i < j < |configurations| ensures configurations[i].id.index < configurations[j].id.index {
        ConfsRise(full, from, i, j);
      }
      ghost var k := PopFront(entry.id.index + 1);
      PopBack(entry.id.index);
      from, full := entry.id.index + 1, history;
    }

    /** From the snapshot on, and wherever the index still has an earlier entry, this is what the log says. */
    method Get(lastIncludedIndex: nat) returns (r: ConfigurationEntry)
      requires Valid()
      ensures lastIncludedIndex >= snapshot.id.index ==> r.conf == InForce(full, lastIncludedIndex)
      ensures (exists e :: e in configurations && e.id.index <= lastIncludedIndex) ==>
        r.conf == InForce(full, lastIncludedIndex) && r.id.index <= lastIncludedIndex
      ensures r == snapshot || r in configurations
    {
      ghost var n := LookUp(full, from, snapshot.id.index, lastIncludedIndex);
      if configurations == [] { return snapshot; }
      var it := 0;
      while it < |configurations|
        invariant it <= n
      {
        if configurations[it].id.index > lastIncludedIndex { break; }
        it := it + 1;
      }
      if it == 0 { return snapshot; }
      r := configurations[it - 1];
    }

    method LastConfiguration() returns (r: ConfigurationEntry)
      requires Valid()
      ensures r.conf == Latest(full)
    {
      if configurations != [] {
        LatestIsLast(full, from);
        return configurations[|configurations| - 1];
      }
      LatestIsEarlier(full, from, snapshot.id.index);
      r := snapshot;
    }
  }
}
