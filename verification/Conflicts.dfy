/** How a follower fits the entries of a request into its log (log_manager.cpp, check_and_resolve_conflict). */
module Conflicts {
  import opened Quorum
  import opened LogTypes
  import opened SegmentFormat
  import opened FlatLog

  datatype Verdict =
    | Gap
    | AlreadyApplied
    | Fatal
    | Resolved(log: Flat)

  predicate Positive(es: seq<Record>) { forall i :: 0 <= i < |es| ==> es[i].term > 0 }

  /** How many entries of the request the log already has, counted up to the first one it does not have. */
  function FirstConflict(f: Flat, first: nat, es: seq<Record>): (k: nat)
    ensures k <= |es|
    ensures forall i :: 0 <= i < k ==> f.TermAt(first + i) == es[i].term
    ensures k < |es| ==> f.TermAt(first + k) != es[k].term
    decreases |es|
  {
    if es == [] || f.TermAt(first) != es[0].term then 0
    else
      var k := FirstConflict(f, first + 1, es[1..]);
      assert forall i :: 0 < i < k + 1 ==> es[i] == es[1..][i - 1] && f.TermAt(first + i) == f.TermAt(first + 1 + (i - 1));
      k + 1
  }

  function Resolve(f: Flat, applied: nat, first: nat, es: seq<Record>): Verdict
    requires es != [] && f.first <= first
  {
    var k := FirstConflict(f, first, es);
    if first > f.Last() + 1 then Gap
    else if first + |es| - 1 <= applied then AlreadyApplied
    else if first == f.Last() + 1 then Resolved(Appended(f, es))
    else if k == |es| then Resolved(f)
    else if first + k > f.Last() then Resolved(Appended(f, es[k..]))
    else if first + k - 1 < applied then Fatal
    else Resolved(Appended(SuffixCut(f, first + k - 1), es[k..]))
  }

  /** Log and request hold the same entry wherever they hold the same term at the same index. */
  predicate TermsTell(f: Flat, first: nat, es: seq<Record>) {
    forall i :: 0 <= i < |es| && f.TermAt(first + i) == es[i].term ==> f.At(first + i) == Some(es[i])
  }

  /** Resolving always means: keep the log up to the first conflict, then take the rest of the request. */
  lemma ResolvedIs(f: Flat, applied: nat, first: nat, es: seq<Record>)
    requires es != [] && f.first <= first && Positive(es) && Resolve(f, applied, first, es).Resolved?
    ensures var k := FirstConflict(f, first, es);
      && f.first - 1 <= first + k - 1 <= f.Last()
      && Resolve(f, applied, first, es).log ==
         if k == |es| then f else Appended(SuffixCut(f, first + k - 1), es[k..])
  {
    var k := FirstConflict(f, first, es);
    assert first == f.Last() + 1 ==> f.TermAt(first) != es[0].term;
    if k > 0 { assert f.TermAt(first + (k - 1)) == es[k - 1].term > 0; }
    if k < |es| && first + k > f.Last() {
      assert f.log[..first + k - f.first] == f.log;
      assert es[0..] == es;
    }
  }

  lemma ResolvedAt(f: Flat, applied: nat, first: nat, es: seq<Record>, index: nat)
    requires es != [] && f.first <= first && Positive(es) && Resolve(f, applied, first, es).Resolved?
    ensures var k := FirstConflict(f, first, es);
      Resolve(f, applied, first, es).log.At(index) ==
        if k == |es| || index < first + k then f.At(index)
        else if index < first + |es| then Some(es[index - first])
        else None
  {
    hide Resolve;
    var k := FirstConflict(f, first, es);
    ResolvedIs(f, applied, first, es);
    if k < |es| {
      SuffixCutAt(f, first + k - 1, index);
      AppendedAt(SuffixCut(f, first + k - 1), es[k..], index);
    }
  }

  /** The log agrees with the request over the whole of its range, and nothing before the first conflict is touched. */
  lemma ResolveAgrees(f: Flat, applied: nat, first: nat, es: seq<Record>)
    requires es != [] && f.first <= first && Positive(es) && TermsTell(f, first, es)
    requires Resolve(f, applied, first, es).Resolved?
    ensures var g := Resolve(f, applied, first, es).log;
      && (forall i :: 0 <= i < |es| ==> g.At(first + i) == Some(es[i]))
      && (forall index: nat :: (forall j :: 0 <= j < |es| && first + j <= index ==> f.TermAt(first + j) == es[j].term)
                               ==> g.At(index) == f.At(index) || f.At(index) == None)
  {
    var g := Resolve(f, applied, first, es).log;
    forall i | 0 <= i < |es| ensures g.At(first + i) == Some(es[i]) { ResolvedAt(f, applied, first, es, first + i); }
    forall index: nat | forall j :: 0 <= j < |es| && first + j <= index ==> f.TermAt(first + j) == es[j].term
      ensures g.At(index) == f.At(index) || f.At(index) == None
    {
      var k := FirstConflict(f, first, es);
      assert k < |es| ==> index < first + k;
      ResolvedAt(f, applied, first, es, index);
    }
  }

  /** A request the log already agrees with, however old, changes nothing: not even entries after it. */
  lemma DuplicateChangesNothing(f: Flat, applied: nat, first: nat, es: seq<Record>)
    requires es != [] && f.first <= first && Positive(es)
    ensures (forall i :: 0 <= i < |es| ==> f.TermAt(first + i) == es[i].term)
            <==> Resolve(f, applied, first, es) == Resolved(f)
                 || (Resolve(f, applied, first, es).AlreadyApplied? && FirstConflict(f, first, es) == |es|)
  {
    assert first > f.Last() ==> f.TermAt(first + 0) != es[0].term;
    if Resolve(f, applied, first, es) == Resolved(f) && FirstConflict(f, first, es) < |es| {
      var k := FirstConflict(f, first, es);
      ResolvedAt(f, applied, first, es, first + k);
    }
  }

  /** Once a request is in, any part of it that arrives later or again leaves the log as it is. */
  lemma LateAfterNewer(f: Flat, applied: nat, later: nat, first: nat, es: seq<Record>, a: nat, b: nat)
    requires es != [] && f.first <= first && Positive(es) && TermsTell(f, first, es)
    requires Resolve(f, applied, first, es).Resolved? && a < b <= |es|
    ensures var g := Resolve(f, applied, first, es).log;
      var again := Resolve(g, later, first + a, es[a..b]);
      again == Resolved(g) || again == AlreadyApplied
  {
    var g := Resolve(f, applied, first, es).log;
    ResolveAgrees(f, applied, first, es);
    forall i | 0 <= i < |es[a..b]| ensures g.TermAt(first + a + i) == es[a..b][i].term {
      assert g.At(first + (a + i)) == Some(es[a + i]);
    }
    assert g.At(first + a) == Some(es[a]);
    DuplicateChangesNothing(g, later, first + a, es[a..b]);
  }

  /** The fatal branch is taken exactly when the request contradicts an entry that is already applied. */
  lemma FatalIffContradictsApplied(f: Flat, applied: nat, first: nat, es: seq<Record>)
    requires es != [] && f.first <= first <= f.Last() + 1 && Positive(es) && applied < first + |es| - 1
    ensures Resolve(f, applied, first, es).Fatal?
            <==> exists i :: 0 <= i < |es| && first + i <= f.Last() && first + i <= applied
                             && f.TermAt(first + i) != es[i].term
  {
    var k := FirstConflict(f, first, es);
    if k < |es| && first + k <= f.Last() && first + k <= applied {
      assert f.TermAt(first + k) != es[k].term;
    }
  }
}
