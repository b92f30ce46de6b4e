/** The object that counts the ballots of a leader's pending log entries, proved against BallotSpec. */
module BallotBoxes {
  import opened Quorum
  import opened BallotSpec
  import opened Ballots
  import opened Closures

  ghost function Views(q: seq<Ballot>): (v: seq<BallotView>)
    reads q
    ensures |v| == |q| && forall i :: 0 <= i < |q| ==> v[i] == q[i].view
  {
    if q == [] then [] else Views(q[..|q| - 1]) + [q[|q| - 1].view]
  }

  /** `index` is the log index of the last granted ballot in [lo, hi), or 0. */
  ghost predicate LastIndex(pending: nat, bs: seq<BallotView>, lo: nat, hi: nat, index: nat) {
    hi <= |bs| ==>
      var r := LastGranted(bs, lo, hi);
      index == if r <= lo then 0 else pending + r - 1
  }

  /** Where the granting loop stands after the ballots in [lo, k). */
  ghost predicate Progress(pending: nat, before: seq<BallotView>, lo: nat, k: nat, hi: nat, peer: PeerId, views: seq<BallotView>, index: nat) {
    && views == GrantRange(before, lo, k, peer) && (k <= lo ==> index == 0)
    && LastIndex(pending, GrantRange(before, lo, hi, peer), lo, k, index)
  }

  lemma NoneGranted(pending: nat, before: seq<BallotView>, lo: nat, hi: nat, peer: PeerId)
    ensures Progress(pending, before, lo, lo, hi, peer, before, 0)
  {
    hide LastGranted;
    assert before == GrantRange(before, lo, lo, peer);
  }

  lemma OneGranted(pending: nat, before: seq<BallotView>, lo: nat, k: nat, hi: nat, peer: PeerId,
      views: seq<BallotView>, now: seq<BallotView>, index: nat)
    requires Progress(pending, before, lo, k, hi, peer, views, index) && lo <= k < hi <= |before|
    requires |views| == |before| && now == views[k := Grant(views[k], peer)]
    ensures Progress(pending, before, lo, k + 1, hi, peer, now, if now[k].IsGranted() then pending + k else index)
  {
    assert now == GrantRange(before, lo, k + 1, peer);
  }

  /** The loop has reached the end of the range, or had nothing to do. */
  lemma AllGranted(pending: nat, before: seq<BallotView>, lo: nat, k: nat, hi: nat, peer: PeerId, views: seq<BallotView>, index: nat)
    requires Progress(pending, before, lo, k, hi, peer, views, index) && (k == hi || (k == lo && hi <= lo))
    ensures views == GrantRange(before, lo, hi, peer) && LastIndex(pending, views, lo, hi, index)
  {
    assert k != hi ==> GrantRange(before, lo, k, peer) == GrantRange(before, lo, hi, peer);
  }

  class BallotBox {
    var pendingIndex: nat
    var pendingMetaQueue: seq<Ballot>
    var lastCommittedIndex: nat
    const closureQueue: ClosureQueue

    /** Ballots are separate objects, each of its own entry; closures keep pace with ballots while leading. */
    ghost predicate Valid() reads this, pendingMetaQueue, closureQueue {
      && (forall i, j :: 0 <= i < j < |pendingMetaQueue| ==> pendingMetaQueue[i] != pendingMetaQueue[j])
      && (forall i :: 0 <= i < |pendingMetaQueue| ==> pendingMetaQueue[i].Valid() && pendingMetaQueue[i].grantable)
      && (pendingIndex == 0 ==> pendingMetaQueue == [])
      && (pendingIndex > 0 ==> closureQueue.View().Next() == pendingIndex + |pendingMetaQueue|)
      && (pendingIndex > 0 ==> lastCommittedIndex < pendingIndex)
    }

    ghost function View(): Box reads this, pendingMetaQueue {
      Box(pendingIndex, Views(pendingMetaQueue), lastCommittedIndex)
    }

    constructor (closureQueue: ClosureQueue)
      ensures Valid() && View() == Box(0, [], 0) && this.closureQueue == closureQueue
    {
      this.closureQueue := closureQueue;
      lastCommittedIndex, pendingIndex, pendingMetaQueue := 0, 0, [];
    }

    /** One ballot is granted; the others are separate objects and stay as they are. */
    method GrantOne(i: nat, peer: PeerId, hint: PosHint) returns (next: PosHint, granted: bool)
      requires Valid() && i < |pendingMetaQueue|
      modifies pendingMetaQueue[i]
      ensures Valid()
      ensures Views(pendingMetaQueue) == old(Views(pendingMetaQueue))[i := Grant(old(pendingMetaQueue[i].view), peer)]
      ensures granted == Views(pendingMetaQueue)[i].IsGranted()
    {
      hide Marks, Counts, Granted;
      var bl := pendingMetaQueue[i];
      next := bl.Grant(peer, hint);
      granted := bl.Granted();
    }

    /** The granting loop of commit_at: the last index with a quorum, or 0. */
    method GrantAll(startAt: nat, last: nat, peer: PeerId) returns (lastCommitted: nat)
      requires Valid() && 0 < pendingIndex <= startAt && pendingIndex <= last < pendingIndex + |pendingMetaQueue|
      modifies pendingMetaQueue
      ensures Valid()
      ensures Views(pendingMetaQueue) == GrantRange(old(Views(pendingMetaQueue)), startAt - pendingIndex, last + 1 - pendingIndex, peer)
      ensures LastIndex(pendingIndex, Views(pendingMetaQueue), startAt - pendingIndex, last + 1 - pendingIndex, lastCommitted)
    {
      hide Valid, Progress, Views, LastIndex, Granted;
      ghost var before, lo, hi := Views(pendingMetaQueue), startAt - pendingIndex, last + 1 - pendingIndex;
      var posHint := PosHint(-1, -1);
      lastCommitted := 0;
      var index := startAt;
      NoneGranted(pendingIndex, before, lo, hi, peer);
      while index <= last
        invariant startAt <= index && (index <= last + 1 || index == startAt) && Valid()
        invariant Progress(pendingIndex, before, lo, index - pendingIndex, hi, peer, Views(pendingMetaQueue), lastCommitted)
      {
        ghost var views := Views(pendingMetaQueue);
        var granted;
        posHint, granted := GrantOne(index - pendingIndex, peer, posHint);
        OneGranted(pendingIndex, before, lo, index - pendingIndex, hi, peer, views, Views(pendingMetaQueue), lastCommitted);
        if granted { lastCommitted := index; }
        index := index + 1;
      }
      AllGranted(pendingIndex, before, lo, index - pendingIndex, hi, peer, Views(pendingMetaQueue), lastCommitted);
    }

    /** The popping loop of commit_at. */
    method PopUntil(lastCommitted: nat)
      requires Valid() && 0 < pendingIndex <= lastCommitted < pendingIndex + |pendingMetaQueue|
      modifies this
      ensures Valid()
      ensures View() == Pop(old(View()), lastCommitted + 1 - old(pendingIndex))
    {
      hide Marks, Counts;
      ghost var views := Views(pendingMetaQueue);
      var i := pendingIndex;
      while i <= lastCommitted
        invariant pendingIndex == old(pendingIndex) <= i <= lastCommitted + 1
        invariant lastCommittedIndex == old(lastCommittedIndex)
        invariant pendingMetaQueue == old(pendingMetaQueue)[i - pendingIndex..]
      {
        pendingMetaQueue := pendingMetaQueue[1..];
        i := i + 1;
      }
      pendingIndex := lastCommitted + 1;
      lastCommittedIndex := lastCommitted;
      assert Views(pendingMetaQueue) == views[lastCommitted + 1 - old(pendingIndex)..];
    }

    /** Grants the ballots of [first, last] and commits up to the last one that has a quorum now. */
    method CommitAt(first: nat, last: nat, peer: PeerId) returns (rc: Outcome, notify: Option<nat>)
      requires Valid()
      modifies this, pendingMetaQueue
      ensures Valid()
      ensures (View(), rc) == BallotSpec.CommitAt(old(View()), first, last, peer)
      ensures notify == if lastCommittedIndex != old(lastCommittedIndex) then Some(lastCommittedIndex) else None
    {
      hide Marks, Counts, Granted, GrantRange, LastGranted, Views;
      if pendingIndex == 0 { return Invalid, None; }
      if last < pendingIndex { return Done, None; }
      if last >= pendingIndex + |pendingMetaQueue| { return OutOfRange, None; }
      var startAt := if pendingIndex >= first then pendingIndex else first;
      var lastCommitted := GrantAll(startAt, last, peer);
      if lastCommitted == 0 { return Done, None; }
      PopUntil(lastCommitted);
      return Done, Some(lastCommitted);
    }

    /** A leader that steps down forgets its ballots and fails the closures that wait. */
    method ClearPendingTasks() returns (failed: seq<ClosureId>)
      requires Valid()
      modifies this, closureQueue
      ensures Valid() && View() == Cleared(old(View()))
      ensures closureQueue.View() == Waiting(0, []) && failed == Present(old(closureQueue.queue))
    {
      pendingMetaQueue, pendingIndex := [], 0;
      failed := closureQueue.Clear();
    }

    method ResetPendingIndex(newPendingIndex: nat)
      requires Valid() && pendingIndex == 0 && pendingMetaQueue == []
      requires newPendingIndex > lastCommittedIndex && closureQueue.queue == []
      modifies this, closureQueue
      ensures Valid() && View() == Reset(old(View()), newPendingIndex)
      ensures closureQueue.View() == Waiting(newPendingIndex, [])
    {
      pendingIndex := newPendingIndex;
      closureQueue.ResetFirstIndex(newPendingIndex);
    }

    /** One more entry is waiting; `oldConf` is given exactly in the joint stage. */
    method AppendPendingTask(conf: set<PeerId>, oldConf: Option<set<PeerId>>, c: Option<ClosureId>)
      requires Valid() && pendingIndex > 0 && oldConf != Some({})
      modifies this, closureQueue
      ensures Valid()
      ensures View() == Append(old(View()), Conf(conf, if oldConf.Some? then oldConf.value else {}))
      ensures closureQueue.View() == old(closureQueue.View()).(queue := old(closureQueue.queue) + [c])
    {
      hide Marks, Counts;
      var bl := new Ballot(conf, oldConf);
      ghost var before := pendingMetaQueue;
      pendingMetaQueue := pendingMetaQueue + [bl];
      assert pendingMetaQueue[..|before|] == before;
      closureQueue.AppendPendingClosure(c);
    }

    /** A follower learns from its leader how far the log is committed; it never moves back. */
    method SetLastCommittedIndex(index: nat) returns (rc: Outcome, notify: Option<nat>)
      requires Valid()
      requires pendingIndex != 0 ==> index < pendingIndex
      modifies this
      ensures Valid() && View() == SetCommitted(old(View()), index)
      ensures notify == if lastCommittedIndex != old(lastCommittedIndex) then Some(lastCommittedIndex) else None
      ensures rc == Done <==> old(pendingIndex) == 0 && index >= old(lastCommittedIndex)
      ensures lastCommittedIndex == if rc == Done then index else old(lastCommittedIndex)
    {
      notify := None;
      if pendingIndex != 0 || pendingMetaQueue != [] { return OutOfRange, None; }
      if index < lastCommittedIndex { return Invalid, None; }
      if index > lastCommittedIndex {
        lastCommittedIndex := index;
        notify := Some(index);
      }
      rc := Done;
    }
  }
}
