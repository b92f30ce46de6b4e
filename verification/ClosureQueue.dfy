/** The closures of tasks that wait for their log index to be committed. */
module Closures {
  import opened Quorum

  type ClosureId = nat

  /** `queue[i]` waits for index `first + i`; a task without a closure leaves `None`. */
  datatype Waiting = Waiting(first: nat, queue: seq<Option<ClosureId>>) {
    function Next(): nat { first + |queue| }

    /** The closure waiting for `index`, if any. */
    function At(index: nat): Option<ClosureId> {
      if first <= index < Next() then queue[index - first] else None
    }
  }

  /** What is left once everything up to `index` has been handed out. */
  function PopUntil(w: Waiting, index: nat): Waiting
    requires w.queue == [] || index < w.Next()
  {
    if w.queue == [] || index < w.first then w else Waiting(index + 1, w.queue[index + 1 - w.first..])
  }

  /** The closures in a stretch of the queue, in order. */
  function Present(q: seq<Option<ClosureId>>): seq<ClosureId> {
    if q == [] then []
    else Present(q[..|q| - 1]) + if q[|q| - 1].Some? then [q[|q| - 1].value] else []
  }

  /** Closures keep the order of their indexes. */
  lemma {:induction false} PresentJoins(a: seq<Option<ClosureId>>, b: seq<Option<ClosureId>>)
    ensures Present(a + b) == Present(a) + Present(b)
    decreases |b|
  {
    if b == [] {
      assert a + b == a;
    } else {
      assert (a + b)[..|a + b| - 1] == a + b[..|b| - 1];
      PresentJoins(a, b[..|b| - 1]);
    }
  }

  class ClosureQueue {
    var firstIndex: nat
    var queue: seq<Option<ClosureId>>

    ghost function View(): Waiting reads this { Waiting(firstIndex, queue) }

    constructor ()
      ensures View() == Waiting(0, [])
    {
      firstIndex, queue := 0, [];
    }

    /** Empties the queue; the closures in it run with an error, in order. */
    method Clear() returns (failed: seq<ClosureId>)
      modifies this
      ensures View() == Waiting(0, []) && failed == Present(old(queue))
    {
      var saved := queue;
      queue, firstIndex := [], 0;
      failed := [];
      var i := 0;
      while i < |saved|
        invariant i <= |saved| && failed == Present(saved[..i]) && View() == Waiting(0, [])
      {
        assert saved[..i + 1][..i] == saved[..i];
        if saved[i].Some? { failed := failed + [saved[i].value]; }
        i := i + 1;
      }
      assert saved[..i] == saved;
    }

    method ResetFirstIndex(index: nat)
      requires queue == []
      modifies this
      ensures View() == Waiting(index, [])
    {
      firstIndex := index;
    }

    method AppendPendingClosure(c: Option<ClosureId>)
      modifies this
      ensures View() == old(View()).(queue := old(queue) + [c])
    {
      queue := queue + [c];
    }

    /** Hands out everything up to `index`, in the order of the indexes. */
    method PopClosureUntil(index: nat) returns (ok: bool, out: seq<Option<ClosureId>>, outFirst: nat)
      modifies this
      ensures ok <==> old(queue) == [] || index < old(View()).Next()
      ensures !ok ==> View() == old(View())
      ensures ok ==> View() == PopUntil(old(View()), index)
      ensures ok ==> outFirst + |out| == index + 1
      ensures ok ==> forall i :: outFirst <= i <= index ==> out[i - outFirst] == old(View()).At(i)
      ensures ok ==> forall i: nat :: i < outFirst ==> old(View()).At(i).None?
    {
      ok, out, outFirst := true, [], 0;
      if queue == [] || index < firstIndex {
        outFirst := index + 1;
        return;
      }
      if index > firstIndex + |queue| - 1 { return false, [], 0; }
      outFirst := firstIndex;
      var i := firstIndex;
      while i <= index
        invariant firstIndex == old(firstIndex) <= i <= index + 1
        invariant queue == old(queue)[i - firstIndex..] && out == old(queue)[..i - firstIndex]
      {
        out := out + [queue[0]];
        queue := queue[1..];
        i := i + 1;
      }
      firstIndex := index + 1;
    }
  }
}
