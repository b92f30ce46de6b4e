/** A replicator always has something to wait for, and from every moment of a run the whole log can get through. */
module ReplicatorLive {
  import opened Quorum
  import opened LogTypes
  import opened RaftNode
  import opened Windows
  import opened Replicators
  import opened ReplicatorRuns

  /** An answer, the waiter it has registered, or the end of the blocking time will move it on. */
  predicate Busy(r: Rep) { r.inFly != [] || (r.waiting && r.registered && !r.canceled) || r.st == Blocking }

  predicate Lively(s: Sys) { (s.rep.waiting ==> s.rep.registered && !s.rep.canceled) && (s.gone || Busy(s.rep)) }

  lemma NotFlying(r: Rep)
    requires Window(r) && r.inFly == []
    ensures r.flying == 0
  {
  }

  /** Sending leaves something in flight, or a waiter. */
  lemma SendLively(r: Rep, n: nat, parallel: nat)
    requires Window(r) && n <= MAX_ENTRIES_SIZE && parallel > 0 && r.st != Blocking
    requires r.waiting ==> r.registered && !r.canceled
    ensures var q := SendEntries(r, n, parallel); Busy(q) && (q.waiting ==> q.registered && !q.canceled)
  {
    SendIs(r, n, parallel);
    if r.inFly == [] { NotFlying(r); }
  }

  lemma CountSmall(r: Rep, log: Log)
    requires r.next >= 1
    ensures Count(r, log) <= MAX_ENTRIES_SIZE
  {
  }

  lemma CountAfterSmall(r: Rep, first: nat, log: Log)
    ensures CountAfter(r, first, log) <= MAX_ENTRIES_SIZE
  {
  }

  /** All that is in flight under the call id of a request is that request. */
  lemma SameCall(s: Sys, req: Request, f: Flying)
    requires RequestsOk(s) && RepOk(s) && req in s.requests && f in s.rep.inFly && f.callId == req.callId
    ensures Carries(req, f)
  {
    var other :| other in s.requests && Carries(other, f);
  }

  lemma AnswerLively(s: Sys, reply: Reply)
    requires Inv(s) && Lively(s) && !s.gone && s.parallel > 0 && reply.req in s.requests
    requires reply in s.replies || !reply.resp.Success?
    ensures Window(s.rep)
    ensures var a := Answered(s, reply); Lively(Moved(Noted(s, reply.req.prev + 1, a.1), a.0))
  {
    RepOkWindow(s);
    var first, size := reply.req.prev + 1, |reply.req.entries|;
    var n := CountAfter(s.rep, first, s.leader);
    forall f | f in s.rep.inFly && f.callId == reply.req.callId ensures f.logIndex == first && f.size == size { SameCall(s, reply.req, f); }
    ReturnedAnswers(s.rep, s.term, first, size, reply.req.callId, reply.resp, n, s.parallel);
    CountAfterSmall(s.rep, first, s.leader);
    var a := Answered(s, reply);
    if a.1 != Ignored && reply.resp.Success? {
      var f :| f in s.rep.inFly && f.callId == reply.req.callId;
      PopKeeps(s.rep, first, f);
      var p := Popped(s.rep, first).(succeeded := true);
      SucceededKeeps(Popped(s.rep, first));
      assert s.rep.st != Blocking;
      SendLively(p, n, s.parallel);
    }
    hide Window, Popped, SendEntries, RepOk, RequestsOk, AcksOk, Agrees;
  }

  lemma NextLively(s: Sys, e: Event)
    requires Inv(s) && Lively(s) && Enabled(s, e) && s.parallel > 0
    ensures Window(s.rep) && Lively(Next(s, e))
  {
    RepOkWindow(s);
    match e
    case Return(reply) => AnswerLively(s, reply);
    case Fail(req) => AnswerLively(s, Reply(req, Failed));
    case Woken =>
      if !s.rep.canceled {
        var r := s.rep.(waiting := false);
        assert Window(r);
        if r.next >= 1 { CountSmall(r, s.leader); }
        SendLively(r, Sendable(s, r), s.parallel);
      }
    case _ =>
  }

  lemma {:induction false} LivelyAlways(s: Sys, es: seq<Event>, t: Sys)
    requires Inv(s) && Lively(s) && Run(s, es, t) && s.parallel > 0
    ensures Inv(t) && Lively(t) && t.parallel == s.parallel
    decreases |es|
  {
    hide Inv, Lively, Window, Enabled, Next;
    if es != [] {
      NextKeeps(s, es[0]);
      NextLively(s, es[0]);
      SameParallel(s, es[0]);
      LivelyAlways(Next(s, es[0]), es[1..], t);
    }
  }

  lemma SameParallel(s: Sys, e: Event)
    requires Window(s.rep)
    ensures Next(s, e).parallel == s.parallel
  {
  }

  lemma StartsLively(s: Sys)
    requires Init(s)
    ensures Inv(s) && Lively(s)
  {
    InitInv(s);
  }

  /** In every run, a replicator that has not met a higher term waits for an answer, for new entries or for a blocking time to end. */
  lemma NeverStuck(s: Sys, es: seq<Event>, t: Sys)
    requires Init(s) && Run(s, es, t) && s.parallel > 0
    ensures t.gone || Busy(t.rep)
  {
    StartsLively(s);
    LivelyAlways(s, es, t);
  }

  // ----- from every moment on

  lemma {:induction false} RunJoin(s: Sys, a: seq<Event>, t: Sys, b: seq<Event>, u: Sys)
    requires Run(s, a, t) && Run(t, b, u)
    ensures Run(s, a + b, u)
    decreases |a|
  {
    hide Window, Enabled, Next;
    if a == [] {
      assert a + b == b;
    } else {
      assert (a + b)[1..] == a[1..] + b;
      RunJoin(Next(s, a[0]), a[1..], t, b, u);
    }
  }

  lemma OneEvent(s: Sys, e: Event)
    requires Window(s.rep) && Enabled(s, e)
    ensures Run(s, [e], Next(s, e))
  {
    assert [e][1..] == [];
  }

  ghost predicate Good(s: Sys) { Inv(s) && Lively(s) && !s.gone && s.parallel > 0 }

  lemma GoodStep(s: Sys, e: Event)
    requires Good(s) && Enabled(s, e)
    ensures Window(s.rep) && Run(s, [e], Next(s, e)) && Inv(Next(s, e)) && Lively(Next(s, e)) && Next(s, e).parallel > 0
  {
    NextKeeps(s, e);
    NextLively(s, e);
    hide Inv, Lively, Next, Enabled, Run;
    SameParallel(s, e);
    OneEvent(s, e);
  }

  /** The peer holds the entry before the request as the leader has it. */
  predicate Accepts(s: Sys, f: Flying) { f.logIndex >= 1 && TermAt(s.peer, f.logIndex - 1) == TermAt(s.leader, f.logIndex - 1) }

  lemma HeadIs(s: Sys) returns (req: Request)
    requires Inv(s) && s.rep.inFly != []
    ensures var f := s.rep.inFly[0];
      && req in s.requests && Carries(req, f) && req.prevTerm == TermAt(s.leader, req.prev)
      && (f.logIndex == MinFlying(s.rep) || (Probing(s.rep) && f.logIndex == s.rep.next))
  {
    var f := s.rep.inFly[0];
    assert Backed(s.requests, f);
    req :| req in s.requests && Carries(req, f);
    assert Faithful(s.leader, req);
  }

  lemma TakenIff(peer: Log, req: Request)
    ensures Taken(peer, req).Some? <==> TermAt(peer, req.prev) == req.prevTerm
  {
  }

  /** What is in flight after an accepted request has entries. */
  lemma NoProbeAfter(r: Rep, first: nat, f: Flying, n: nat, parallel: nat)
    requires Window(r) && f in r.inFly && f.logIndex == first && n <= MAX_ENTRIES_SIZE
    ensures var q := SendEntries(Popped(r, first).(succeeded := true), n, parallel); !Probing(q) && q.st != Blocking
  {
    PopKeeps(r, first, f);
    var p := Popped(r, first).(succeeded := true);
    SucceededKeeps(Popped(r, first));
    SendIs(p, n, parallel);
    forall g | g in p.inFly ensures g.size > 0 { TiledFrom(p.inFly, MinFlying(p), p.next, g); }
    hide Popped, SendEntries;
  }

  /** The flow is on: the peer has answered before, and no probe is out. */
  predicate Flows(r: Rep) { r.succeeded && !Probing(r) && r.st != Blocking }

  /** The next probe is right behind the peer's log, or one lower than before, or at the first entry. */
  predicate Lower(s: Sys, u: Sys) {
    u.rep.next == if |s.peer| + 1 < MinFlying(s.rep) then |s.peer| + 1 else if MinFlying(s.rep) > 1 then MinFlying(s.rep) - 1 else 1
  }

  /** The answer to the oldest request in flight is one of those asked for. */
  lemma HeadAsked(s: Sys, req: Request, resp: Response)
    requires Good(s) && s.rep.inFly != [] && req in s.requests && Carries(req, s.rep.inFly[0])
    requires Reply(req, resp) in s.replies
    ensures Window(s.rep)
    ensures var f := s.rep.inFly[0]; var a := Answered(s, Reply(req, resp));
      a.1 != Ignored && Answers(s.rep, a.0, s.term, f.logIndex, f.size, resp, a.1)
  {
    RepOkWindow(s);
    var f := s.rep.inFly[0];
    forall g | g in s.rep.inFly && g.callId == req.callId ensures g.logIndex == req.prev + 1 && g.size == |req.entries| { SameCall(s, req, g); }
    assert f in s.rep.inFly;
    var n := CountAfter(s.rep, req.prev + 1, s.leader);
    ReturnedAnswers(s.rep, s.term, req.prev + 1, |req.entries|, req.callId, resp, n, s.parallel);
    hide Window, RepOk, RequestsOk, AcksOk, Answers, Returned, Count;
  }

  lemma HeadRefused(s: Sys, req: Request)
    requires Good(s) && s.rep.inFly != [] && req in s.requests && Carries(req, s.rep.inFly[0])
    requires Reply(req, Mismatch(s.term, |s.peer|)) in s.replies
    ensures Window(s.rep)
    ensures var u := Next(s, Return(Reply(req, Mismatch(s.term, |s.peer|))));
      !u.gone && u.leader == s.leader && u.peer == s.peer && Probing(u.rep) && Lower(s, u)
  {
    HeadAsked(s, req, Mismatch(s.term, |s.peer|));
    hide Window, RepOk, RequestsOk, AcksOk, Agrees, Count, Returned, Inv, Lively;
  }

  lemma HeadStored(s: Sys, req: Request)
    requires Good(s) && s.rep.inFly != [] && req in s.requests && Carries(req, s.rep.inFly[0])
    requires Reply(req, Success(s.term)) in s.replies
    ensures Window(s.rep)
    ensures var u := Next(s, Return(Reply(req, Success(s.term)))); var f := s.rep.inFly[0];
      !u.gone && u.leader == s.leader && u.peer == s.peer && Flows(u.rep) && MinFlying(u.rep) == f.logIndex + f.size
  {
    HeadAsked(s, req, Success(s.term));
    HeadFlows(s, req);
    hide Window, RepOk, RequestsOk, AcksOk, Agrees, Count, Returned, Inv, Lively, Flows;
  }

  lemma HeadFlows(s: Sys, req: Request)
    requires Good(s) && s.rep.inFly != [] && req in s.requests && Carries(req, s.rep.inFly[0])
    requires Reply(req, Success(s.term)) in s.replies
    ensures Window(s.rep)
    ensures Flows(Answered(s, Reply(req, Success(s.term))).0)
  {
    HeadAsked(s, req, Success(s.term));
    var f := s.rep.inFly[0];
    assert f in s.rep.inFly;
    var n := CountAfter(s.rep, req.prev + 1, s.leader);
    CountAfterSmall(s.rep, req.prev + 1, s.leader);
    NoProbeAfter(s.rep, req.prev + 1, f, n, s.parallel);
    hide Window, Popped, SendEntries, RepOk, RequestsOk, AcksOk, Agrees, Count, Answers, CountAfter;
  }

  lemma HeadReceived(s: Sys, req: Request) returns (resp: Response)
    requires Window(s.rep) && s.rep.inFly != []
    requires req in s.requests && Carries(req, s.rep.inFly[0]) && req.prevTerm == TermAt(s.leader, req.prev)
    ensures resp == if Accepts(s, s.rep.inFly[0]) then Success(s.term) else Mismatch(s.term, |s.peer|)
    ensures var mid := Next(s, Receive(req));
      && mid.rep == s.rep && mid.requests == s.requests && mid.gone == s.gone && mid.leader == s.leader && mid.term == s.term
      && Reply(req, resp) in mid.replies && (resp.Mismatch? ==> mid.peer == s.peer)
  {
    TakenIff(s.peer, req);
    resp := if Taken(s.peer, req).Some? then Success(s.term) else Mismatch(s.term, |s.peer|);
    hide Taken, Window;
  }

  /** The oldest request in flight reaches the peer, and the answer comes back. */
  lemma HeadAnswered(s: Sys) returns (es: seq<Event>, u: Sys)
    requires Good(s) && s.rep.inFly != []
    ensures Run(s, es, u) && Good(u) && u.leader == s.leader
    ensures var f := s.rep.inFly[0];
      if Accepts(s, f) then Flows(u.rep) && MinFlying(u.rep) == f.logIndex + f.size else Probing(u.rep) && Lower(s, u)
  {
    var req := HeadIs(s);
    GoodStep(s, Receive(req));
    var resp := HeadReceived(s, req);
    var mid := Next(s, Receive(req));
    hide Inv, Lively, Next, Run, Window, MinFlying, Probing, Flows, Accepts;
    if resp.Success? { HeadStored(mid, req); } else { HeadRefused(mid, req); }
    GoodStep(mid, Return(Reply(req, resp)));
    u := Next(mid, Return(Reply(req, resp)));
    RunJoin(s, [Receive(req)], mid, [Return(Reply(req, resp))], u);
    es := [Receive(req)] + [Return(Reply(req, resp))];
  }

  lemma ProbeFacts(s: Sys)
    requires Good(s) && Probing(s.rep)
    ensures s.rep.inFly != [] && s.rep.inFly[0] == Flying(s.rep.next, 0, s.rep.inFly[0].callId) && MinFlying(s.rep) == s.rep.next >= 1
    ensures s.rep.next == 1 ==> Accepts(s, s.rep.inFly[0])
  {
  }

  /** Probing ends with a success: every refusal lowers the probe, and nobody refuses the first one. */
  lemma {:induction false} ProbedThrough(s: Sys) returns (es: seq<Event>, u: Sys)
    requires Good(s) && Probing(s.rep)
    ensures Run(s, es, u) && Good(u) && u.leader == s.leader && Flows(u.rep)
    decreases s.rep.next
  {
    ProbeFacts(s);
    es, u := HeadAnswered(s);
    if !Accepts(s, s.rep.inFly[0]) {
      hide Good, Run, Probing, Flows, Accepts;
      var mid := u;
      var more;
      more, u := ProbedThrough(mid);
      RunJoin(s, es, mid, more, u);
      es := es + more;
    }
  }

  lemma BlockEnds(s: Sys)
    requires Good(s) && s.rep.st == Blocking
    ensures Enabled(s, BlockOver) && Window(s.rep)
    ensures var u := Next(s, BlockOver); Probing(u.rep) && u.leader == s.leader && !u.gone
  {
    RepOkWindow(s);
    assert s.rep.inFly == [] && !s.rep.waiting;
  }

  /** Whatever has gone wrong, the flow can be taken up again. */
  lemma FlowReached(s: Sys) returns (es: seq<Event>, u: Sys)
    requires Good(s)
    ensures Run(s, es, u) && Good(u) && u.leader == s.leader && Flows(u.rep)
  {
    if s.rep.st == Blocking {
      BlockEnds(s);
      GoodStep(s, BlockOver);
      var mid := Next(s, BlockOver);
      es, u := ProbedThrough(mid);
      RunJoin(s, [BlockOver], mid, es, u);
      es := [BlockOver] + es;
    } else if Probing(s.rep) {
      es, u := ProbedThrough(s);
    } else {
      es, u := [], s;
    }
  }

  /** What the window says while the flow is on. */
  lemma FlowFacts(s: Sys)
    requires Good(s) && Flows(s.rep)
    ensures 1 <= MinFlying(s.rep) <= s.rep.next <= |s.leader| + 1 && Holds(s.peer, s.leader, MinFlying(s.rep) - 1)
    ensures s.rep.inFly != [] ==> s.rep.inFly[0].logIndex == MinFlying(s.rep) && s.rep.inFly[0].size > 0 && Accepts(s, s.rep.inFly[0])
    ensures s.rep.inFly == [] ==> s.rep.next == MinFlying(s.rep) && Enabled(s, Woken) && !s.rep.canceled
    ensures s.rep.inFly == [] && s.rep.next <= |s.leader| ==> Sendable(s, s.rep.(waiting := false)) > 0
  {
    WindowFlying(s.rep);
    var n := MinFlying(s.rep) - 1;
    if n > 0 && s.rep.inFly != [] { HoldsAt(s.peer, s.leader, n, n - 1); }
  }

  /** Woken with entries to send, the replicator sends them. */
  lemma WakeSends(s: Sys)
    requires Good(s) && Flows(s.rep) && s.rep.inFly == [] && s.rep.next <= |s.leader|
    ensures Window(s.rep) && Enabled(s, Woken)
    ensures var u := Next(s, Woken); Flows(u.rep) && u.rep.inFly != [] && MinFlying(u.rep) == MinFlying(s.rep) && u.leader == s.leader && !u.gone
  {
    RepOkWindow(s);
    FlowFacts(s);
    var r := s.rep.(waiting := false);
    var n := Sendable(s, r);
    assert Window(r);
    CountSmall(r, s.leader);
    SendIs(r, n, s.parallel);
    NotFlying(r);
  }

  /** The flow brings every entry of the leader through. */
  lemma {:induction false} FlowEnds(s: Sys) returns (es: seq<Event>, u: Sys)
    requires Good(s) && Flows(s.rep)
    ensures Run(s, es, u) && Good(u) && u.leader == s.leader && Flows(u.rep) && MinFlying(u.rep) == |s.leader| + 1
    decreases |s.leader| + 1 - MinFlying(s.rep), if s.rep.inFly == [] then 1 else 0
  {
    FlowFacts(s);
    if s.rep.inFly != [] {
      es, u := HeadAnswered(s);
      var mid := u;
      FlowFacts(mid);
      hide Good, Run, Flows, Accepts, Holds;
      var more;
      more, u := FlowEnds(mid);
      RunJoin(s, es, mid, more, u);
      es := es + more;
    } else if s.rep.next <= |s.leader| {
      WakeSends(s);
      GoodStep(s, Woken);
      var mid := Next(s, Woken);
      hide Next, Run, Flows, Enabled, Inv, Lively;
      es, u := FlowEnds(mid);
      RunJoin(s, [Woken], mid, es, u);
      es := [Woken] + es;
    } else {
      es, u := [], s;
    }
  }

  /**
   From every moment of every run the rest can go well: unless a higher term was met, the run can be continued so that the peer holds
   the whole of the leader's log, and all of it from where probing last ended on has been reported.
   */
  lemma EverythingGetsThrough(s: Sys, before: seq<Event>, t: Sys) returns (es: seq<Event>, u: Sys)
    requires Init(s) && Run(s, before, t) && s.parallel > 0 && !t.gone
    ensures Run(s, before + es, u) && Run(t, es, u) && u.leader == t.leader && Holds(u.peer, u.leader, |u.leader|)
    ensures forall i: nat :: u.base <= i <= |u.leader| ==> i in u.acked
  {
    StartsLively(s);
    LivelyAlways(s, before, t);
    hide Inv, Lively, Run, Flows, Init;
    var first, mid := FlowReached(t);
    var more;
    more, u := FlowEnds(mid);
    RunJoin(t, first, mid, more, u);
    es := first + more;
    RunJoin(s, before, t, es, u);
    AllHeld(u);
  }

  lemma AllHeld(u: Sys)
    requires Good(u) && Flows(u.rep) && MinFlying(u.rep) == |u.leader| + 1
    ensures Holds(u.peer, u.leader, |u.leader|) && forall i: nat :: u.base <= i <= |u.leader| ==> i in u.acked
  {
  }
}
