/** One replicator and its peer over a network that loses, repeats and reorders, during one term. */
module ReplicatorRuns {
  import opened Quorum
  import opened LogTypes
  import opened RaftNode
  import opened Windows
  import opened Replicators

  datatype Request = Request(callId: nat, prev: nat, prevTerm: nat, entries: Log)

  /** The response comes back together with the request it answers. */
  datatype Reply = Reply(req: Request, resp: Response)

  /** `acked` and `base` record the run: the indexes passed to commit_at, and where probing last ended. */
  datatype Sys = Sys(
    term: nat, parallel: nat, rep: Rep, gone: bool,
    leader: Log, peer: Log, requests: set<Request>, replies: set<Reply>,
    acked: set<nat>, base: nat)

  datatype Event =
    | Grow(payload: Payload)
    | Receive(req: Request)
    | Refuse(req: Request, higher: nat)
    | Return(reply: Reply)
    | Fail(req: Request)
    | BlockOver
    | Woken

  predicate Holds(log: Log, leader: Log, n: nat) { n <= |log| && n <= |leader| && log[..n] == leader[..n] }

  /** The peer's side of an append: what it does to its log, or none if the entry before does not match. */
  function Taken(peer: Log, req: Request): Option<Log> {
    if TermAt(peer, req.prev) != req.prevTerm then None
    else
      var c := MatchCount(peer, req.prev, req.entries);
      if c == |req.entries| then Some(peer)
      else if req.prev + c >= |peer| then Some(peer + req.entries[c..])
      else Some(peer[..req.prev + c] + req.entries[c..])
  }

  function Span(first: nat, last: int): (r: set<nat>)
    ensures forall i: nat :: i in r <==> first <= i <= last
    decreases last - first + 1
  {
    if first > last then {} else Span(first, last - 1) + {last}
  }

  function Piece(log: Log, from: nat, n: nat): Log {
    if from + n <= |log| then log[from..from + n] else []
  }

  function RequestOf(leader: Log, f: Flying): Request
    requires f.logIndex >= 1
  {
    Request(f.callId, f.logIndex - 1, TermAt(leader, f.logIndex - 1), Piece(leader, f.logIndex - 1, f.size))
  }

  /** The replicator has moved on; what is in flight under a new call id has just been sent. */
  function Moved(s: Sys, now: Rep): Sys {
    s.(rep := now,
       requests := s.requests + set f | f in now.inFly && f.callId >= s.rep.calls && f.logIndex >= 1 :: RequestOf(s.leader, f))
  }

  function Sendable(s: Sys, r: Rep): nat { if r.next >= 1 then Count(r, s.leader) else 0 }

  predicate Enabled(s: Sys, e: Event) {
    match e
    case Grow(_) => true
    case Receive(req) => req in s.requests
    case Refuse(req, higher) => req in s.requests && higher > s.term
    case Return(reply) => reply in s.replies && !s.gone
    case Fail(req) => req in s.requests && !s.gone
    case BlockOver => s.rep.st == Blocking && !s.gone
    case Woken => s.rep.registered && !s.gone
  }

  function Answered(s: Sys, reply: Reply): (Rep, Outcome)
    requires Window(s.rep)
  {
    Returned(s.rep, s.term, reply.req.prev + 1, |reply.req.entries|, reply.req.callId, reply.resp,
             CountAfter(s.rep, reply.req.prev + 1, s.leader), s.parallel)
  }

  /** The run's record after a reply. */
  function Noted(s: Sys, first: nat, o: Outcome): Sys {
    match o
    case Committed(a, b) => s.(acked := s.acked + Span(a, b))
    case Matched => s.(base := if s.rep.succeeded && s.base <= first then s.base else first)
    case HigherTerm(_) => s.(gone := true)
    case _ => s
  }

  function Next(s: Sys, e: Event): Sys
    requires Window(s.rep)
  {
    match e
    case Grow(payload) => s.(leader := s.leader + [Entry(s.term, payload)])
    case Receive(req) =>
      (match Taken(s.peer, req)
       case Some(log) => s.(peer := log, replies := s.replies + {Reply(req, Success(s.term))})
       case None => s.(replies := s.replies + {Reply(req, Mismatch(s.term, |s.peer|))}))
    case Refuse(req, higher) => s.(replies := s.replies + {Reply(req, Mismatch(higher, |s.peer|))})
    case Return(reply) =>
      var a := Answered(s, reply);
      Moved(Noted(s, reply.req.prev + 1, a.1), a.0)
    case Fail(req) =>
      var a := Answered(s, Reply(req, Failed));
      Moved(Noted(s, req.prev + 1, a.1), a.0)
    case BlockOver =>
      Moved(s, if s.rep.waiting then s.rep.(st := Idle) else SendEmpty(s.rep.(st := Idle)))
    case Woken =>
      if s.rep.canceled then s
      else
        var r := s.rep.(waiting := false);
        Moved(s, SendEntries(r, Sendable(s, r), s.parallel))
  }

  /** The replicator starts in a term of its own leader, whose log and the peer's obey log matching. */
  predicate Init(s: Sys) {
    && s.term > 0 && !s.gone && s.replies == {} && s.acked == {}
    && s.rep == SendEmpty(Started(|s.leader|))
    && s.requests == {RequestOf(s.leader, Flying(|s.leader| + 1, 0, 0))}
    && Agrees(s.leader, s.peer, s.term) && Positive(s.leader)
  }

  // ----- what holds in every run

  predicate Positive(log: Log) { forall i :: 0 <= i < |log| ==> log[i].term > 0 }

  predicate SameAt(leader: Log, peer: Log, term: nat, i: nat)
    requires i < |peer|
  {
    (i < |leader| && peer[i].term == leader[i].term) || peer[i].term == term ==> Holds(peer, leader, i + 1)
  }

  /** Log matching, and the entries of this term on the peer have come from the leader. */
  predicate Agrees(leader: Log, peer: Log, term: nat) {
    forall i: nat :: i < |peer| ==> SameAt(leader, peer, term, i)
  }

  predicate Faithful(leader: Log, req: Request) {
    && req.prev + |req.entries| <= |leader|
    && req.prevTerm == TermAt(leader, req.prev) && req.entries == leader[req.prev..req.prev + |req.entries|]
  }

  predicate Carries(req: Request, f: Flying) {
    req.callId == f.callId && req.prev + 1 == f.logIndex && |req.entries| == f.size
  }

  ghost predicate Backed(requests: set<Request>, f: Flying) { exists req :: req in requests && Carries(req, f) }

  predicate RequestsOk(s: Sys) {
    && (forall req :: req in s.requests ==> Faithful(s.leader, req) && req.callId < s.rep.calls)
    && (forall r1, r2 :: r1 in s.requests && r2 in s.requests && r1.callId == r2.callId ==> r1 == r2)
  }

  ghost predicate RepOk(s: Sys) {
    && Window(s.rep) && s.rep.next <= |s.leader| + 1 && Quiet(s.rep)
    && (forall f :: f in s.rep.inFly ==> Backed(s.requests, f))
  }

  /** Nothing but a probe is sent before the first success, and a blocked replicator has been reset. */
  predicate Quiet(r: Rep) {
    && (!r.succeeded ==> !r.registered && (r.inFly == [] || Probing(r)))
    && (r.st == Blocking ==> r.canceled)
  }

  predicate RepliesOk(s: Sys) {
    forall reply :: reply in s.replies ==>
      && reply.req in s.requests
      && (reply.resp.Success? ==> reply.resp.term == s.term && Holds(s.peer, s.leader, reply.req.prev + |reply.req.entries|))
  }

  /** The peer stores, matching, whatever commit_at has been told and everything below the window. */
  predicate AcksOk(s: Sys) {
    && (forall i: nat :: i in s.acked ==> i >= 1 && Holds(s.peer, s.leader, i))
    && (s.rep.succeeded ==>
          && MinFlying(s.rep) >= 1 && Holds(s.peer, s.leader, MinFlying(s.rep) - 1)
          && forall i: nat :: s.base <= i < MinFlying(s.rep) ==> i in s.acked)
  }

  ghost predicate Inv(s: Sys) {
    && s.term > 0 && Positive(s.leader) && Agrees(s.leader, s.peer, s.term)
    && RequestsOk(s) && RepOk(s) && RepliesOk(s) && AcksOk(s)
  }

  lemma HoldsLess(log: Log, leader: Log, n: nat, m: nat)
    requires Holds(log, leader, n) && m <= n
    ensures Holds(log, leader, m)
  {
    assert log[..m] == log[..n][..m] && leader[..m] == leader[..n][..m];
  }

  /** An accepted request leaves the peer matching through its end, and undoes no match. */
  lemma TakenHolds(leader: Log, peer: Log, term: nat, req: Request)
    requires Positive(leader) && Agrees(leader, peer, term) && Faithful(leader, req) && Taken(peer, req).Some?
    ensures var log := Taken(peer, req).value;
      && Agrees(leader, log, term) && Holds(log, leader, req.prev + |req.entries|)
      && forall m: nat :: Holds(peer, leader, m) ==> Holds(log, leader, m)
  {
    var log := Taken(peer, req).value;
    var c := MatchCount(peer, req.prev, req.entries);
    var n := |req.entries|;
    MatchedHolds(leader, peer, term, req, c);
    if c < n {
      TakenShape(leader, peer, req, c);
      forall m: nat | Holds(peer, leader, m) ensures Holds(log, leader, m) { NotPast(leader, peer, req, c, m); }
      forall i: nat | i < |log| ensures SameAt(leader, log, term, i) { }
    }
  }

  /** A request with something new leaves the peer with exactly the leader's log through its end. */
  lemma TakenShape(leader: Log, peer: Log, req: Request, c: nat)
    requires Faithful(leader, req) && Taken(peer, req).Some? && c == MatchCount(peer, req.prev, req.entries)
    requires Holds(peer, leader, req.prev + c) && c < |req.entries|
    ensures var end := req.prev + |req.entries|;
      Taken(peer, req).value == leader[..end] && forall m: nat :: m <= end ==> Holds(leader[..end], leader, m)
  {
    var end := req.prev + |req.entries|;
    PeerEnds(peer, req, c);
    CutTwice(leader, end);
    hide Holds, MatchCount;
    assert leader[..end] == leader[..req.prev + c] + leader[req.prev..end][c..];
  }

  lemma CutTwice(leader: Log, end: nat)
    requires end <= |leader|
    ensures forall m: nat :: m <= end ==> Holds(leader[..end], leader, m)
  {
    forall m: nat | m <= end ensures leader[..end][..m] == leader[..m] { }
  }

  lemma PeerEnds(peer: Log, req: Request, c: nat)
    requires Taken(peer, req).Some? && c == MatchCount(peer, req.prev, req.entries) && c < |req.entries|
    requires req.prev + c <= |peer|
    ensures Taken(peer, req).value == peer[..req.prev + c] + req.entries[c..]
  {
    hide MatchCount;
    if req.prev + c == |peer| { assert peer[..req.prev + c] == peer; }
  }

  lemma HoldsAt(log: Log, leader: Log, m: nat, i: nat)
    requires Holds(log, leader, m) && i < m
    ensures TermAt(log, i + 1) == TermAt(leader, i + 1)
  {
    assert log[..m][i] == leader[..m][i];
  }

  /** Whatever matched before ends at or before the first difference. */
  lemma NotPast(leader: Log, peer: Log, req: Request, c: nat, m: nat)
    requires Faithful(leader, req) && c == MatchCount(peer, req.prev, req.entries) && c < |req.entries|
    requires Holds(peer, leader, m)
    ensures m <= req.prev + c
  {
    if m > req.prev + c {
      HoldsAt(peer, leader, m, req.prev + c);
    }
  }

  lemma MatchedHolds(leader: Log, peer: Log, term: nat, req: Request, c: nat)
    requires Positive(leader) && Agrees(leader, peer, term) && Faithful(leader, req)
    requires TermAt(peer, req.prev) == req.prevTerm && c == MatchCount(peer, req.prev, req.entries)
    ensures Holds(peer, leader, req.prev + c)
  {
    if c > 0 {
      var i := req.prev + c - 1;
      assert TermAt(peer, req.prev + 1 + (c - 1)) == req.entries[c - 1].term == leader[i].term > 0;
      assert SameAt(leader, peer, term, i);
    } else if req.prev > 0 {
      assert TermAt(leader, req.prev) > 0;
      assert SameAt(leader, peer, term, req.prev - 1);
    }
  }

  // ----- one step of the replicator

  predicate Covered(leader: Log, was: Rep, f: Flying) {
    f in was.inFly || (f.callId >= was.calls && 1 <= f.logIndex && f.logIndex - 1 + f.size <= |leader|)
  }

  /** The replicator may move to `now`: what is newly in flight is at most one request, within the leader's log. */
  predicate RepFits(leader: Log, was: Rep, now: Rep) {
    && Window(now) && now.next <= |leader| + 1 && was.calls <= now.calls && Quiet(now)
    && (forall f :: f in now.inFly ==> Covered(leader, was, f))
    && (forall f, g :: f in now.inFly && g in now.inFly && f.callId >= was.calls && g.callId >= was.calls ==> f == g)
  }

  lemma EmptyFits(leader: Log, was: Rep, r: Rep)
    requires Window(r) && r.inFly == [] && r.canceled && r.calls == was.calls && r.next <= |leader| + 1 && Quiet(r)
    ensures RepFits(leader, was, SendEmpty(r)) && MinFlying(SendEmpty(r)) == MinFlying(r)
  {
    EmptyKeeps(r);
  }

  lemma SendFits(leader: Log, was: Rep, r: Rep, n: nat, parallel: nat)
    requires Window(r) && r.calls == was.calls && r.next <= |leader| + 1 && (n == 0 || r.next - 1 + n <= |leader|)
    requires (Probing(r) ==> !MaySend(r, parallel)) && r.succeeded
    requires forall f :: f in r.inFly ==> f in was.inFly && f.callId < was.calls
    requires r.st == Blocking ==> r.canceled
    ensures RepFits(leader, was, SendEntries(r, n, parallel)) && MinFlying(SendEntries(r, n, parallel)) == MinFlying(r)
    ensures SendEntries(r, n, parallel).succeeded
  {
    SendKeeps(r, n, parallel);
    hide Window, Probing;
    var sent := Sent(r, n);
    forall f | f in sent.inFly ensures Covered(leader, was, f) && (f in r.inFly || f == Flying(r.next, n, r.calls)) { }
  }

  /** What is in the moved system's request set. */
  lemma SentOrOld(s: Sys, now: Rep, req: Request)
    requires RepOk(s) && RepFits(s.leader, s.rep, now) && req in Moved(s, now).requests
    ensures req in s.requests
      || exists f :: f in now.inFly && f.callId >= s.rep.calls && f.logIndex >= 1 && RequestOf(s.leader, f) == req
  {
  }

  /** A request just sent tells the leader's log as it is. */
  lemma SentFaithful(s: Sys, now: Rep, f: Flying)
    requires RepOk(s) && RepFits(s.leader, s.rep, now) && f in now.inFly && f.callId >= s.rep.calls
    ensures f.logIndex >= 1
    ensures var req := RequestOf(s.leader, f);
      Faithful(s.leader, req) && s.rep.calls <= req.callId < now.calls && Carries(req, f) && req in Moved(s, now).requests
  {
    CallIdBelow(now, f);
    OldCallIds(s, f);
    assert Covered(s.leader, s.rep, f);
  }

  lemma MovedRequests(s: Sys, now: Rep)
    requires RequestsOk(s) && RepOk(s) && RepFits(s.leader, s.rep, now)
    ensures RequestsOk(Moved(s, now))
  {
    var t := Moved(s, now);
    forall req | req in t.requests
      ensures Faithful(s.leader, req) && req.callId < now.calls && (req !in s.requests ==> req.callId >= s.rep.calls)
    {
      SentOrOld(s, now, req);
      if req !in s.requests {
        var f :| f in now.inFly && f.callId >= s.rep.calls && f.logIndex >= 1 && RequestOf(s.leader, f) == req;
        SentFaithful(s, now, f);
      }
    }
    forall r1, r2 | r1 in t.requests && r2 in t.requests && r1.callId == r2.callId ensures r1 == r2 {
      SentOrOld(s, now, r1);
      SentOrOld(s, now, r2);
    }
  }

  lemma MovedKeeps(s: Sys, now: Rep)
    requires RequestsOk(s) && RepOk(s) && RepliesOk(s) && RepFits(s.leader, s.rep, now)
    ensures RequestsOk(Moved(s, now)) && RepOk(Moved(s, now)) && RepliesOk(Moved(s, now))
  {
    MovedRequests(s, now);
    var t := Moved(s, now);
    assert t.requests >= s.requests;
    forall f | f in now.inFly ensures Backed(t.requests, f) {
      assert Covered(s.leader, s.rep, f);
      if f in s.rep.inFly {
        var req :| req in s.requests && Carries(req, f);
        assert req in t.requests;
      } else {
        SentFaithful(s, now, f);
      }
    }
    hide RequestsOk, Window, Quiet, Moved;
    assert t.rep == now && t.leader == s.leader && t.peer == s.peer && t.replies == s.replies && t.term == s.term;
  }

  lemma CallIdBelow(r: Rep, f: Flying)
    requires Window(r) && f in r.inFly
    ensures f.callId < r.calls && f.logIndex >= 1
  {
    if Probing(r) { } else { TiledFrom(r.inFly, MinFlying(r), r.next, f); }
  }

  lemma {:induction false} TiledFrom(inFly: seq<Flying>, from: int, upTo: int, f: Flying)
    requires Tiled(inFly, from, upTo) && f in inFly
    ensures f.logIndex >= from && f.size > 0
  {
    if f != inFly[0] { TiledFrom(inFly[1..], from + inFly[0].size, upTo, f); }
  }

  lemma OldCallIds(s: Sys, f: Flying)
    requires RepOk(s) && f.callId >= s.rep.calls
    ensures f !in s.rep.inFly
  {
  }

  /** The request in flight that a valid reply answers. */
  lemma Replied(s: Sys, reply: Reply) returns (f: Flying)
    requires RequestsOk(s) && RepOk(s) && reply.req in s.requests
    requires ValidRpc(s.rep.inFly, reply.req.prev + 1, reply.req.callId)
    ensures f in s.rep.inFly && Carries(reply.req, f)
  {
    ValidInFly(s.rep.inFly, reply.req.prev + 1, reply.req.callId);
    f :| f in s.rep.inFly && f.callId == reply.req.callId && f.logIndex <= reply.req.prev + 1;
    var req :| req in s.requests && Carries(req, f);
  }

  /** What the answer to a reply does to the window. */
  predicate AnswerFits(s: Sys, reply: Reply, rep: Rep, o: Outcome)  {
    var first := reply.req.prev + 1;
    var size := |reply.req.entries|;
    && RepFits(s.leader, s.rep, rep)
    && (o.Committed? || o.Matched? ==> reply.resp.Success? && rep.succeeded && MinFlying(rep) == first + size
                                       && MinFlying(s.rep) <= first)
    && (o.Committed? ==> s.rep.succeeded && o.first == MinFlying(s.rep) && o.last == first + size - 1 && size > 0)
    && (o.Matched? ==> size == 0 && MinFlying(s.rep) == first)
    && (!o.Committed? && !o.Matched? ==> MinFlying(rep) <= MinFlying(s.rep) && rep.succeeded == s.rep.succeeded)
  }

  lemma AnsweredFits(s: Sys, reply: Reply)
    requires RequestsOk(s) && RepOk(s) && reply.req in s.requests
    ensures AnswerFits(s, reply, Answered(s, reply).0, Answered(s, reply).1)
  {
    hide RepFits, Window, Quiet, SendEntries, Popped, ValidRpc, Lowered, SendEmpty, RequestsOk, Probing;
    var first := reply.req.prev + 1;
    var size := |reply.req.entries|;
    if !ValidRpc(s.rep.inFly, first, reply.req.callId) {
      StayFits(s.leader, s.rep);
    } else {
      var f := Replied(s, reply);
      WindowFlying(s.rep);
      var reset := ResetNextIndex(s.rep);
      ResetFits(s.leader, s.rep, reset);
      match reply.resp
      case Failed => ResetFits(s.leader, s.rep, reset.(st := Blocking));
      case Mismatch(t, last) => LoweredFits(s.leader, s.rep, last);
      case Success(t) => SuccessFits(s, first, f);
    }
  }

  lemma ResetFits(leader: Log, was: Rep, r: Rep)
    requires Window(was) && Quiet(was) && was.next <= |leader| + 1
    requires r == ResetNextIndex(was) || r == ResetNextIndex(was).(st := Blocking)
    ensures RepFits(leader, was, r) && MinFlying(r) == MinFlying(was) && r.succeeded == was.succeeded
  {
  }

  lemma LoweredFits(leader: Log, was: Rep, last: nat)
    requires Window(was) && Quiet(was) && was.next <= |leader| + 1
    ensures RepFits(leader, was, ResetNextIndex(was)) && MinFlying(ResetNextIndex(was)) == MinFlying(was)
    ensures var r := SendEmpty(Lowered(ResetNextIndex(was), last));
      RepFits(leader, was, r) && MinFlying(r) <= MinFlying(was) && r.succeeded == was.succeeded
  {
    EmptyFits(leader, was, Lowered(ResetNextIndex(was), last));
  }

  lemma StayFits(leader: Log, r: Rep)
    requires Window(r) && Quiet(r) && r.next <= |leader| + 1
    ensures RepFits(leader, r, r)
  {
  }

  lemma SuccessFits(s: Sys, first: nat, f: Flying)
    requires RepOk(s) && f in s.rep.inFly && f.logIndex == first
    ensures var p := Popped(s.rep, first).(succeeded := true);
      var rep := SendEntries(p, CountAfter(s.rep, first, s.leader), s.parallel);
      && RepFits(s.leader, s.rep, rep) && rep.succeeded && MinFlying(rep) == first + f.size && MinFlying(s.rep) <= first
      && (if f.size > 0 then s.rep.succeeded else MinFlying(s.rep) == first)
  {
    PopKeeps(s.rep, first, f);
    if !Probing(s.rep) { TiledFrom(s.rep.inFly, MinFlying(s.rep), s.rep.next, f); }
    SucceededKeeps(Popped(s.rep, first));
    var p := Popped(s.rep, first).(succeeded := true);
    SendFits(s.leader, s.rep, p, CountAfter(s.rep, first, s.leader), s.parallel);
  }

  // ----- every event keeps the invariant

  lemma RepOkWindow(s: Sys)
    requires RepOk(s)
    ensures Window(s.rep) && 1 <= MinFlying(s.rep)
  {
  }

  lemma GrowKeeps(s: Sys, e: Entry)
    requires Inv(s) && e.term == s.term
    ensures Inv(s.(leader := s.leader + [e]))
  {
    var t := s.(leader := s.leader + [e]);
    hide Window, Quiet, Probing;
    forall n: nat | n <= |s.leader| ensures t.leader[..n] == s.leader[..n] { }
    forall i: nat | i < |t.peer| ensures SameAt(t.leader, t.peer, t.term, i) {
      assert SameAt(s.leader, s.peer, s.term, i);
    }
    forall req | req in t.requests ensures Faithful(t.leader, req) {
      assert Faithful(s.leader, req);
      assert t.leader[req.prev..req.prev + |req.entries|] == s.leader[req.prev..req.prev + |req.entries|];
    }
  }

  lemma ReceiveKeeps(s: Sys, req: Request)
    requires Inv(s) && req in s.requests
    ensures Inv(Next(s, Receive(req)))
  {
    RepOkWindow(s);
    if Taken(s.peer, req).Some? {
      TakenHolds(s.leader, s.peer, s.term, req);
      PeerMoves(s, req, Taken(s.peer, req).value);
    } else {
      hide Window, Quiet, Holds, Taken, Faithful, Agrees, Positive;
    }
  }

  lemma PeerMoves(s: Sys, req: Request, log: Log)
    requires Inv(s) && req in s.requests
    requires Agrees(s.leader, log, s.term) && Holds(log, s.leader, req.prev + |req.entries|)
    requires forall m: nat :: Holds(s.peer, s.leader, m) ==> Holds(log, s.leader, m)
    ensures Inv(s.(peer := log, replies := s.replies + {Reply(req, Success(s.term))}))
  {
    hide Window, Quiet, Holds, Taken, Faithful, Agrees, Positive;
    var t := s.(peer := log, replies := s.replies + {Reply(req, Success(s.term))});
    forall reply | reply in t.replies
      ensures reply.req in t.requests
      ensures reply.resp.Success? ==> reply.resp.term == t.term && Holds(t.peer, t.leader, reply.req.prev + |reply.req.entries|)
    {
      if reply !in s.replies { assert reply == Reply(req, Success(s.term)); }
    }
  }

  lemma NotedAcks(s: Sys, reply: Reply, rep: Rep, o: Outcome)
    requires RepliesOk(s) && AcksOk(s) && RepOk(s) && AnswerFits(s, reply, rep, o)
    requires reply in s.replies || !reply.resp.Success?
    ensures AcksOk(Moved(Noted(s, reply.req.prev + 1, o), rep))
  {
    var t := Moved(Noted(s, reply.req.prev + 1, o), rep);
    var first := reply.req.prev + 1;
    var size := |reply.req.entries|;
    RepOkWindow(s);
    assert Window(rep);
    assert t.peer == s.peer && t.leader == s.leader && t.rep == rep;
    hide RepFits, Window, Quiet, Moved, RepOk;
    if o.Committed? || o.Matched? {
      var end: nat := first + size - 1;
      assert Holds(s.peer, s.leader, end);
      forall i: nat | i in t.acked ensures i >= 1 && Holds(s.peer, s.leader, i) {
        if i !in s.acked { HoldsLess(s.peer, s.leader, end, i); }
      }
    } else if rep.succeeded {
      HoldsLess(s.peer, s.leader, MinFlying(s.rep) - 1, MinFlying(rep) - 1);
    }
  }

  lemma MovedNoted(s: Sys, first: nat, o: Outcome, now: Rep)
    ensures var t := Moved(Noted(s, first, o), now); var u := Moved(s, now);
      && t.rep == u.rep && t.requests == u.requests && t.replies == u.replies && t.peer == u.peer
      && t.leader == u.leader && t.term == u.term && t.leader == s.leader && t.peer == s.peer && t.term == s.term
  {
  }

  lemma AnswerKeeps(s: Sys, reply: Reply)
    requires Inv(s) && reply.req in s.requests && (reply in s.replies || !reply.resp.Success?)
    ensures Window(s.rep)
    ensures var a := Answered(s, reply); Inv(Moved(Noted(s, reply.req.prev + 1, a.1), a.0))
  {
    RepOkWindow(s);
    var a := Answered(s, reply);
    AnsweredFits(s, reply);
    NotedAcks(s, reply, a.0, a.1);
    MovedKeeps(s, a.0);
    MovedNoted(s, reply.req.prev + 1, a.1, a.0);
    MovedAlike(Moved(s, a.0), Moved(Noted(s, reply.req.prev + 1, a.1), a.0));
    hide Moved, Noted, Answered, RepOk, RepliesOk, RequestsOk, AcksOk, Agrees, Positive;
  }

  lemma MovedAlike(u: Sys, t: Sys)
    requires RequestsOk(u) && RepOk(u) && RepliesOk(u)
    requires t.rep == u.rep && t.requests == u.requests && t.replies == u.replies && t.peer == u.peer
    requires t.leader == u.leader && t.term == u.term
    ensures RequestsOk(t) && RepOk(t) && RepliesOk(t)
  {
    hide Window, Quiet, Faithful, Holds;
  }

  lemma QuietMoves(s: Sys, now: Rep)
    requires Inv(s) && RepFits(s.leader, s.rep, now) && MinFlying(now) <= MinFlying(s.rep)
    requires now.succeeded == s.rep.succeeded
    ensures Inv(Moved(s, now))
  {
    hide RepFits, Window, RepOk, RequestsOk, RepliesOk, Holds, Agrees, Positive;
    MovedKeeps(s, now);
    RepOkWindow(s);
    RepFitsWindow(s.leader, s.rep, now);
    if now.succeeded { HoldsLess(s.peer, s.leader, MinFlying(s.rep) - 1, MinFlying(now) - 1); }
  }

  lemma RepFitsWindow(leader: Log, was: Rep, now: Rep)
    requires RepFits(leader, was, now)
    ensures Window(now) && 1 <= MinFlying(now)
  {
  }

  lemma WokenFits(s: Sys)
    requires RepOk(s) && s.rep.registered && !s.rep.canceled
    ensures var r := s.rep.(waiting := false);
      var now := SendEntries(r, Sendable(s, r), s.parallel);
      RepFits(s.leader, s.rep, now) && MinFlying(now) == MinFlying(s.rep) && now.succeeded == s.rep.succeeded
  {
    var r := s.rep.(waiting := false);
    assert Window(r) && !Probing(r);
    SendFits(s.leader, s.rep, r, Sendable(s, r), s.parallel);
  }

  lemma BlockOverFits(s: Sys)
    requires RepOk(s) && s.rep.st == Blocking
    ensures var r := s.rep.(st := Idle);
      var now := if s.rep.waiting then r else SendEmpty(r);
      RepFits(s.leader, s.rep, now) && MinFlying(now) == MinFlying(s.rep) && now.succeeded == s.rep.succeeded
  {
    var r := s.rep.(st := Idle);
    assert Window(r) && Quiet(r);
    EmptyFits(s.leader, s.rep, r);
  }

  lemma NextKeeps(s: Sys, e: Event)
    requires Inv(s) && Enabled(s, e)
    ensures Window(s.rep) && Inv(Next(s, e))
  {
    RepOkWindow(s);
    match e
    case Grow(payload) => GrowKeeps(s, Entry(s.term, payload));
    case Receive(req) => ReceiveKeeps(s, req);
    case Refuse(req, higher) => RefuseKeeps(s, req, higher);
    case Return(reply) => AnswerKeeps(s, reply);
    case Fail(req) => AnswerKeeps(s, Reply(req, Failed));
    case BlockOver =>
      BlockOverFits(s);
      QuietMoves(s, if s.rep.waiting then s.rep.(st := Idle) else SendEmpty(s.rep.(st := Idle)));
    case Woken =>
      if !s.rep.canceled {
        WokenFits(s);
        var r := s.rep.(waiting := false);
        QuietMoves(s, SendEntries(r, Sendable(s, r), s.parallel));
      }
  }

  lemma RefuseKeeps(s: Sys, req: Request, higher: nat)
    requires Inv(s) && req in s.requests
    ensures Window(s.rep) && Inv(Next(s, Refuse(req, higher)))
  {
    RepOkWindow(s);
    hide Window, Quiet, Holds, Faithful, Agrees, Positive;
  }

  // ----- runs

  ghost predicate Run(s: Sys, es: seq<Event>, t: Sys)
    decreases |es|
  {
    if es == [] then s == t
    else Window(s.rep) && Enabled(s, es[0]) && Run(Next(s, es[0]), es[1..], t)
  }

  lemma InitInv(s: Sys)
    requires Init(s)
    ensures Inv(s)
  {
    var f := Flying(|s.leader| + 1, 0, 0);
    assert s.rep.inFly == [f] && Carries(RequestOf(s.leader, f), f);
    assert RequestOf(s.leader, f) in s.requests;
    assert Probing(s.rep);
  }

  lemma {:induction false} RunKeeps(s: Sys, es: seq<Event>, t: Sys)
    requires Inv(s) && Run(s, es, t)
    ensures Inv(t)
    decreases |es|
  {
    if es != [] {
      NextKeeps(s, es[0]);
      RunKeeps(Next(s, es[0]), es[1..], t);
    }
  }

  /** In every run the requests in flight tile the window, and their sizes add up to the flying size. */
  lemma WindowTiles(s: Sys, es: seq<Event>, t: Sys)
    requires Init(s) && Run(s, es, t)
    ensures Probing(t.rep) || Tiled(t.rep.inFly, MinFlying(t.rep), t.rep.next)
    ensures 1 <= MinFlying(t.rep) <= t.rep.next <= |t.leader| + 1 && Total(t.rep.inFly) == t.rep.flying
  {
    InitInv(s);
    RunKeeps(s, es, t);
    SizesSumUp(t.rep);
  }

  /** Whatever a reply makes the replicator report to commit_at, the peer stores, and matching. */
  lemma CommitsAreStored(s: Sys, es: seq<Event>, t: Sys, reply: Reply)
    requires Init(s) && Run(s, es, t) && Enabled(t, Return(reply))
    ensures Window(t.rep)
    ensures var o := Answered(t, reply).1;
      o.Committed? ==> 1 <= o.first <= o.last && Holds(t.peer, t.leader, o.last)
  {
    hide RepOk, AcksOk, Agrees, Positive, RequestsOk, Window, RepFits, Answered, Holds, Run, Init;
    InitInv(s);
    RunKeeps(s, es, t);
    RepOkWindow(t);
    AnsweredFits(t, reply);
  }

  /** After the first success nothing below the window is unmatched, and from where probing ended no index is left out. */
  lemma NoIndexSkipped(s: Sys, es: seq<Event>, t: Sys)
    requires Init(s) && Run(s, es, t)
    ensures forall i: nat :: i in t.acked ==> i >= 1 && Holds(t.peer, t.leader, i)
    ensures t.rep.succeeded ==>
      && MinFlying(t.rep) >= 1 && Holds(t.peer, t.leader, MinFlying(t.rep) - 1)
      && forall i: nat :: t.base <= i < MinFlying(t.rep) ==> i in t.acked
  {
    InitInv(s);
    RunKeeps(s, es, t);
  }

  /** What the replicator calls caught up is: the peer lacks no more than `margin` entries of the leader's log. */
  lemma CaughtUpIsTrue(s: Sys, es: seq<Event>, t: Sys, margin: nat)
    requires Init(s) && Run(s, es, t)
    requires t.rep.succeeded && CaughtUp(t.rep, margin, |t.leader|)
    ensures exists n: nat :: n + margin >= |t.leader| && Holds(t.peer, t.leader, n)
  {
    NoIndexSkipped(s, es, t);
    var n: nat := MinFlying(t.rep) - 1;
    assert n + margin >= |t.leader| && Holds(t.peer, t.leader, n);
  }

  /** One mismatch after another: each starts over from a probe the peer has refused. */
  predicate Mismatches(rs: seq<Rep>, lasts: seq<nat>) {
    && |rs| == |lasts| + 1 && (forall i :: 0 <= i < |rs| ==> Window(rs[i]))
    && forall i, j :: 0 <= i < |lasts| && j == i + 1 ==> rs[j] == SendEmpty(Lowered(ResetNextIndex(rs[i]), lasts[i]))
  }

  /** Probing ends: after as many mismatches as the next index was high, the probe is at the very first entry ... */
  lemma {:induction false} ProbingEnds(rs: seq<Rep>, lasts: seq<nat>)
    requires Mismatches(rs, lasts)
    ensures rs[|lasts|].next == 1 || rs[|lasts|].next + |lasts| <= rs[0].next
    decreases |lasts|
  {
    if lasts != [] {
      var n := |lasts| - 1;
      ProbingEnds(rs[..n + 1], lasts[..n]);
      MismatchLowers(rs[n], lasts[n]);
    }
  }

  /** ... and that probe every peer accepts. */
  lemma FirstProbeMatches(leader: Log, peer: Log, f: Flying)
    requires f.logIndex == 1
    ensures Taken(peer, RequestOf(leader, f)).Some?
  {
  }
}
