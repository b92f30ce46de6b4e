/**
 The vote handler as the source has it, without the atomicity assumed elsewhere: it reads the last log id, lets other
 handlers run, and then rechecks the term only. When that does no harm, and a run of three nodes in which it does.
 */
module RaftStale {
  import opened Quorum
  import opened LogTypes
  import opened BallotSpec
  import opened RaftNode
  import opened RaftHistory
  import opened RaftInvariant
  import opened RaftProtocol
  import RaftActions
  import RaftSafety

  const A: PeerId := 1
  const B: PeerId := 2
  const C: PeerId := 3
  const THREE := Conf({A, B, C}, {})

  /** The vote of `id` that ends in `t` was judged by what the handler had read in state `j`, in the same term. */
  ghost predicate LateVote(r: seq<State>, j: nat, id: PeerId, req: VoteRequest, last: LogId, votable: bool, t: State) {
    && j < |r| && id in r[j].nodes && id in r[|r| - 1].nodes
    && var then_, s := r[j].nodes[id], r[|r| - 1];
       && VoteReq(req) in r[j].msgs && Flushed(then_) && LastIdRead(id, then_, last, r[j].hist)
       && then_.term == s.nodes[id].term
       && Moves(s, t, id, VoteEffect(id, s.nodes[id], req, last, votable, s.hist))
  }

  ghost predicate LooseStep(r: seq<State>, t: State, c: Conf) {
    r != [] && (SomeStep(r[|r| - 1], t, c) || exists j, id, req, last, votable :: LateVote(r, j, id, req, last, votable, t))
  }

  ghost predicate LooseRun(r: seq<State>, c: Conf)
    decreases |r|
  {
    r != [] && if |r| == 1 then Init(r[0]) else LooseRun(r[..|r| - 1], c) && LooseStep(r[..|r| - 1], r[|r| - 1], c)
  }

  function Last(r: seq<State>): State
    requires r != []
  {
    r[|r| - 1]
  }

  // ----- when the race does no harm

  /** If the vote is given away, nothing waits for the disk and the candidate is at least as up to date as the disk is now. */
  predicate StillRight(n: Node, req: VoteRequest, last: LogId, votable: bool) {
    Casts(n, req, last, votable) ==> n.queue == [] && IdAtMost(LastId(n.disk), req.last)
  }

  /** Exactly then a handler that reads the id at once could have answered the same. */
  lemma LateIsVoteIff(s: State, t: State, id: PeerId, req: VoteRequest, last: LogId, votable: bool, c: Conf)
    requires id in s.nodes && id in s.hist.disks && s.nodes[id].disk in s.hist.disks[id] && VoteReq(req) in s.msgs
    requires Moves(s, t, id, VoteEffect(id, s.nodes[id], req, last, votable, s.hist))
    ensures (exists cur :: Step(s, t, id, Vote(req, cur, votable), c)) <==> StillRight(s.nodes[id], req, last, votable)
  {
    var n := s.nodes[id];
    if cur :| Step(s, t, id, Vote(req, cur, votable), c) {
      SameVote(n, req, last, cur, votable);
      assert t.nodes[id] == HandleVote(n, req, last, votable) == HandleVote(n, req, cur, votable);
      if Casts(n, req, last, votable) { RaftActions.IdAtMostTrans(LastId(n.disk), cur, req.last); }
    }
    if StillRight(n, req, last, votable) {
      var cur := if Casts(n, req, last, votable) then LastId(n.disk) else last;
      SameVote(n, req, last, cur, votable);
      IdAtMostRefl(LastId(n.disk));
      assert Step(s, t, id, Vote(req, cur, votable), c);
    }
  }

  lemma IdAtMostRefl(a: LogId)
    ensures IdAtMost(a, a)
  {
  }

  lemma SameVote(n: Node, req: VoteRequest, a: LogId, b: LogId, votable: bool)
    ensures HandleVote(n, req, a, votable) == HandleVote(n, req, b, votable) <==> (Casts(n, req, a, votable) <==> Casts(n, req, b, votable))
  {
    RaftActions.VoteCases(n, req, a, votable);
    RaftActions.VoteCases(n, req, b, votable);
  }

  /** Steps of the protocol, and late votes that do no harm; a request in hand is not dropped before it is answered. */
  ghost predicate CarefulStep(r: seq<State>, t: State, c: Conf) {
    r != [] && (SomeStep(r[|r| - 1], t, c) || exists j, id, req, last, votable :: Careful(r, j, id, req, last, votable, t))
  }

  ghost predicate Careful(r: seq<State>, j: nat, id: PeerId, req: VoteRequest, last: LogId, votable: bool, t: State) {
    && LateVote(r, j, id, req, last, votable, t) && VoteReq(req) in r[|r| - 1].msgs
    && StillRight(r[|r| - 1].nodes[id], req, last, votable)
  }

  ghost predicate CarefulRun(r: seq<State>, c: Conf)
    decreases |r|
  {
    r != [] && if |r| == 1 then Init(r[0]) else CarefulRun(r[..|r| - 1], c) && CarefulStep(r[..|r| - 1], r[|r| - 1], c)
  }

  /** Such a run is one of the protocol, so all that is proved of those holds of it. */
  lemma {:induction false} CarefulIsRun(r: seq<State>, c: Conf)
    requires CarefulRun(r, c)
    ensures Run(r, c)
    decreases |r|
  {
    if |r| > 1 {
      var p, t := r[..|r| - 1], r[|r| - 1];
      CarefulIsRun(p, c);
      CarefulIsStep(p, t, c);
      forall i | 0 < i < |r| ensures SomeStep(r[i - 1], r[i], c) {
        if i < |p| { assert p[i - 1] == r[i - 1] && p[i] == r[i]; }
      }
    }
  }

  lemma CarefulIsStep(p: seq<State>, t: State, c: Conf)
    requires Run(p, c) && CarefulStep(p, t, c)
    ensures SomeStep(p[|p| - 1], t, c)
  {
    var s := p[|p| - 1];
    if !SomeStep(s, t, c) {
      hide Run, Step, LateVote, StillRight;
      var j, id, req, last, votable :| Careful(p, j, id, req, last, votable, t);
      LateFactsOf(p, j, id, req, last, votable, t);
      DiskKnown(p, id, c);
      LateIsVoteIff(s, t, id, req, last, votable, c);
    }
  }

  lemma LateFactsOf(r: seq<State>, j: nat, id: PeerId, req: VoteRequest, last: LogId, votable: bool, t: State)
    requires LateVote(r, j, id, req, last, votable, t)
    ensures r != [] && id in r[|r| - 1].nodes
    ensures var s := r[|r| - 1]; Moves(s, t, id, VoteEffect(id, s.nodes[id], req, last, votable, s.hist))
  {
  }

  lemma DiskKnown(r: seq<State>, id: PeerId, c: Conf)
    requires Run(r, c) && id in r[|r| - 1].nodes
    ensures var s := r[|r| - 1]; id in s.hist.disks && s.nodes[id].disk in s.hist.disks[id]
  {
    RaftSafety.NodeAt(r, |r| - 1, id, c);
  }

  /** Every node once had an empty disk. */
  predicate Disks(h: History) { forall p :: p in {A, B, C} ==> p in h.disks && [] in h.disks[p] }

  ghost predicate At(r: seq<State>, a: Node, b: Node, c: Node, m: set<Msg>, d: set<Delivery>) {
    && r != [] && LooseRun(r, THREE)
    && var s := Last(r); s.nodes == map[A := a, B := b, C := c] && m <= s.msgs && Disks(s.hist) && d <= s.hist.delivered
  }

  ghost function After(s: State, id: PeerId, a: Action): State
    requires id in s.nodes && Enabled(id, s.nodes[id], a, s.hist, s.msgs, THREE)
  {
    var e := Apply(id, s.nodes[id], a, s.hist, s.msgs, THREE);
    State(s.nodes[id := e.node], s.msgs + e.sent, e.hist)
  }

  lemma RecordKept(id: PeerId, n: Node, a: Action, h: History, msgs: set<Msg>)
    requires Enabled(id, n, a, h, msgs, THREE) && Disks(h)
    ensures Disks(Apply(id, n, a, h, msgs, THREE).hist)
    ensures h.delivered <= Apply(id, n, a, h, msgs, THREE).hist.delivered
  {
    hide HandleVote, HandleAppend, RunStable, HandleVoteReply, HandleAppendReply, BecomeLeader, LeaderAppend, StepDown;
  }

  lemma Act(r: seq<State>, id: PeerId, a: Action) returns (q: seq<State>)
    requires LooseRun(r, THREE) && id in Last(r).nodes && Disks(Last(r).hist)
    requires Enabled(id, Last(r).nodes[id], a, Last(r).hist, Last(r).msgs, THREE)
    ensures LooseRun(q, THREE) && r <= q && q != [] && Last(q) == After(Last(r), id, a)
    ensures Disks(Last(q).hist) && Last(r).hist.delivered <= Last(q).hist.delivered
  {
    var s, t := Last(r), After(Last(r), id, a);
    RecordKept(id, s.nodes[id], a, s.hist, s.msgs);
    hide Enabled, Apply, Disks;
    assert Step(s, t, id, a, THREE);
    assert SomeStep(s, t, THREE);
    q := r + [t];
    assert q[..|q| - 1] == r;
    assert LooseStep(r, t, THREE);
  }

  const E1 := Entry(1, ConfChange(THREE))
  const E2 := Entry(2, ConfChange(THREE))

  function Plain(term: nat, voted: Option<PeerId>, disk: Log, role: Role, lead: Option<PeerId>, votes: set<PeerId>,
                 log: Log, queue: seq<Write>, ready: seq<Stable>, box: Box): Node
  {
    Node(term, voted, disk, role, lead, votes, log, queue, ready, box, 0)
  }

  const IDLE := Box(0, [], 0)
  const FRESH := Plain(0, None, [], Follower, None, {}, [], [], [], IDLE)

  function Candidate1(id: PeerId, term: nat, votes: set<PeerId>): Node {
    Plain(term, Some(id), [], Candidate, None, votes, [], [], [], IDLE)
  }

  /** A leader of `term` whose one entry is on the way to its disk. */
  function Leading(id: PeerId, term: nat, e: Entry, votes: set<PeerId>): Node {
    Plain(term, Some(id), [], Leader, Some(id), {}, [e], [Write([e], Some(LeaderStable(1, 1)))], [], Box(1, [BallotView(THREE, votes)], 0))
  }

  function Stored(id: PeerId, term: nat, e: Entry, votes: set<PeerId>): Node {
    Plain(term, Some(id), [e], Leader, Some(id), {}, [e], [], [LeaderStable(1, 1)], Box(1, [BallotView(THREE, votes)], 0))
  }

  function Committed(id: PeerId, term: nat, e: Entry): Node {
    Plain(term, Some(id), [e], Leader, Some(id), {}, [e], [], [], Box(2, [], 1))
  }

  /** A node that has voted for `cand` and done nothing else. */
  function Voted(cand: PeerId, term: nat, log: Log): Node {
    Plain(term, Some(cand), log, Follower, None, {}, log, [], [], IDLE)
  }

  const ASK1 := VoteRequest(A, 1, LogId(0, 0))
  const ASK2 := VoteRequest(C, 2, LogId(0, 0))
  const YES1 := VoteReply(B, A, 1, 1, true)
  const YES2 := VoteReply(B, C, 2, 2, true)

  function Pick(id: PeerId, a: Node, b: Node, c: Node): Node { if id == A then a else if id == B then b else c }

  /** One step of one node, seen from outside: its new state, what it has sent, what has been delivered. */
  lemma Go(r: seq<State>, a: Node, b: Node, c: Node, m: set<Msg>, d: set<Delivery>,
           id: PeerId, act: Action, n: Node, sent: set<Msg>, d': set<Delivery>) returns (q: seq<State>)
    requires At(r, a, b, c, m, d) && id in {A, B, C}
    requires Enabled(id, Pick(id, a, b, c), act, Last(r).hist, Last(r).msgs, THREE)
    requires var e := Apply(id, Pick(id, a, b, c), act, Last(r).hist, Last(r).msgs, THREE);
      e.node == n && sent <= e.sent && d' <= e.hist.delivered
    ensures r <= q && q != []
    ensures At(q, if id == A then n else a, if id == B then n else b, if id == C then n else c, sent, d')
  {
    hide Apply, Enabled, LooseRun, Disks;
    Trio(a, b, c, id, n);
    q := Act(r, id, act);
    AfterIs(Last(r), id, act);
    hide After;
  }

  lemma GoDisk(r: seq<State>, a: Node, b: Node, c: Node, d: set<Delivery>, id: PeerId, n: Node) returns (q: seq<State>)
    requires At(r, a, b, c, {}, d) && id in {A, B, C}
    requires Pick(id, a, b, c).queue != [] && DiskStep(Pick(id, a, b, c)) == n
    ensures r <= q && At(q, if id == A then n else a, if id == B then n else b, if id == C then n else c, {}, d)
  {
    AtFacts(r, a, b, c, {}, d);
    hide LooseRun, Disks, At, DiskStep, Pick;
    q := Go(r, a, b, c, {}, d, id, DiskTask, n, {}, d);
  }

  lemma GoClosure(r: seq<State>, a: Node, b: Node, c: Node, d: set<Delivery>, id: PeerId, n: Node, reply: Option<AppendReply>)
      returns (q: seq<State>)
    requires At(r, a, b, c, {}, d) && id in {A, B, C}
    requires |Pick(id, a, b, c).ready| > 0 && RunStable(id, Pick(id, a, b, c), 0) == (n, reply)
    ensures r <= q && At(q, if id == A then n else a, if id == B then n else b, if id == C then n else c,
                         if reply.Some? then {AppendRep(reply.value)} else {}, d)
  {
    AtFacts(r, a, b, c, {}, d);
    hide LooseRun, Disks, At, RunStable, Pick;
    q := Go(r, a, b, c, {}, d, id, RunClosure(0), n, if reply.Some? then {AppendRep(reply.value)} else {}, d);
  }

  lemma GoReceive(r: seq<State>, a: Node, b: Node, c: Node, d: set<Delivery>, req: AppendRequest, n: Node) returns (q: seq<State>)
    requires At(r, a, b, c, {AppendReq(req)}, d) && req.src != B && ReceiveAppend(B, b, req, 0) == Handled(n, None)
    ensures r <= q && At(q, a, n, c, {}, d)
  {
    AtFacts(r, a, b, c, {AppendReq(req)}, d);
    hide LooseRun, Disks, At, ReceiveAppend;
    q := Go(r, a, b, c, {AppendReq(req)}, d, B, Receive(req, 0), n, {}, d);
  }

  lemma GoReply(r: seq<State>, a: Node, b: Node, c: Node, m: set<Msg>, d: set<Delivery>, id: PeerId, reply: AppendReply, n: Node)
      returns (q: seq<State>)
    requires At(r, a, b, c, m, d) && id in {A, B, C} && AppendRep(reply) in m && HandleAppendReply(Pick(id, a, b, c), reply, 1) == n
    ensures r <= q && At(q, if id == A then n else a, if id == B then n else b, if id == C then n else c, {}, d)
  {
    AtFacts(r, a, b, c, m, d);
    hide LooseRun, Disks, At, HandleAppendReply, Pick;
    q := Go(r, a, b, c, m, d, id, TakeReply(reply, 1), n, {}, d);
  }

  lemma Fewer(r: seq<State>, a: Node, b: Node, c: Node, m: set<Msg>, d: set<Delivery>, m': set<Msg>)
    requires At(r, a, b, c, m, d) && m' <= m
    ensures At(r, a, b, c, m', d)
  {
  }

  lemma Trio(a: Node, b: Node, c: Node, id: PeerId, n: Node)
    requires id in {A, B, C}
    ensures id in map[A := a, B := b, C := c] && map[A := a, B := b, C := c][id] == Pick(id, a, b, c)
    ensures map[A := a, B := b, C := c][id := n]
         == map[A := if id == A then n else a, B := if id == B then n else b, C := if id == C then n else c]
  {
  }

  lemma AfterIs(s: State, id: PeerId, a: Action)
    requires id in s.nodes && Enabled(id, s.nodes[id], a, s.hist, s.msgs, THREE)
    ensures var e, t := Apply(id, s.nodes[id], a, s.hist, s.msgs, THREE), After(s, id, a);
      t.nodes == s.nodes[id := e.node] && e.sent <= t.msgs && t.hist == e.hist
  {
    hide Apply, Enabled;
  }

  /** What is known of the last state without looking into it. */
  lemma AtFacts(r: seq<State>, a: Node, b: Node, c: Node, m: set<Msg>, d: set<Delivery>)
    requires At(r, a, b, c, m, d)
    ensures r != [] && LooseRun(r, THREE) && m <= Last(r).msgs && Disks(Last(r).hist) && d <= Last(r).hist.delivered
  {
  }

  lemma Begin() returns (r: seq<State>)
    ensures At(r, FRESH, FRESH, FRESH, {}, {})
  {
    var s := State(map[A := FRESH, B := FRESH, C := FRESH], {}, History(map[], map[], map[], {}, map[A := {[]}, B := {[]}, C := {[]}], {}));
    assert Init(s);
    r := [s];
  }

  lemma Reads(id: PeerId, n: Node, h: History)
    requires id in {A, B, C} && Disks(h) && n.queue == [] && n.disk == []
    ensures LastIdRead(id, n, LogId(0, 0), h)
  {
    assert [] in h.disks[id] && LastId([]) == LogId(0, 0);
  }

  lemma Elects(r: seq<State>, a: Node, b: Node, c: Node, m: set<Msg>, id: PeerId, term: nat) returns (q: seq<State>)
    requires At(r, a, b, c, m, {}) && id in {A, C} && Pick(id, a, b, c) == Idle(id, term)
    ensures var n := Candidate1(id, term + 1, {});
      At(q, if id == A then n else a, b, if id == C then n else c, {VoteReq(VoteRequest(id, term + 1, LogId(0, 0)))}, {})
  {
    var n := Idle(id, term);
    AtFacts(r, a, b, c, m, {});
    hide At, LooseRun, Disks;
    Reads(id, n, Last(r).hist);
    assert ElectSelf(id, n) == Candidate1(id, term + 1, {});
    q := Go(r, a, b, c, m, {}, id, Elect(LogId(0, 0)), Candidate1(id, term + 1, {}), {VoteReq(VoteRequest(id, term + 1, LogId(0, 0)))}, {});
  }

  /** Before its first election, or a candidate without votes. */
  function Idle(id: PeerId, term: nat): Node { if term == 0 then FRESH else Candidate1(id, term, {}) }

  /** B votes for A in term 1. */
  lemma FirstVote() returns (r: seq<State>)
    ensures At(r, Candidate1(A, 1, {}), Voted(A, 1, []), FRESH, {VoteRep(YES1)}, {})
  {
    r := Begin();
    hide LooseRun, Disks, At;
    r := Elects(r, FRESH, FRESH, FRESH, {}, A, 0);
    AtFacts(r, Candidate1(A, 1, {}), FRESH, FRESH, {VoteReq(ASK1)}, {});
    Reads(B, FRESH, Last(r).hist);
    assert HandleVote(FRESH, ASK1, LogId(0, 0), true) == Voted(A, 1, []);
    r := Go(r, Candidate1(A, 1, {}), FRESH, FRESH, {VoteReq(ASK1)}, {}, B, Vote(ASK1, LogId(0, 0), true), Voted(A, 1, []), {VoteRep(YES1)}, {});
  }

  // ----- votes of one peer and then the leader itself

  lemma OneVote(id: PeerId)
    requires id in {A, C}
    ensures CommitAt(Box(1, [BallotView(THREE, {})], 0), 1, 1, B).0 == Box(1, [BallotView(THREE, {B})], 0)
  {
    var b := Mark(Box(1, [BallotView(THREE, {})], 0), 0, 1, B);
    assert Grant(BallotView(THREE, {}), B).votes == {B};
    assert b.ballots == [BallotView(THREE, {B})];
    assert {B} * THREE.peers == {B};
    assert !b.ballots[0].IsGranted();
    assert LastGranted(b.ballots, 0, 1) == 0;
  }

  lemma TwoGrant(id: PeerId)
    requires id in {A, C}
    ensures Granted({B, id}, THREE)
  {
    assert {B, id} * THREE.peers == {B, id};
    assert THREE.peers == {A, B, C} && |THREE.peers| == 3;
  }

  lemma TwoVotes(id: PeerId)
    requires id in {A, C}
    ensures CommitAt(Box(1, [BallotView(THREE, {B})], 0), 1, 1, id).0 == Box(2, [], 1)
  {
    var b := Mark(Box(1, [BallotView(THREE, {B})], 0), 0, 1, id);
    assert Grant(BallotView(THREE, {B}), id).votes == {B, id};
    assert b.ballots == [BallotView(THREE, {B, id})];
    TwoGrant(id);
    assert b.ballots[0].IsGranted();
    assert b.ballots[1..] == [];
  }

  lemma NewEntry(id: PeerId, term: nat, e: Entry)
    requires id in {A, C} && e == Entry(term, ConfChange(THREE))
    ensures BecomeLeader(id, Candidate1(id, term, {B, id}), THREE) == Leading(id, term, e, {})
  {
    assert Entries(term, [ConfChange(THREE)]) == [e];
    assert FreshBallots(1, THREE) == [BallotView(THREE, {})];
    assert [] + [e] == [e] && [] + [BallotView(THREE, {})] == [BallotView(THREE, {})];
    assert [] + [Write([e], Some(LeaderStable(1, 1)))] == [Write([e], Some(LeaderStable(1, 1)))];
  }

  /** A candidate that has B's vote counts it and its own. */
  lemma Counts(r0: seq<State>, a: Node, b: Node, c: Node, m: set<Msg>, d: set<Delivery>, id: PeerId, term: nat) returns (r: seq<State>)
    requires At(r0, a, b, c, m, d) && id in {A, C} && Pick(id, a, b, c) == Candidate1(id, term, {})
    requires VoteRep(VoteReply(B, id, term, term, true)) in m
    ensures var n := Candidate1(id, term, {B, id});
      r0 <= r && At(r, if id == A then n else a, b, if id == C then n else c, {}, d)
  {
    var one, two := Candidate1(id, term, {B}), Candidate1(id, term, {B, id});
    AtFacts(r0, a, b, c, m, d);
    hide LooseRun, Disks, At;
    assert {} + {B} + {} == {B} && {B} + {id} == {B, id};
    r := Go(r0, a, b, c, m, d, id, TakeVote(VoteReply(B, id, term, term, true), false), one, {}, d);
    var a1, c1 := if id == A then one else a, if id == C then one else c;
    AtFacts(r, a1, b, c1, {}, d);
    r := Go(r, a1, b, c1, {}, d, id, GrantSelf, two, {}, d);
  }

  /** With these two votes it leads with one entry. */
  lemma Leads(r0: seq<State>, a: Node, b: Node, c: Node, m: set<Msg>, d: set<Delivery>, id: PeerId, term: nat) returns (r: seq<State>)
    requires At(r0, a, b, c, m, d) && id in {A, C} && Pick(id, a, b, c) == Candidate1(id, term, {})
    requires VoteRep(VoteReply(B, id, term, term, true)) in m
    ensures var n := Leading(id, term, Entry(term, ConfChange(THREE)), {});
      r0 <= r && At(r, if id == A then n else a, b, if id == C then n else c, {}, d)
  {
    var two, lead := Candidate1(id, term, {B, id}), Leading(id, term, Entry(term, ConfChange(THREE)), {});
    r := Counts(r0, a, b, c, m, d, id, term);
    var a2, c2 := if id == A then two else a, if id == C then two else c;
    AtFacts(r, a2, b, c2, {}, d);
    TwoGrant(id);
    NewEntry(id, term, Entry(term, ConfChange(THREE)));
    hide LooseRun, Disks, At, Granted, BecomeLeader, Leading;
    r := Go(r, a2, b, c2, {}, d, id, Lead, lead, {}, d);
  }

  /** Here B begins to handle the request of C: its log is still empty. */
  lemma SecondAsk() returns (r: seq<State>)
    ensures At(r, Leading(A, 1, E1, {}), Voted(A, 1, []), Candidate1(C, 2, {}), {VoteReq(ASK2)}, {})
  {
    hide At;
    r := FirstVote();
    r := Leads(r, Candidate1(A, 1, {}), Voted(A, 1, []), FRESH, {VoteRep(YES1)}, {}, A, 1);
    var a, b := Leading(A, 1, E1, {}), Voted(A, 1, []);
    r := Elects(r, a, b, FRESH, {}, C, 0);
    r := Elects(r, a, b, Candidate1(C, 1, {}), {VoteReq(VoteRequest(C, 1, LogId(0, 0)))}, C, 1);
  }

  const PUT1 := AppendRequest(A, 1, 0, 0, [E1], 0)
  const PUT2 := AppendRequest(C, 2, 0, 0, [E2], 0)
  const GOT1 := AppendReply(B, 1, 1, true, 1, true)
  const GOT2 := AppendReply(B, 2, 2, true, 1, true)

  /** B holding a leader's entry, as its disk tasks go on. */
  function Following(term: nat, voted: PeerId, lead: PeerId, disk: Log, log: Log, queue: seq<Write>, ready: seq<Stable>): Node {
    Plain(term, Some(voted), disk, Follower, Some(lead), {}, log, queue, ready, IDLE)
  }

  lemma FirstPut()
    ensures ReceiveAppend(B, Voted(A, 1, []), PUT1, 0)
      == Handled(Following(1, A, A, [], [E1], [Write([E1], Some(FollowerStable(1, 1, 0)))], []), None)
  {
    assert [] + [E1] == [E1];
  }

  lemma Stable(term: nat, voted: PeerId, lead: PeerId, log: Log)
    ensures RunStable(B, Following(term, voted, lead, log, log, [], [FollowerStable(term, 1, 0)]), 0)
      == (Following(term, voted, lead, log, log, [], []), Some(AppendReply(B, term, term, true, 1, true)))
  {
    var n := Following(term, voted, lead, log, log, [], [FollowerStable(term, 1, 0)]);
    assert n.ready[..0] + n.ready[1..] == [];
  }

  lemma StoreFacts(term: nat, id: PeerId, disk: Log, e: Entry)
    ensures var b := Following(term, id, id, disk, [e], [Write([e], Some(FollowerStable(term, 1, 0)))], []);
      var b1 := Following(term, id, id, [e], [e], [], [FollowerStable(term, 1, 0)]);
      && b.queue != [] && DiskStep(b) == b1 && |b1.ready| == 1
  {
    var b := Following(term, id, id, disk, [e], [Write([e], Some(FollowerStable(term, 1, 0)))], []);
    assert b.queue[1..] == [] && [] + [FollowerStable(term, 1, 0)] == [FollowerStable(term, 1, 0)];
  }

  lemma OwnStable(id: PeerId, term: nat, e: Entry)
    requires id in {A, C}
    ensures RunStable(id, Stored(id, term, e, {B}), 0) == (Committed(id, term, e), None)
  {
    TwoVotes(id);
    var n := Stored(id, term, e, {B});
    assert n.ready[..0] + n.ready[1..] == [];
  }

  /** B has queued the entry of the leader `id` as the last of its tasks, writes it and says so. */
  lemma Stores(r0: seq<State>, a: Node, b: Node, c: Node, m: set<Msg>, d: set<Delivery>, term: nat, id: PeerId, disk: Log, e: Entry)
      returns (r: seq<State>)
    requires At(r0, a, b, c, m, d)
    requires b == Following(term, id, id, disk, [e], [Write([e], Some(FollowerStable(term, 1, 0)))], [])
    ensures r0 <= r && At(r, a, Following(term, id, id, [e], [e], [], []), c, {AppendRep(AppendReply(B, term, term, true, 1, true))}, d)
  {
    var b1 := Following(term, id, id, [e], [e], [], [FollowerStable(term, 1, 0)]);
    var b2 := Following(term, id, id, [e], [e], [], []);
    StoreFacts(term, id, disk, e);
    Stable(term, id, id, [e]);
    Fewer(r0, a, b, c, m, d, {});
    hide At, DiskStep, RunStable, Following;
    r := GoDisk(r0, a, b, c, d, B, b1);
    r := GoClosure(r, a, b1, c, d, B, b2, Some(AppendReply(B, term, term, true, 1, true)));
  }

  lemma CommitFacts(id: PeerId, term: nat, e: Entry)
    requires id in {A, C}
    ensures var n1 := Leading(id, term, e, {B});
      && HandleAppendReply(Leading(id, term, e, {}), AppendReply(B, term, term, true, 1, true), 1) == n1
      && n1.queue != [] && DiskStep(n1) == Stored(id, term, e, {B})
  {
    var n1 := Leading(id, term, e, {B});
    hide CommitAt;
    OneVote(id);
    assert n1.queue[1..] == [] && [] + [LeaderStable(1, 1)] == [LeaderStable(1, 1)];
  }

  /** The leader `id` counts B and itself, and delivers its entry. */
  lemma Commits(r0: seq<State>, a: Node, b: Node, c: Node, m: set<Msg>, d: set<Delivery>, id: PeerId, term: nat, e: Entry) returns (r: seq<State>)
    requires At(r0, a, b, c, m, d) && id in {A, C} && Pick(id, a, b, c) == Leading(id, term, e, {})
    requires AppendRep(AppendReply(B, term, term, true, 1, true)) in m
    ensures var n := Committed(id, term, e).(applied := 1);
      r0 <= r && At(r, if id == A then n else a, b, if id == C then n else c, {}, d + {Delivery(id, 1, e)})
  {
    var n1, n2 := Leading(id, term, e, {B}), Stored(id, term, e, {B});
    CommitFacts(id, term, e);
    hide At, HandleAppendReply, DiskStep, Leading, Stored;
    r := GoReply(r0, a, b, c, m, d, id, AppendReply(B, term, term, true, 1, true), n1);
    var a1, c1 := if id == A then n1 else a, if id == C then n1 else c;
    r := GoDisk(r, a1, b, c1, d, id, n2);
    r := Delivers(r, if id == A then n2 else a, b, if id == C then n2 else c, d, id, term, e);
  }

  lemma Delivers(r0: seq<State>, a: Node, b: Node, c: Node, d: set<Delivery>, id: PeerId, term: nat, e: Entry) returns (r: seq<State>)
    requires At(r0, a, b, c, {}, d) && id in {A, C} && Pick(id, a, b, c) == Stored(id, term, e, {B})
    ensures var n := Committed(id, term, e).(applied := 1);
      r0 <= r && At(r, if id == A then n else a, b, if id == C then n else c, {}, d + {Delivery(id, 1, e)})
  {
    var n1 := Committed(id, term, e);
    OwnStable(id, term, e);
    hide At, RunStable, Committed;
    r := GoClosure(r0, a, b, c, d, id, n1, None);
    r := Hands(r, if id == A then n1 else a, b, if id == C then n1 else c, d, id, term, e);
  }

  lemma Hands(r0: seq<State>, a: Node, b: Node, c: Node, d: set<Delivery>, id: PeerId, term: nat, e: Entry) returns (r: seq<State>)
    requires At(r0, a, b, c, {}, d) && id in {A, C} && Pick(id, a, b, c) == Committed(id, term, e)
    ensures var n := Committed(id, term, e).(applied := 1);
      r0 <= r && At(r, if id == A then n else a, b, if id == C then n else c, {}, d + {Delivery(id, 1, e)})
  {
    AtFacts(r0, a, b, c, {}, d);
    hide LooseRun, Disks, At;
    r := Go(r0, a, b, c, {}, d, id, Deliver, Committed(id, term, e).(applied := 1), {}, d + {Delivery(id, 1, e)});
  }

  /** A has its entry stored at B, commits and delivers it. */
  lemma FirstCommit(r0: seq<State>) returns (r: seq<State>)
    requires At(r0, Leading(A, 1, E1, {}), Voted(A, 1, []), Candidate1(C, 2, {}), {VoteReq(ASK2)}, {})
    ensures r0 <= r && At(r, Committed(A, 1, E1).(applied := 1), Following(1, A, A, [E1], [E1], [], []), Candidate1(C, 2, {}), {},
                          {Delivery(A, 1, E1)})
  {
    var a, b, c := Leading(A, 1, E1, {}), Voted(A, 1, []), Candidate1(C, 2, {});
    var b1, b2 := Following(1, A, A, [], [E1], [Write([E1], Some(FollowerStable(1, 1, 0)))], []), Following(1, A, A, [E1], [E1], [], []);
    AtFacts(r0, a, b, c, {VoteReq(ASK2)}, {});
    hide LooseRun, Disks, At, ReceiveAppend;
    assert [E1][0..0 + 1] == [E1];
    r := Go(r0, a, b, c, {VoteReq(ASK2)}, {}, A, Send(0, 1), a, {AppendReq(PUT1)}, {});
    AtFacts(r, a, b, c, {AppendReq(PUT1)}, {});
    FirstPut();
    r := GoReceive(r, a, b, c, {}, PUT1, b1);
    r := Stores(r, a, b1, c, {}, {}, 1, A, [], E1);
    r := Commits(r, a, b2, c, {AppendRep(GOT1)}, {}, A, 1, E1);
    assert {} + {Delivery(A, 1, E1)} == {Delivery(A, 1, E1)};
  }

  /** Now B finishes the vote, by the id it read before. */
  lemma LateStep(r0: seq<State>, r: seq<State>) returns (q: seq<State>)
    requires At(r0, Leading(A, 1, E1, {}), Voted(A, 1, []), Candidate1(C, 2, {}), {VoteReq(ASK2)}, {}) && r0 <= r
    requires At(r, Committed(A, 1, E1).(applied := 1), Following(1, A, A, [E1], [E1], [], []), Candidate1(C, 2, {}), {}, {Delivery(A, 1, E1)})
    ensures At(q, Committed(A, 1, E1).(applied := 1), Voted(C, 2, [E1]), Candidate1(C, 2, {}), {VoteRep(YES2)}, {Delivery(A, 1, E1)})
  {
    var s, j := Last(r), |r0| - 1;
    LateFacts();
    Reads(B, Voted(A, 1, []), Last(r0).hist);
    var now, then_, n' := Following(1, A, A, [E1], [E1], [], []), Voted(A, 1, []), Voted(C, 2, [E1]);
    var k := WithVote(s.hist, B, 2, C, now.disk);
    var t := State(s.nodes[B := n'], s.msgs + {VoteRep(YES2)}, k);
    assert r[j] == Last(r0) && s.nodes[B] == now && r[j].nodes[B] == then_;
    Trio(Committed(A, 1, E1).(applied := 1), now, Candidate1(C, 2, {}), B, n');
    assert Disks(k) && k.delivered == s.hist.delivered;
    hide LooseRun, Disks, VoteEffect, LastIdRead;
    assert VoteEffect(B, now, ASK2, LogId(0, 0), true, s.hist) == Effect(n', {VoteRep(YES2)}, k) by { LateEffect(s.hist); }
    assert LateVote(r, j, B, ASK2, LogId(0, 0), true, t);
    hide LateVote;
    q := r + [t];
    assert LooseStep(r, t, THREE);
    LooseMore(r, t, q);
  }

  lemma LateFacts()
    ensures Flushed(Voted(A, 1, []))
  {
  }

  lemma LateEffect(h: History)
    ensures var now := Following(1, A, A, [E1], [E1], [], []);
      VoteEffect(B, now, ASK2, LogId(0, 0), true, h) == Effect(Voted(C, 2, [E1]), {VoteRep(YES2)}, WithVote(h, B, 2, C, [E1]))
  {
  }

  lemma LooseMore(r: seq<State>, t: State, q: seq<State>)
    requires LooseRun(r, THREE) && LooseStep(r, t, THREE) && q == r + [t]
    ensures LooseRun(q, THREE)
  {
    assert q[..|q| - 1] == r;
  }

  lemma SecondPut()
    ensures ReceiveAppend(B, Voted(C, 2, [E1]), PUT2, 0)
      == Handled(Following(2, C, C, [E1], [E2], [Write([], None), Write([E2], Some(FollowerStable(2, 1, 0)))], []), None)
  {
    assert RaftNode.MatchCount([E1], 0, [E2]) == 0;
    assert [E1][..0] + [E2][0..] == [E2] && [E1][..0] == [];
  }

  /** C leads term 2, has B replace the entry of A, commits its own and delivers it. */
  lemma SecondCommit(r0: seq<State>) returns (r: seq<State>)
    requires At(r0, Committed(A, 1, E1).(applied := 1), Voted(C, 2, [E1]), Candidate1(C, 2, {}), {VoteRep(YES2)}, {Delivery(A, 1, E1)})
    ensures At(r, Committed(A, 1, E1).(applied := 1), Following(2, C, C, [E2], [E2], [], []), Committed(C, 2, E2).(applied := 1), {},
               {Delivery(A, 1, E1), Delivery(C, 1, E2)})
  {
    var a, b, c, d := Committed(A, 1, E1).(applied := 1), Voted(C, 2, [E1]), Leading(C, 2, E2, {}), {Delivery(A, 1, E1)};
    hide LooseRun, Disks, At, ReceiveAppend;
    r := Leads(r0, a, b, Candidate1(C, 2, {}), {VoteRep(YES2)}, d, C, 2);
    AtFacts(r, a, b, c, {}, d);
    assert [E2][0..0 + 1] == [E2];
    r := Go(r, a, b, c, {}, d, C, Send(0, 1), c, {AppendReq(PUT2)}, d);
    r := SecondStores(r);
    r := Commits(r, a, Following(2, C, C, [E2], [E2], [], []), c, {AppendRep(GOT2)}, d, C, 2, E2);
    assert d + {Delivery(C, 1, E2)} == {Delivery(A, 1, E1), Delivery(C, 1, E2)};
  }

  lemma SecondStores(r0: seq<State>) returns (r: seq<State>)
    requires At(r0, Committed(A, 1, E1).(applied := 1), Voted(C, 2, [E1]), Leading(C, 2, E2, {}), {AppendReq(PUT2)}, {Delivery(A, 1, E1)})
    ensures At(r, Committed(A, 1, E1).(applied := 1), Following(2, C, C, [E2], [E2], [], []), Leading(C, 2, E2, {}), {AppendRep(GOT2)},
               {Delivery(A, 1, E1)})
  {
    var a, b, c, d := Committed(A, 1, E1).(applied := 1), Voted(C, 2, [E1]), Leading(C, 2, E2, {}), {Delivery(A, 1, E1)};
    var last := Write([E2], Some(FollowerStable(2, 1, 0)));
    var b1, b2 := Following(2, C, C, [E1], [E2], [Write([], None), last], []), Following(2, C, C, [], [E2], [last], []);
    SecondPut();
    assert b1.queue[1..] == [last];
    assert DiskStep(b1) == b2;
    hide At, ReceiveAppend, DiskStep;
    r := GoReceive(r0, a, b, c, d, PUT2, b1);
    r := GoDisk(r, a, b1, c, d, B, b2);
    r := Stores(r, a, b2, c, {}, d, 2, C, [], E2);
  }

  /**
   With the vote handler as it is written, and no lease in the way, two leaders commit different entries at index 1 and
   two state machines are handed both.
   */
  lemma LateVoteSplits() returns (r: seq<State>)
    ensures LooseRun(r, THREE) && r != []
    ensures A in Last(r).nodes && C in Last(r).nodes
    ensures var a, c := Last(r).nodes[A], Last(r).nodes[C];
      a.box.committed == 1 && c.box.committed == 1 && a.log == [E1] && c.log == [E2] && E1 != E2
    ensures Delivery(A, 1, E1) in Last(r).hist.delivered && Delivery(C, 1, E2) in Last(r).hist.delivered
  {
    hide LooseRun;
    var r0 := SecondAsk();
    r := FirstCommit(r0);
    r := LateStep(r0, r);
    r := SecondCommit(r);
  }
}
