/** A run that delivers something, so that what is proved about runs is not about nothing. */
module RaftExample {
  import opened Quorum
  import opened LogTypes
  import opened BallotSpec
  import opened RaftNode
  import opened RaftHistory
  import opened RaftInvariant
  import opened RaftProtocol

  const ME: PeerId := 7
  const ALONE := Conf({ME}, {})

  ghost function After(s: State, a: Action): State
    requires ME in s.nodes && Enabled(ME, s.nodes[ME], a, s.hist, s.msgs, ALONE)
  {
    var e := Apply(ME, s.nodes[ME], a, s.hist, s.msgs, ALONE);
    State(s.nodes[ME := e.node], s.msgs + e.sent, e.hist)
  }

  lemma Extend(r: seq<State>, a: Action) returns (q: seq<State>)
    requires Run(r, ALONE) && ME in r[|r| - 1].nodes
    requires Enabled(ME, r[|r| - 1].nodes[ME], a, r[|r| - 1].hist, r[|r| - 1].msgs, ALONE)
    ensures Run(q, ALONE) && q == r + [After(r[|r| - 1], a)]
  {
    var s := r[|r| - 1];
    var t := After(s, a);
    assert Step(s, t, ME, a, ALONE);
    assert SomeStep(s, t, ALONE);
    q := r + [t];
  }

  const FIRST := Entry(1, ConfChange(ALONE))

  predicate At(r: seq<State>, n: Node) {
    r != [] && ME in r[|r| - 1].nodes && r[|r| - 1].nodes[ME] == n && r[|r| - 1].hist.delivered == {}
  }

  function Elected(votes: set<PeerId>): Node {
    Node(1, Some(ME), [], Candidate, None, votes, [], [], [], Box(0, [], 0), 0)
  }

  function Leading(disk: Log, queue: seq<Write>, ready: seq<Stable>, box: Box): Node {
    Node(1, Some(ME), disk, Leader, Some(ME), {}, [FIRST], queue, ready, box, 0)
  }

  lemma ReachElected() returns (r: seq<State>)
    ensures Run(r, ALONE) && At(r, Elected({ME}))
  {
    var s := State(map[ME := FreshNode()], {}, History(map[], map[], map[], {}, map[ME := {[]}], {}));
    assert Init(s);
    r := [s];
    hide Run, Init, Granted;
    r := Extend(r, Elect(LogId(0, 0)));
    assert At(r, Elected({}));
    r := Extend(r, GrantSelf);
    assert Elected({}).votes + {ME} == {ME};
  }

  lemma FirstEntry()
    ensures BecomeLeader(ME, Elected({ME}), ALONE)
      == Leading([], [Write([FIRST], Some(LeaderStable(1, 1)))], [], Box(1, [BallotView(ALONE, {})], 0))
  {
    assert Entries(1, [ConfChange(ALONE)]) == [FIRST];
    assert FreshBallots(1, ALONE) == [BallotView(ALONE, {})];
    assert [] + [FIRST] == [FIRST] && [] + [BallotView(ALONE, {})] == [BallotView(ALONE, {})];
    assert [] + [Write([FIRST], Some(LeaderStable(1, 1)))] == [Write([FIRST], Some(LeaderStable(1, 1)))];
  }

  lemma ReachLeading() returns (r: seq<State>)
    ensures Run(r, ALONE)
    ensures At(r, Leading([], [Write([FIRST], Some(LeaderStable(1, 1)))], [], Box(1, [BallotView(ALONE, {})], 0)))
  {
    r := ReachElected();
    assert {ME} * ALONE.peers == {ME};
    FirstEntry();
    hide Run, BecomeLeader;
    r := Extend(r, Lead);
  }

  lemma ReachStable() returns (r: seq<State>)
    ensures Run(r, ALONE)
    ensures At(r, Leading([FIRST], [], [LeaderStable(1, 1)], Box(1, [BallotView(ALONE, {})], 0)))
  {
    r := ReachLeading();
    hide Run;
    r := Extend(r, DiskTask);
  }

  lemma SelfCommit()
    ensures CommitAt(Box(1, [BallotView(ALONE, {})], 0), 1, 1, ME).0 == Box(2, [], 1)
  {
    var b := Mark(Box(1, [BallotView(ALONE, {})], 0), 0, 1, ME);
    var one := BallotView(ALONE, {});
    assert Grant(one, ME).votes == {ME};
    assert |b.ballots| == 1 && b.ballots[0] == Grant(one, ME);
    assert {ME} * ALONE.peers == {ME};
    assert b.ballots[0].IsGranted();
    assert b.ballots[1..] == [];
  }

  lemma ReachCommitted() returns (r: seq<State>)
    ensures Run(r, ALONE)
    ensures At(r, Leading([FIRST], [], [], Box(2, [], 1)))
  {
    r := ReachStable();
    SelfCommit();
    hide Run, CommitAt;
    r := Extend(r, RunClosure(0));
  }

  /** A node alone elects itself, writes its first entry, commits and delivers it. */
  lemma SomethingIsDelivered() returns (r: seq<State>)
    ensures Run(r, ALONE) && r[|r| - 1].hist.delivered == {Delivery(ME, 1, FIRST)}
  {
    r := ReachCommitted();
    hide Run;
    r := Extend(r, Deliver);
  }
}
