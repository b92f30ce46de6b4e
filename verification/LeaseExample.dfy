/** A run in which a lease becomes valid, so that what is proved about valid leases is not about nothing. */
module LeaseExample {
  import opened Quorum
  import opened Leases
  import opened LeaseProtocol
  import R = RaftNode

  const ME: PeerId := 7
  const ALONE := Conf({ME}, {})
  const CLOCK: (PeerId, nat) -> int := (p, i) => 100 + i
  const WORLD := World(ALONE, 5, 1, CLOCK)
  const FRESH := Peer(1, None, R.Follower, None, {}, None, None, 0, 0, map[], {})

  lemma ClocksAreGood()
    ensures GoodClocks(WORLD)
  {
    forall p, i, j ensures Forward(WORLD, p, i, j) { }
    forall p, q, i, j ensures InStep(WORLD, p, q, i, j) { }
  }

  predicate At(r: seq<Group>, n: Peer, now: nat) {
    r != [] && ME in r[|r| - 1].peers && r[|r| - 1].peers[ME] == n && r[|r| - 1].now == now
  }

  lemma Extend(r: seq<Group>, n: Peer, now: nat, a: Action) returns (q: seq<Group>)
    requires Run(r, WORLD) && At(r, n, now) && Enabled(ME, n, a, r[|r| - 1], WORLD)
    ensures Run(q, WORLD) && At(q, Apply(ME, n, a, r[|r| - 1], WORLD).peer, now + 1)
  {
    var g := r[|r| - 1];
    var e := Apply(ME, n, a, g, WORLD);
    var g' := Group(g.peers[ME := e.peer], g.msgs + e.sent, Leaving(e.rec, ME, n, e.peer), now + 1);
    assert Step(g, g', ME, a, WORLD);
    assert SomeStep(g, g', WORLD);
    q := r + [g'];
  }

  /** A node alone elects itself and dates its lease. */
  lemma LeaseBecomesValid() returns (r: seq<Group>)
    ensures GoodClocks(WORLD) && Run(r, WORLD) && r != [] && ME in r[|r| - 1].peers
    ensures LeaseValid(ME, r[|r| - 1].peers[ME], WORLD, r[|r| - 1].now)
  {
    ClocksAreGood();
    var start := Group(map[ME := FRESH], {}, Record(map[], map[], map[], {}, {}), 0);
    assert Init(start);
    r := [start];
    hide Run, GoodClocks;
    r := Extend(r, FRESH, 0, Elect);
    var n1 := ElectSelf(ME, FRESH);
    r := Extend(r, n1, 1, GrantSelf);
    var n2 := n1.(votes := {ME});
    assert n1.votes + {ME} == {ME} && {ME} * ALONE.peers == {ME};
    r := Extend(r, n2, 2, Lead(map[]));
    var n3 := BecomeLeader(ME, n2, map[]);
    assert n3.firstAcks + {ME} == {ME} && ALONE.peers - {ME} == {};
    assert ActiveSince(n3, ME, WORLD, 3, WORLD.clk(ME, 3));
    r := Extend(r, n3, 3, StartLease(WORLD.clk(ME, 3)));
  }
}
