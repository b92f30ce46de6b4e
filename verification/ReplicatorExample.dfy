/** A run in which an entry is replicated: the first probe is refused, the second accepted, the entry sent and stored. */
module ReplicatorExample {
  import opened Quorum
  import opened LogTypes
  import opened RaftNode
  import opened Windows
  import opened Replicators
  import opened ReplicatorRuns

  const ENTRY := Entry(1, Data([5]))
  const PROBE1 := ReplicatorRuns.Request(0, 1, 1, [])
  const PROBE2 := ReplicatorRuns.Request(1, 0, 0, [])
  const PUT := ReplicatorRuns.Request(2, 0, 0, [ENTRY])
  const NO := Reply(PROBE1, Mismatch(1, 0))
  const YES := Reply(PROBE2, Success(1))
  const STORED := Reply(PUT, Success(1))

  const REP0 := Rep(2, 0, [Flying(2, 0, 0)], Appending, false, false, false, 1, false)
  const REP1 := Rep(1, 0, [Flying(1, 0, 1)], Appending, false, true, false, 2, false)
  const REP2 := Rep(2, 1, [Flying(1, 1, 2)], Appending, false, true, false, 3, true)
  const REP3 := Rep(2, 0, [], Idle, true, false, true, 3, true)

  const START := Sys(1, 1, REP0, false, [ENTRY], [], {PROBE1}, {}, {}, 0)
  const REFUSED := START.(rep := REP1, requests := {PROBE1, PROBE2}, replies := {NO})
  const PROBED := REFUSED.(rep := REP2, requests := {PROBE1, PROBE2, PUT}, replies := {NO, YES}, base := 1)
  const DONE := PROBED.(rep := REP3, peer := [ENTRY], replies := {NO, YES, STORED}, acked := {1})

  lemma Starts()
    ensures Init(START)
  {
    assert SendEmpty(Started(1)).inFly == [Flying(2, 0, 0)];
    assert RequestOf([ENTRY], Flying(2, 0, 0)) == PROBE1;
  }

  lemma FirstProbeRefused()
    ensures Enabled(START, Receive(PROBE1)) && Next(START, Receive(PROBE1)) == START.(replies := {NO})
  {
    assert Taken([], PROBE1).None?;
  }

  /** The requests after a step that left only `f` in flight, under the next call id. */
  lemma OneMore(s: Sys, now: Rep, f: Flying)
    requires now.inFly == [f] && f.callId == s.rep.calls && f.logIndex >= 1
    ensures Moved(s, now) == s.(rep := now, requests := s.requests + {RequestOf(s.leader, f)})
  {
  }

  lemma ProbesAgain()
    ensures Window(REP0)
    ensures var s := START.(replies := {NO});
      Enabled(s, Return(NO)) && Next(s, Return(NO)) == REFUSED
  {
    var s := START.(replies := {NO});
    assert ValidRpc(REP0.inFly, 2, 0);
    assert [] + [Flying(1, 0, 1)] == [Flying(1, 0, 1)];
    assert SendEmpty(Lowered(ResetNextIndex(REP0), 0)) == REP1;
    assert Answered(s, NO) == (REP1, Waits);
    OneMore(s, REP1, Flying(1, 0, 1));
    assert RequestOf([ENTRY], Flying(1, 0, 1)) == PROBE2;
  }

  lemma SecondProbeAccepted()
    ensures Window(REP1)
    ensures Enabled(REFUSED, Receive(PROBE2)) && Next(REFUSED, Receive(PROBE2)) == REFUSED.(replies := {NO, YES})
  {
    assert Taken([], PROBE2) == Some([]);
  }

  lemma SendsTheEntry()
    ensures var s := REFUSED.(replies := {NO, YES});
      Enabled(s, Return(YES)) && Next(s, Return(YES)) == PROBED
  {
    var s := REFUSED.(replies := {NO, YES});
    var p := Popped(REP1, 1);
    assert REP1.inFly[1..] == [];
    assert p == Popped(REP1.(inFly := []), 1) == REP1.(inFly := []);
    assert Prepared([ENTRY], 1, 1024, 0) == 1 + Prepared([ENTRY], 2, 1023, 1) == 1;
    assert [] + [Flying(1, 1, 2)] == [Flying(1, 1, 2)];
    assert SendEntries(p.(succeeded := true), 1, 1) == REP2;
    assert ValidRpc(REP1.inFly, 1, 1);
    assert Answered(s, YES) == (REP2, Matched);
    OneMore(s.(base := 1), REP2, Flying(1, 1, 2));
    assert RequestOf([ENTRY], Flying(1, 1, 2)) == PUT;
  }

  lemma EntryStored()
    ensures Window(REP2)
    ensures Enabled(PROBED, Receive(PUT))
    ensures Next(PROBED, Receive(PUT)) == PROBED.(peer := [ENTRY], replies := {NO, YES, STORED})
  {
    assert MatchCount([], 0, [ENTRY]) == 0;
    assert [] + [ENTRY][0..] == [ENTRY];
    assert {NO, YES} + {STORED} == {NO, YES, STORED};
  }

  lemma WindowReleased()
    ensures var s := PROBED.(peer := [ENTRY], replies := {NO, YES, STORED});
      Enabled(s, Return(STORED)) && Next(s, Return(STORED)) == DONE
  {
    var s := PROBED.(peer := [ENTRY], replies := {NO, YES, STORED});
    var p := Popped(REP2, 1);
    assert p == Popped(REP2.(flying := 0, inFly := []), 1) == REP2.(flying := 0, inFly := []);
    assert Prepared([ENTRY], 2, 1024, 0) == 0;
    assert ValidRpc(REP2.inFly, 1, 2);
    assert Span(1, 1) == {1};
    assert Answered(s, STORED) == (REP3, Committed(1, 1));
    assert DONE.requests + {} == DONE.requests;
  }

  lemma OneStep(s: Sys, e: Event, t: Sys, es: seq<Event>, u: Sys)
    requires Window(s.rep) && Enabled(s, e) && Next(s, e) == t && Run(t, es, u)
    ensures Run(s, [e] + es, u)
  {
    assert ([e] + es)[1..] == es;
  }

  /** The entry is reported to commit_at once it is stored, and the window is empty again. */
  lemma EntryIsReplicated()
    ensures Init(START) && Run(START, [Receive(PROBE1), Return(NO), Receive(PROBE2), Return(YES), Receive(PUT), Return(STORED)], DONE)
    ensures DONE.peer == DONE.leader == [ENTRY] && DONE.acked == {1} && DONE.rep.inFly == [] && DONE.rep.waiting
  {
    Starts();
    FirstProbeRefused();
    ProbesAgain();
    SecondProbeAccepted();
    SendsTheEntry();
    EntryStored();
    WindowReleased();
    hide Window, Enabled, Next, Run;
    assert Run(DONE, [], DONE) by { Stays(DONE); }
    var es: seq<Event> := [];
    OneStep(PROBED.(peer := [ENTRY], replies := {NO, YES, STORED}), Return(STORED), DONE, es, DONE);
    es := [Return(STORED)] + es;
    OneStep(PROBED, Receive(PUT), PROBED.(peer := [ENTRY], replies := {NO, YES, STORED}), es, DONE);
    es := [Receive(PUT)] + es;
    OneStep(REFUSED.(replies := {NO, YES}), Return(YES), PROBED, es, DONE);
    es := [Return(YES)] + es;
    OneStep(REFUSED, Receive(PROBE2), REFUSED.(replies := {NO, YES}), es, DONE);
    es := [Receive(PROBE2)] + es;
    OneStep(START.(replies := {NO}), Return(NO), REFUSED, es, DONE);
    es := [Return(NO)] + es;
    OneStep(START, Receive(PROBE1), START.(replies := {NO}), es, DONE);
    assert [Receive(PROBE1)] + es == [Receive(PROBE1), Return(NO), Receive(PROBE2), Return(YES), Receive(PUT), Return(STORED)];
  }

  lemma Stays(s: Sys)
    ensures Run(s, [], s)
  {
  }
}
