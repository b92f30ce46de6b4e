/** A quorum that has elected a leader can store, commit and deliver all of its log, and whatever is proposed next. */
module RaftService {
  import opened Quorum
  import opened LogTypes
  import opened BallotSpec
  import opened RaftNode
  import opened RaftHistory
  import opened RaftInvariant
  import opened RaftProtocol
  import opened RaftProgress
  import RaftSteps
  import RaftSafety

  // ----- counting

  /** The ballots from `first` to `last` have these votes, or they have been enough and everything to `last` is committed. */
  predicate Counted(b: Box, first: nat, last: nat, votes: set<PeerId>, c: Conf) {
    if Granted(votes, c) then b == Box(last + 1, [], last)
    else b.pendingIndex == first && b.NextIndex() == last + 1 && forall i :: 0 <= i < |b.ballots| ==> b.ballots[i] == BallotView(c, votes)
  }

  lemma {:induction false} LastOfEqual(bs: seq<BallotView>, hi: nat, b: BallotView)
    requires hi <= |bs| && forall i :: 0 <= i < |bs| ==> bs[i] == b
    ensures LastGranted(bs, 0, hi) == if b.IsGranted() then hi else 0
  {
    if hi > 0 && !b.IsGranted() { LastOfEqual(bs, hi - 1, b); }
  }

  /** One report for all of them adds one vote to each. */
  lemma CountOne(b: Box, from: nat, first: nat, last: nat, votes: set<PeerId>, p: PeerId, c: Conf)
    requires Counted(b, first, last, votes, c) && 1 <= first <= last && from <= first
    ensures Counted(CommitAt(b, from, last, p).0, first, last, votes + {p}, c)
  {
    if Granted(votes, c) {
      GrantedMonotone(votes, votes + {p}, c);
    } else {
      hide Granted;
      var m := Mark(b, 0, |b.ballots|, p);
      var one := BallotView(c, votes + {p});
      assert forall i :: 0 <= i < |m.ballots| ==> m.ballots[i] == one;
      LastOfEqual(m.ballots, |m.ballots|, one);
      assert m.ballots[|m.ballots|..] == [];
    }
  }

  /** A leader whose log is on its disk, with the votes it has counted for the entries from `first` on. */
  predicate Holds(n: Node, l: PeerId, term: nat, log: Log, first: nat, votes: set<PeerId>, c: Conf) {
    && n.role == Leader && n.term == term && n.leaderId == Some(l) && n.log == n.disk == log && n.queue == []
    && 1 <= first <= |log| && Counted(n.box, first, |log|, votes, c)
  }

  /** A follower of the leader with the same log, on disk. */
  predicate InStep(n: Node, l: PeerId, term: nat, log: Log) {
    && n.role == Follower && n.term == term && n.leaderId == Some(l) && n.log == n.disk == log && n.queue == []
    && n.box.pendingIndex == 0 && n.box.ballots == []
  }

  lemma OwnCount(l: PeerId, n: Node, term: nat, first: nat, c: Conf)
    requires LeadsFrom(n, l, term, first, c)
    ensures var n1 := n.(disk := n.log, queue := [], ready := n.ready + Dones(n.queue));
      && |n.ready| < |n1.ready| && Holds(RunStable(l, n1, |n.ready|).0, l, term, n.log, first, {l}, c)
      && RunStable(l, n1, |n.ready|).0.applied == n.applied
  {
    var n1 := n.(disk := n.log, queue := [], ready := n.ready + Dones(n.queue));
    assert n1.ready[|n.ready|] == LeaderStable(first, |n.log|);
    assert !Granted({}, c) by { assert {} * c.peers == {}; }
    CountOne(n.box, first, first, |n.log|, {}, l, c);
    assert {} + {l} == {l};
    hide CommitAt, Counted;
  }

  /** The leader's own disk is the first vote. */
  lemma OwnVote(r: seq<State>, l: PeerId, term: nat, first: nat, c: Conf) returns (q: seq<State>)
    requires Run(r, c) && l in Last(r).nodes && LeadsFrom(Last(r).nodes[l], l, term, first, c)
    ensures Extends(r, q, {l}, c) && q != [] && l in Last(q).nodes && Holds(Last(q).nodes[l], l, term, Last(r).nodes[l].log, first, {l}, c)
    ensures Last(q).nodes[l].applied == Last(r).nodes[l].applied
  {
    var n := Last(r).nodes[l];
    OwnCount(l, n, term, first, c);
    hide Run, Extends, LeadsFrom, Dones, RunStable, Holds;
    var mid := Drain(r, l, c);
    RunOf(r, mid, {l}, c);
    q := DoClosure(mid, l, |n.ready|, c);
    ExtendsTrans(r, mid, q, {l}, {l}, c);
    RunOf(mid, q, {l}, c);
  }

  // ----- one follower

  function WholeLog(l: PeerId, term: nat, log: Log, committed: nat): AppendRequest { AppendRequest(l, term, 0, 0, log, committed) }

  /** The request with the whole log, taken in: the log is the leader's, and the last task carries the answer. */
  predicate TookAll(n: Node, m: Node, l: PeerId, term: nat, log: Log, committed: nat) {
    && m.role == Follower && m.term == term && m.leaderId == Some(l) && m.log == log
    && m.box == n.box && m.ready == n.ready && m.applied == n.applied && Dones(m.queue) == [FollowerStable(term, |log|, committed)]
  }

  lemma OneDone(v: Write, w: Write, r: Stable)
    requires w.done == Some(r) && v.done == None
    ensures Dones([w]) == [r] && Dones([v, w]) == [r]
  {
    assert [w][1..] == [] && [v, w][1..] == [w];
  }

  /** The first `k` entries are here already, the rest is taken from the request. */
  lemma {:induction false} AppendsRest(n: Node, l: PeerId, term: nat, log: Log, committed: nat, k: nat)
    requires n.term == term && n.queue == [] && log != []
    requires k == MatchCount(n.log, 0, log) < |log| && k <= |n.log| && n.log[..k] == log[..k] && n.applied < |log|
    requires FollowerAppend(n, WholeLog(l, term, log, committed)).Handled?
    ensures var w := Write(log, Some(FollowerStable(term, |log|, committed)));
      FollowerAppend(n, WholeLog(l, term, log, committed)).node == n.(log := log, queue := if k < |n.log| then [Write(n.log[..k], None), w] else [w])
  {
    hide MatchCount;
    assert log[..k] + log[k..] == log;
    if k == |n.log| { assert n.log[..k] == n.log; }
    if |n.log| == 0 { assert n.log + log == log; }
  }

  lemma {:induction false} AppendsAll(n: Node, l: PeerId, term: nat, log: Log, committed: nat, k: nat)
    requires n.role == Follower && n.term == term && n.leaderId == Some(l) && n.queue == [] && log != []
    requires k == MatchCount(n.log, 0, log) < |log| && k <= |n.log| && n.log[..k] == log[..k] && n.applied < |log|
    requires FollowerAppend(n, WholeLog(l, term, log, committed)).Handled?
    ensures TookAll(n, FollowerAppend(n, WholeLog(l, term, log, committed)).node, l, term, log, committed)
  {
    AppendsRest(n, l, term, log, committed, k);
    var done := FollowerStable(term, |log|, committed);
    OneDone(Write(n.log[..k], None), Write(log, Some(done)), done);
    hide MatchCount, Dones, FollowerAppend;
  }

  /** A follower without the leader's last entry takes in the whole log. */
  lemma TakesAll(v: PeerId, n: Node, l: PeerId, term: nat, log: Log, committed: nat, h: History, c: Conf)
    requires Follows(n, l, term, log) && term > 0 && log[|log| - 1].term == term && v != l
    requires NodeInv(v, n, h, c) && HistInv(h, c) && RequestOk(WholeLog(l, term, log, committed), h, c)
    requires term in h.leaderLog && h.leaderLog[term] == log
    requires HandleAppend(v, n, WholeLog(l, term, log, committed)).Handled?
    ensures TookAll(n, HandleAppend(v, n, WholeLog(l, term, log, committed)).node, l, term, log, committed)
  {
    var req := WholeLog(l, term, log, committed);
    var n1 := CheckStepDown(n, term, l);
    MatchStart(v, n, n1, req, h, c);
    RaftSteps.MatchedPart(v, n1, req, h, c);
    ShortOfIt(v, n, term, log, h, c);
    hide NodeInv, NodeLogs, HistInv, RequestOk, MatchCount, FollowerAppend, RaftSteps.FromLeader;
    AppendsAll(n1, l, term, log, committed, MatchCount(n.log, 0, log));
  }

  lemma MatchStart(v: PeerId, n: Node, n1: Node, req: AppendRequest, h: History, c: Conf)
    requires NodeInv(v, n, h, c) && HistInv(h, c) && RequestOk(req, h, c) && req.prev == 0 && req.prevTerm == 0
    requires n1.log == n.log && n1.disk == n.disk && n1.queue == n.queue && n1.term == n.term == req.term && n1.role == Follower
    ensures NodeLogs(v, n1, h) && LeaderLogsInv(h) && RaftSteps.FromLeader(n1, req, h, c)
  {
    assert Versions(n1) == Versions(n);
  }

  /** Such a follower has applied less than the whole of the leader's log, and its log does not match all of it. */
  lemma ShortOfIt(v: PeerId, n: Node, term: nat, log: Log, h: History, c: Conf)
    requires NodeInv(v, n, h, c) && HistInv(h, c) && n.term == term > 0 && term in h.leaderLog && h.leaderLog[term] == log && log != []
    requires |n.log| < |log| || n.log[|log| - 1].term != log[|log| - 1].term
    requires log[|log| - 1].term == term && term in h.elections
    ensures n.applied < |log| && MatchCount(n.log, 0, log) < |log|
  {
    RaftSteps.CommittedMatches(n, term, h, c);
  }

  lemma LeadsItsLog(r: seq<State>, l: PeerId, c: Conf)
    requires Run(r, c) && l in Last(r).nodes && Last(r).nodes[l].role == Leader
    ensures var n, h := Last(r).nodes[l], Last(r).hist; n.term in h.leaderLog && h.leaderLog[n.term] == n.log && HistInv(h, c)
  {
    RaftSafety.NodeAt(r, |r| - 1, l, c);
  }

  /** The follower gets the whole log. */
  lemma LogSent(r: seq<State>, l: PeerId, v: PeerId, term: nat, log: Log, first: nat, votes: set<PeerId>, c: Conf)
      returns (q: seq<State>, committed: nat)
    requires Run(r, c) && l in Last(r).nodes && v in Last(r).nodes && l != v && term > 0
    requires Holds(Last(r).nodes[l], l, term, log, first, votes, c) && log[|log| - 1].term == term
    requires Follows(Last(r).nodes[v], l, term, log)
    ensures Extends(r, q, {v, l}, c) && q != [] && l in Last(q).nodes && v in Last(q).nodes
    ensures Last(q).nodes[l] == Last(r).nodes[l] && TookAll(Last(r).nodes[v], Last(q).nodes[v], l, term, log, committed)
  {
    var n := Last(r).nodes[l];
    committed := n.box.committed;
    var req := WholeLog(l, term, log, committed);
    WholeIsMade(l, n, term, log, first, votes, c);
    var mid := DoSend(r, l, 0, |log|, c);
    RunOf(r, mid, {l}, c);
    hide Holds, Follows, TookAll, HandleAppend, Run, Extends, MakeAppend;
    q := LogTaken(mid, l, v, term, log, committed, c);
    RunOf(mid, q, {v}, c);
    ExtendsTrans(r, mid, q, {l}, {v}, c);
    assert {l} + {v} == {v, l};
  }

  lemma WholeIsMade(l: PeerId, n: Node, term: nat, log: Log, first: nat, votes: set<PeerId>, c: Conf)
    requires Holds(n, l, term, log, first, votes, c)
    ensures MakeAppend(l, n, 0, |log|) == WholeLog(l, term, log, n.box.committed) && n.role == Leader && n.log == log && n.term == term
  {
    assert n.log[0..0 + |log|] == log;
  }

  lemma LogTaken(r: seq<State>, l: PeerId, v: PeerId, term: nat, log: Log, committed: nat, c: Conf) returns (q: seq<State>)
    requires Run(r, c) && l in Last(r).nodes && v in Last(r).nodes && l != v && term > 0
    requires Last(r).nodes[l].role == Leader && Last(r).nodes[l].log == log && Last(r).nodes[l].term == term
    requires Follows(Last(r).nodes[v], l, term, log) && log != [] && log[|log| - 1].term == term
    requires AppendReq(WholeLog(l, term, log, committed)) in Last(r).msgs
    ensures Extends(r, q, {v}, c) && q != [] && v in Last(q).nodes && TookAll(Last(r).nodes[v], Last(q).nodes[v], l, term, log, committed)
  {
    var req := WholeLog(l, term, log, committed);
    LeadsItsLog(r, l, c);
    RequestKnown(r, v, req, c);
    hide Follows, TookAll, HandleAppend, NodeInv, HistInv, RequestOk, Run, Extends;
    q := DoReceive(r, v, req, c);
    TakesAll(v, Last(r).nodes[v], l, term, log, committed, Last(r).hist, c);
  }

  lemma RequestKnown(r: seq<State>, v: PeerId, req: AppendRequest, c: Conf)
    requires Run(r, c) && v in Last(r).nodes && AppendReq(req) in Last(r).msgs
    ensures NodeInv(v, Last(r).nodes[v], Last(r).hist, c) && HistInv(Last(r).hist, c) && RequestOk(req, Last(r).hist, c)
  {
    RaftSafety.NodeAt(r, |r| - 1, v, c);
    assert MsgInv(AppendReq(req), Last(r).hist, c);
  }

  /** Once the disk is through, the closure at the end answers for the whole log. */
  lemma Answered(v: PeerId, n: Node, m: Node, l: PeerId, term: nat, log: Log, committed: nat)
    requires TookAll(n, m, l, term, log, committed) && n.box.pendingIndex == 0 && n.box.ballots == []
    ensures var m1 := m.(disk := m.log, queue := [], ready := m.ready + Dones(m.queue));
      && |n.ready| < |m1.ready|
      && RunStable(v, m1, |n.ready|).1 == Some(AppendReply(v, term, term, true, |log|, true))
      && InStep(RunStable(v, m1, |n.ready|).0, l, term, log) && RunStable(v, m1, |n.ready|).0.applied == n.applied
  {
    var m1 := m.(disk := m.log, queue := [], ready := m.ready + Dones(m.queue));
    assert m1.ready[|n.ready|] == FollowerStable(term, |log|, committed);
  }

  lemma ReplyCounts(n: Node, v: PeerId, l: PeerId, term: nat, log: Log, first: nat, votes: set<PeerId>, c: Conf)
    requires Holds(n, l, term, log, first, votes, c)
    ensures Holds(HandleAppendReply(n, AppendReply(v, term, term, true, |log|, true), 0), l, term, log, first, votes + {v}, c)
    ensures HandleAppendReply(n, AppendReply(v, term, term, true, |log|, true), 0).applied == n.applied
  {
    CountOne(n.box, 0, first, |log|, votes, v, c);
    hide CommitAt, Counted;
  }

  ghost predicate SameApplied(s: State, t: State, ids: set<PeerId>) {
    forall p :: p in ids ==> p in s.nodes && p in t.nodes && t.nodes[p].applied == s.nodes[p].applied
  }

  lemma AppliedTrans(s: State, t: State, u: State, v: PeerId, l: PeerId, rest: set<PeerId>)
    requires SameApplied(s, t, {v, l}) && SameApplied(t, u, rest - {v} + {l}) && v in rest && l !in rest
    requires Only(s, t, {v, l}) && Only(t, u, rest - {v} + {l})
    ensures SameApplied(s, u, rest + {l})
  {
  }

  /** One more follower stores the whole log and is counted. */
  lemma SyncOne(r: seq<State>, l: PeerId, v: PeerId, term: nat, log: Log, first: nat, votes: set<PeerId>, c: Conf) returns (q: seq<State>)
    requires Run(r, c) && l in Last(r).nodes && v in Last(r).nodes && l != v && term > 0
    requires Holds(Last(r).nodes[l], l, term, log, first, votes, c) && log[|log| - 1].term == term
    requires Follows(Last(r).nodes[v], l, term, log)
    ensures Extends(r, q, {v, l}, c) && q != [] && l in Last(q).nodes && v in Last(q).nodes
    ensures Holds(Last(q).nodes[l], l, term, log, first, votes + {v}, c) && InStep(Last(q).nodes[v], l, term, log)
    ensures SameApplied(Last(r), Last(q), {v, l})
  {
    var sent, committed := LogSent(r, l, v, term, log, first, votes, c);
    RunOf(r, sent, {v, l}, c);
    ReplyCounts(Last(r).nodes[l], v, l, term, log, first, votes, c);
    hide Run, Extends, Holds, InStep, Follows, TookAll, HandleAppendReply;
    var told := LogStored(sent, v, Last(r).nodes[v], l, term, log, committed, c);
    RunOf(sent, told, {v}, c);
    q := DoReply(told, l, AppendReply(v, term, term, true, |log|, true), c);
    RunOf(told, q, {l}, c);
    ExtendsTrans(r, sent, told, {v, l}, {v}, c);
    ExtendsTrans(r, told, q, {v, l} + {v}, {l}, c);
    assert {v, l} + {v} + {l} == {v, l};
  }

  /** What has been taken in gets to the disk, and is answered. */
  lemma LogStored(r: seq<State>, v: PeerId, n: Node, l: PeerId, term: nat, log: Log, committed: nat, c: Conf) returns (q: seq<State>)
    requires Run(r, c) && v in Last(r).nodes && TookAll(n, Last(r).nodes[v], l, term, log, committed)
    requires n.box.pendingIndex == 0 && n.box.ballots == []
    ensures Extends(r, q, {v}, c) && q != [] && v in Last(q).nodes && AppendRep(AppendReply(v, term, term, true, |log|, true)) in Last(q).msgs
    ensures InStep(Last(q).nodes[v], l, term, log) && Last(q).nodes[v].applied == n.applied
  {
    var m := Last(r).nodes[v];
    Answered(v, n, m, l, term, log, committed);
    assert m.ready == n.ready;
    hide Run, Extends, InStep, TookAll, Dones, RunStable;
    var written := Drain(r, v, c);
    RunOf(r, written, {v}, c);
    q := DoClosure(written, v, |n.ready|, c);
    RunOf(written, q, {v}, c);
    ExtendsTrans(r, written, q, {v}, {v}, c);
  }

  // ----- the whole quorum

  ghost predicate AllInStep(s: State, ids: set<PeerId>, l: PeerId, term: nat, log: Log) {
    forall p :: p in ids ==> p in s.nodes && InStep(s.nodes[p], l, term, log)
  }

  lemma FollowLater(s: State, t: State, rest: set<PeerId>, v: PeerId, l: PeerId, term: nat, log: Log)
    requires AllFollow(s, rest, l, term, log) && Only(s, t, {v, l}) && v in rest && l !in rest
    ensures AllFollow(t, rest - {v}, l, term, log)
  {
    hide Follows;
  }

  lemma InStepLater(t: State, u: State, rest: set<PeerId>, v: PeerId, l: PeerId, term: nat, log: Log)
    requires v in t.nodes && InStep(t.nodes[v], l, term, log) && Only(t, u, rest - {v} + {l}) && v in rest && l !in rest
    requires AllInStep(u, rest - {v}, l, term, log)
    ensures AllInStep(u, rest, l, term, log)
  {
    hide InStep;
  }

  lemma {:induction false} SyncAll(r: seq<State>, l: PeerId, rest: set<PeerId>, term: nat, log: Log, first: nat, votes: set<PeerId>, c: Conf)
      returns (q: seq<State>)
    requires Run(r, c) && l in Last(r).nodes && l !in rest && term > 0
    requires Holds(Last(r).nodes[l], l, term, log, first, votes, c) && log[|log| - 1].term == term
    requires AllFollow(Last(r), rest, l, term, log)
    ensures Extends(r, q, rest + {l}, c) && q != [] && l in Last(q).nodes
    ensures Holds(Last(q).nodes[l], l, term, log, first, votes + rest, c) && AllInStep(Last(q), rest, l, term, log)
    ensures SameApplied(Last(r), Last(q), rest + {l})
    decreases |rest|
  {
    if rest == {} {
      ExtendsSelf(r, rest + {l}, c);
      assert votes + rest == votes;
      q := r;
    } else {
      var v :| v in rest;
      var mid := SyncOne(r, l, v, term, log, first, votes, c);
      RunOf(r, mid, {v, l}, c);
      FollowLater(Last(r), Last(mid), rest, v, l, term, log);
      hide Holds, InStep, Follows, AllFollow, AllInStep, Run, Extends, Only, SameApplied;
      q := SyncAll(mid, l, rest - {v}, term, log, first, votes + {v}, c);
      RunOf(mid, q, rest - {v} + {l}, c);
      ExtendsTrans(r, mid, q, {v, l}, rest - {v} + {l}, c);
      OneOfRest(votes, rest, v, l);
      InStepLater(Last(mid), Last(q), rest, v, l, term, log);
      AppliedTrans(Last(r), Last(mid), Last(q), v, l, rest);
    }
  }

  /** Everything is committed and the leader says so. */
  predicate Done(n: Node, l: PeerId, term: nat, log: Log) {
    && n.role == Leader && n.term == term && n.leaderId == Some(l) && n.log == n.disk == log && n.queue == []
    && n.box == Box(|log| + 1, [], |log|) && log != []
  }

  lemma NowDone(n: Node, l: PeerId, term: nat, log: Log, first: nat, votes: set<PeerId>, c: Conf)
    requires Holds(n, l, term, log, first, votes, c) && Granted(votes, c)
    ensures Done(n, l, term, log)
  {
  }

  function Beat(l: PeerId, term: nat, log: Log): AppendRequest { AppendRequest(l, term, |log|, TermAt(log, |log|), [], |log|) }

  lemma BeatCommits(v: PeerId, n: Node, l: PeerId, term: nat, log: Log)
    requires InStep(n, l, term, log) && n.box.committed <= |log|
    ensures HandleAppend(v, n, Beat(l, term, log)).Handled?
    ensures var m := HandleAppend(v, n, Beat(l, term, log)).node;
      InStep(m, l, term, log) && m.box.committed == |log| && m.applied == n.applied
  {
  }

  /** A heartbeat brings the follower's commit index up. */
  lemma Beaten(r: seq<State>, l: PeerId, v: PeerId, term: nat, log: Log, c: Conf) returns (q: seq<State>)
    requires Run(r, c) && l in Last(r).nodes && v in Last(r).nodes && l != v
    requires Done(Last(r).nodes[l], l, term, log) && InStep(Last(r).nodes[v], l, term, log)
    ensures Extends(r, q, {v, l}, c) && q != [] && l in Last(q).nodes && v in Last(q).nodes && Last(q).nodes[l] == Last(r).nodes[l]
    ensures InStep(Last(q).nodes[v], l, term, log) && Last(q).nodes[v].box.committed == |log|
    ensures Last(q).nodes[v].applied == Last(r).nodes[v].applied
  {
    var n := Last(r).nodes[l];
    assert n.log[|log|..|log| + 0] == [];
    assert MakeAppend(l, n, |log|, 0) == Beat(l, term, log);
    BoxEmpty(r, v, c);
    BeatCommits(v, Last(r).nodes[v], l, term, log);
    hide Run, Extends, Done, InStep, HandleAppend;
    var mid := DoSend(r, l, |log|, 0, c);
    RunOf(r, mid, {l}, c);
    q := DoReceive(mid, v, Beat(l, term, log), c);
    RunOf(mid, q, {v}, c);
    ExtendsTrans(r, mid, q, {l}, {v}, c);
    assert {l} + {v} == {v, l};
  }

  /** The state machine of `id` has been handed everything of the log behind `from`. */
  ghost predicate Handed(s: State, id: PeerId, log: Log, from: nat) {
    forall i {:trigger log[i]} :: from <= i < |log| ==> Delivery(id, i + 1, log[i]) in s.hist.delivered
  }

  /** What is committed is delivered, one entry after the other. */
  lemma {:induction false} Delivered(r: seq<State>, id: PeerId, c: Conf) returns (q: seq<State>)
    requires Run(r, c) && id in Last(r).nodes && Last(r).nodes[id].applied <= Last(r).nodes[id].box.committed == |Last(r).nodes[id].log|
    ensures var n := Last(r).nodes[id];
      Extends(r, q, {id}, c) && q != [] && NodeIs(q, id, n.(applied := |n.log|)) && Handed(Last(q), id, n.log, n.applied)
    decreases |Last(r).nodes[id].log| - Last(r).nodes[id].applied
  {
    var n := Last(r).nodes[id];
    if n.applied == |n.log| {
      ExtendsSelf(r, {id}, c);
      q := r;
    } else {
      hide Run, Extends;
      var mid := DoDeliver(r, id, c);
      RunOf(r, mid, {id}, c);
      q := Delivered(mid, id, c);
      RunOf(mid, q, {id}, c);
      ExtendsTrans(r, mid, q, {id}, {id}, c);
    }
  }

  /** A node of the quorum that has the whole log committed and applied. */
  predicate Served(n: Node, l: PeerId, term: nat, log: Log) {
    InStep(n, l, term, log) && n.box.committed == |log| == n.applied
  }

  lemma ServeOne(r: seq<State>, l: PeerId, v: PeerId, term: nat, log: Log, c: Conf) returns (q: seq<State>)
    requires Run(r, c) && l in Last(r).nodes && v in Last(r).nodes && l != v
    requires Done(Last(r).nodes[l], l, term, log) && InStep(Last(r).nodes[v], l, term, log)
    ensures Extends(r, q, {v, l}, c) && q != [] && l in Last(q).nodes && v in Last(q).nodes && Last(q).nodes[l] == Last(r).nodes[l]
    ensures Served(Last(q).nodes[v], l, term, log) && Handed(Last(q), v, log, Last(r).nodes[v].applied)
  {
    var mid := Beaten(r, l, v, term, log, c);
    RunOf(r, mid, {v, l}, c);
    BoxEmpty(mid, v, c);
    hide Run, Extends, Done, Handed;
    q := Delivered(mid, v, c);
    RunOf(mid, q, {v}, c);
    ExtendsTrans(r, mid, q, {v, l}, {v}, c);
    assert {v, l} + {v} == {v, l};
  }

  ghost predicate AllServed(s: State, ids: set<PeerId>, l: PeerId, term: nat, log: Log) {
    forall p :: p in ids ==> p in s.nodes && Served(s.nodes[p], l, term, log)
  }

  /** Each has been handed all of the log behind what it had applied in `s`. */
  ghost predicate AllHanded(s: State, t: State, ids: set<PeerId>, log: Log) {
    forall p :: p in ids ==> p in s.nodes && Handed(t, p, log, s.nodes[p].applied)
  }

  lemma InStepStill(s: State, t: State, rest: set<PeerId>, v: PeerId, l: PeerId, term: nat, log: Log)
    requires AllInStep(s, rest, l, term, log) && Only(s, t, {v, l}) && l !in rest
    ensures AllInStep(t, rest - {v}, l, term, log)
  {
    hide InStep;
  }

  lemma ServedLater(s: State, t: State, u: State, rest: set<PeerId>, v: PeerId, l: PeerId, term: nat, log: Log)
    requires v in rest && l !in rest && v in s.nodes && v in t.nodes && Only(s, t, {v, l}) && Only(t, u, rest - {v} + {l})
    requires Served(t.nodes[v], l, term, log) && Handed(t, v, log, s.nodes[v].applied)
    requires AllServed(u, rest - {v}, l, term, log) && AllHanded(t, u, rest - {v}, log)
    ensures AllServed(u, rest, l, term, log) && AllHanded(s, u, rest, log)
  {
    hide Served;
  }

  lemma {:induction false} ServeAll(r: seq<State>, l: PeerId, rest: set<PeerId>, term: nat, log: Log, c: Conf) returns (q: seq<State>)
    requires Run(r, c) && l in Last(r).nodes && l !in rest && Done(Last(r).nodes[l], l, term, log) && AllInStep(Last(r), rest, l, term, log)
    ensures Extends(r, q, rest + {l}, c) && q != [] && l in Last(q).nodes && Last(q).nodes[l] == Last(r).nodes[l]
    ensures AllServed(Last(q), rest, l, term, log) && AllHanded(Last(r), Last(q), rest, log)
    decreases |rest|
  {
    if rest == {} {
      ExtendsSelf(r, rest + {l}, c);
      q := r;
    } else {
      var v :| v in rest;
      var mid := ServeOne(r, l, v, term, log, c);
      RunOf(r, mid, {v, l}, c);
      InStepStill(Last(r), Last(mid), rest, v, l, term, log);
      hide Done, InStep, Served, AllInStep, AllServed, AllHanded, Handed, Run, Extends, Only;
      q := ServeAll(mid, l, rest - {v}, term, log, c);
      RunOf(mid, q, rest - {v} + {l}, c);
      ExtendsTrans(r, mid, q, {v, l}, rest - {v} + {l}, c);
      OneOfRest({}, rest, v, l);
      ServedLater(Last(r), Last(mid), Last(q), rest, v, l, term, log);
    }
  }

  /** All of the quorum holds the log, and has been handed what it had not applied in `s`. */
  ghost predicate Finished(s: State, t: State, ids: set<PeerId>, l: PeerId, term: nat, log: Log) {
    && l in ids && l in s.nodes && l in t.nodes && Done(t.nodes[l], l, term, log) && t.nodes[l].applied == |log|
    && AllServed(t, ids - {l}, l, term, log) && AllHanded(s, t, ids, log)
  }

  lemma FinishedBy(s: State, a: State, b: State, t: State, ids: set<PeerId>, l: PeerId, term: nat, log: Log)
    requires l in ids && SameApplied(s, a, ids) && Only(a, b, ids) && Only(b, t, {l}) && l in b.nodes && b.nodes[l] == a.nodes[l]
    requires Done(b.nodes[l], l, term, log) && AllServed(b, ids - {l}, l, term, log) && AllHanded(a, b, ids - {l}, log)
    requires t.nodes[l] == b.nodes[l].(applied := |log|) && Handed(t, l, log, b.nodes[l].applied)
    ensures Finished(s, t, ids, l, term, log)
  {
    hide Served;
    forall p | p in ids ensures p in s.nodes && Handed(t, p, log, s.nodes[p].applied) { }
  }

  lemma AppliedAll(s: State, t: State, u: State, ids: set<PeerId>, l: PeerId)
    requires l in ids && Only(s, t, {l}) && SameApplied(s, t, {l}) && SameApplied(t, u, ids)
    ensures SameApplied(s, u, ids)
  {
  }

  /** The entries from `first` on are stored, committed and delivered by the whole quorum. */
  lemma Served1(r: seq<State>, ids: set<PeerId>, l: PeerId, term: nat, log: Log, first: nat, c: Conf) returns (q: seq<State>)
    requires Run(r, c) && Granted(ids, c) && l in ids && l in Last(r).nodes && term > 0 && log == Last(r).nodes[l].log
    requires LeadsFrom(Last(r).nodes[l], l, term, first, c) && AllFollow(Last(r), ids - {l}, l, term, log)
    ensures Extends(r, q, ids, c) && q != [] && Finished(Last(r), Last(q), ids, l, term, log)
  {
    var own := OwnVote(r, l, term, first, c);
    RunOf(r, own, {l}, c);
    StillFollow(Last(r), Last(own), ids, l, term, log);
    assert log[|log| - 1].term == term && SameApplied(Last(r), Last(own), {l});
    AllOfThem(ids, l);
    hide LeadsFrom, Holds, Done, InStep, Served, AllInStep, AllServed, AllHanded, AllFollow, Handed;
    hide Run, Extends, Only, SameApplied, Granted, Finished;
    var synced := SyncAll(own, l, ids - {l}, term, log, first, {l}, c);
    RunOf(own, synced, ids, c);
    NowDone(Last(synced).nodes[l], l, term, log, first, ids, c);
    AppliedAll(Last(r), Last(own), Last(synced), ids, l);
    var served := ServeAll(synced, l, ids - {l}, term, log, c);
    RunOf(synced, served, ids, c);
    DoneFacts(served, l, term, log, c);
    q := Delivered(served, l, c);
    RunOf(served, q, {l}, c);
    FinishedBy(Last(r), Last(synced), Last(served), Last(q), ids, l, term, log);
    ExtendsTrans(r, own, synced, {l}, ids, c);
    ExtendsTrans(r, synced, served, {l} + ids, ids, c);
    ExtendsTrans(r, served, q, {l} + ids + ids, {l}, c);
    assert {l} + ids + ids + {l} == ids;
  }

  lemma DoneFacts(r: seq<State>, l: PeerId, term: nat, log: Log, c: Conf)
    requires Run(r, c) && l in Last(r).nodes && Done(Last(r).nodes[l], l, term, log)
    ensures Last(r).nodes[l].applied <= Last(r).nodes[l].box.committed == |Last(r).nodes[l].log| && Last(r).nodes[l].log == log
  {
    BoxEmpty(r, l, c);
  }

  lemma StillFollow(s: State, t: State, ids: set<PeerId>, l: PeerId, term: nat, log: Log)
    requires AllFollow(s, ids - {l}, l, term, log) && Only(s, t, {l})
    ensures AllFollow(t, ids - {l}, l, term, log)
  {
    hide Follows;
  }

  lemma Proposed(n: Node, l: PeerId, term: nat, log: Log, payloads: seq<Payload>, c: Conf)
    requires Done(n, l, term, log) && payloads != []
    ensures var n' := LeaderAppend(n, payloads, c);
      LeadsFrom(n', l, term, |log| + 1, c) && n'.log == log + Entries(term, payloads) && n'.applied == n.applied
  {
    var n' := LeaderAppend(n, payloads, c);
    var w := Write(n'.log, Some(LeaderStable(|log| + 1, |n'.log|)));
    assert [] + [w] == [w] && [w][1..] == [];
    assert n'.log[|n'.log| - 1] == Entries(term, payloads)[|payloads| - 1];
    assert Dones([w]) == [LeaderStable(|log| + 1, |n'.log|)];
  }

  lemma NextToFollow(s: State, t: State, ids: set<PeerId>, l: PeerId, term: nat, log: Log, more: Log)
    requires AllServed(s, ids - {l}, l, term, log) && Only(s, t, {l}) && |log| < |more|
    ensures AllFollow(t, ids - {l}, l, term, more)
  {
  }

  /** The node leads and has applied its whole log, or follows and has the same log and has applied it too. */
  ghost predicate UpToDate(s: State, p: PeerId, l: PeerId, term: nat, log: Log) {
    && p in s.nodes
    && var n := s.nodes[p];
       && n.term == term && n.leaderId == Some(l) && (n.role == Leader <==> p == l)
       && n.log == n.disk == log && n.box.committed == n.applied == |log|
  }

  lemma AllUpToDate(s: State, t: State, ids: set<PeerId>, l: PeerId, term: nat, log: Log)
    requires Finished(s, t, ids, l, term, log)
    ensures forall p :: p in ids ==> UpToDate(t, p, l, term, log)
  {
    forall p | p in ids ensures UpToDate(t, p, l, term, log) {
      if p != l { assert p in ids - {l} && Served(t.nodes[p], l, term, log); }
    }
  }

  /** What has been proposed lies at the end of the log and has been handed to each node of the quorum. */
  ghost predicate AllGot(t: State, ids: set<PeerId>, log: Log, term: nat, payloads: seq<Payload>) {
    && |payloads| <= |log| && log[|log| - |payloads|..] == Entries(term, payloads)
    && forall p, i {:trigger Delivery(p, i + 1, log[i])} ::
      p in ids && |log| - |payloads| <= i < |log| ==> Delivery(p, i + 1, log[i]) in t.hist.delivered
  }

  lemma GotIt(s: State, t: State, ids: set<PeerId>, l: PeerId, term: nat, was: Log, log: Log, payloads: seq<Payload>)
    requires Finished(s, t, ids, l, term, log) && log == was + Entries(term, payloads)
    requires forall p :: p in ids ==> p in s.nodes && s.nodes[p].applied == |was|
    ensures AllGot(t, ids, log, term, payloads)
  {
    assert log[|was|..] == Entries(term, payloads);
    forall p, i | p in ids && |was| <= i < |log| ensures Delivery(p, i + 1, log[i]) in t.hist.delivered {
      assert Handed(t, p, log, s.nodes[p].applied);
    }
  }

  lemma AppliedBefore(b: State, s: State, ids: set<PeerId>, l: PeerId, term: nat, was: Log)
    requires l in s.nodes && s.nodes[l].applied == |was| && AllServed(b, ids - {l}, l, term, was) && Only(b, s, {l})
    ensures forall p :: p in ids ==> p in s.nodes && s.nodes[p].applied == |was|
  {
    forall p | p in ids ensures p in s.nodes && s.nodes[p].applied == |was| {
      if p != l { assert p in ids - {l} && Served(b.nodes[p], l, term, was); }
    }
  }

  /** A leader of the quorum that is done gets the payloads through. */
  lemma MoreServed(r: seq<State>, ids: set<PeerId>, l: PeerId, term: nat, was: Log, payloads: seq<Payload>, s: State, c: Conf)
      returns (q: seq<State>, log: Log)
    requires Run(r, c) && Granted(ids, c) && term > 0 && Finished(s, Last(r), ids, l, term, was)
    requires payloads != [] && forall p :: p in payloads ==> p.Data?
    ensures Extends(r, q, ids, c) && q != [] && AllGot(Last(q), ids, log, term, payloads)
    ensures forall p :: p in ids ==> UpToDate(Last(q), p, l, term, log)
  {
    Proposed(Last(r).nodes[l], l, term, was, payloads, c);
    var mid := DoPropose(r, l, payloads, c);
    RunOf(r, mid, {l}, c);
    log := Last(mid).nodes[l].log;
    NextToFollow(Last(r), Last(mid), ids, l, term, was, log);
    AppliedBefore(Last(r), Last(mid), ids, l, term, was);
    assert l in ids;
    hide LeadsFrom, Done, AllServed, AllHanded, AllFollow, Run, Extends, Only, Granted, Finished, LeaderAppend, AllGot, UpToDate;
    q := Served1(mid, ids, l, term, log, |was| + 1, c);
    AllUpToDate(Last(mid), Last(q), ids, l, term, log);
    GotIt(Last(mid), Last(q), ids, l, term, was, log, payloads);
    ExtendsTrans(r, mid, q, {l}, ids, c);
    assert {l} + ids == ids;
  }

  /**
   From every moment of every run, for every quorum and whatever is proposed: the run can go on, with these nodes alone taking steps,
   so that one of them leads, all of them hold its whole log on disk, committed and applied, what was proposed is the end of
   that log, and each of them has been handed it.
   */
  lemma GroupCanServe(r: seq<State>, ids: set<PeerId>, payloads: seq<Payload>, c: Conf)
      returns (q: seq<State>, l: PeerId, term: nat, log: Log)
    requires Run(r, c) && Granted(ids, c) && ids <= Last(r).nodes.Keys && forall p :: p in ids ==> c.Contains(p)
    requires forall p :: p in payloads ==> p.Data?
    ensures Run(q, c) && r <= q && Only(Last(r), Last(q), ids) && l in ids
    ensures forall p :: p in ids ==> UpToDate(Last(q), p, l, term, log)
    ensures AllGot(Last(q), ids, log, term, payloads)
  {
    var elected;
    elected, l, term := Elected(r, ids, c);
    RunOf(r, elected, ids, c);
    log := Last(elected).nodes[l].log;
    hide LeadsFrom, AllFollow, Run, Extends, Only, Granted, Finished, AllGot, UpToDate;
    var first := Served1(elected, ids, l, term, log, |log|, c);
    RunOf(elected, first, ids, c);
    ExtendsTrans(r, elected, first, ids, ids, c);
    AllOfThem(ids, l);
    if payloads == [] {
      q := first;
      AllUpToDate(Last(elected), Last(q), ids, l, term, log);
      NothingProposed(Last(q), ids, log, term);
    } else {
      q, log := MoreServed(first, ids, l, term, log, payloads, Last(elected), c);
      ExtendsTrans(r, first, q, ids, ids, c);
    }
    RunOf(r, q, ids, c);
    Prefix(r, q, ids, c);
  }

  lemma Prefix(r: seq<State>, q: seq<State>, ids: set<PeerId>, c: Conf)
    requires Extends(r, q, ids, c)
    ensures r <= q
  {
  }

  lemma NothingProposed(t: State, ids: set<PeerId>, log: Log, term: nat)
    ensures AllGot(t, ids, log, term, [])
  {
    assert log[|log|..] == [];
  }
}
