/** From every moment of every run the group can go on: any quorum can elect a leader, and store, commit and deliver what it is given. */
module RaftProgress {
  import opened Quorum
  import opened LogTypes
  import opened BallotSpec
  import opened RaftNode
  import opened RaftHistory
  import opened RaftInvariant
  import opened RaftProtocol
  import RaftSafety

  // ----- single steps

  function Last(r: seq<State>): State
    requires r != []
  {
    r[|r| - 1]
  }

  /** Only the nodes in `ids` have changed; messages and deliveries are never lost. */
  ghost predicate Only(s: State, t: State, ids: set<PeerId>) {
    && t.nodes.Keys == s.nodes.Keys && (forall p :: p in s.nodes && p !in ids ==> t.nodes[p] == s.nodes[p])
    && s.msgs <= t.msgs && s.hist.delivered <= t.hist.delivered
  }

  lemma OnlyTrans(s: State, t: State, u: State, a: set<PeerId>, b: set<PeerId>)
    requires Only(s, t, a) && Only(t, u, b)
    ensures Only(s, u, a + b)
  {
  }

  /** A longer run of the same group. */
  ghost predicate Extends(r: seq<State>, q: seq<State>, ids: set<PeerId>, c: Conf) {
    r != [] && r <= q && Run(q, c) && Only(Last(r), Last(q), ids)
  }

  lemma ExtendsTrans(r: seq<State>, q: seq<State>, u: seq<State>, a: set<PeerId>, b: set<PeerId>, c: Conf)
    requires Extends(r, q, a, c) && Extends(q, u, b, c)
    ensures Extends(r, u, a + b, c)
  {
    hide Run;
    OnlyTrans(Last(r), Last(q), Last(u), a, b);
  }

  lemma ExtendsSelf(r: seq<State>, ids: set<PeerId>, c: Conf)
    requires Run(r, c)
    ensures Extends(r, r, ids, c)
  {
  }

  ghost predicate NodeIs(r: seq<State>, id: PeerId, n: Node) { r != [] && id in Last(r).nodes && Last(r).nodes[id] == n }

  lemma RecordKept(id: PeerId, n: Node, a: Action, h: History, msgs: set<Msg>, c: Conf)
    requires Enabled(id, n, a, h, msgs, c)
    ensures h.delivered <= Apply(id, n, a, h, msgs, c).hist.delivered
  {
    hide HandleVote, HandleAppend, ReceiveAppend, RunStable, HandleVoteReply, HandleAppendReply, BecomeLeader, LeaderAppend, StepDown;
  }

  lemma Act(r: seq<State>, id: PeerId, a: Action, c: Conf) returns (q: seq<State>)
    requires Run(r, c) && id in Last(r).nodes && Enabled(id, Last(r).nodes[id], a, Last(r).hist, Last(r).msgs, c)
    ensures Extends(r, q, {id}, c)
    ensures var s := Last(r); var e := Apply(id, s.nodes[id], a, s.hist, s.msgs, c);
      NodeIs(q, id, e.node) && e.sent <= Last(q).msgs && Last(q).hist == e.hist
  {
    var s := Last(r);
    var e := Apply(id, s.nodes[id], a, s.hist, s.msgs, c);
    RecordKept(id, s.nodes[id], a, s.hist, s.msgs, c);
    hide Enabled, Apply;
    var t := State(s.nodes[id := e.node], s.msgs + e.sent, e.hist);
    assert Step(s, t, id, a, c);
    q := r + [t];
    RunLonger(r, t, q, c);
  }

  lemma RunLonger(r: seq<State>, t: State, q: seq<State>, c: Conf)
    requires Run(r, c) && SomeStep(r[|r| - 1], t, c) && q == r + [t]
    ensures Run(q, c)
  {
    forall i | 0 < i < |q| ensures SomeStep(q[i - 1], q[i], c) {
      if i < |r| { assert SomeStep(r[i - 1], r[i], c); }
    }
  }

  lemma DoGiveUp(r: seq<State>, id: PeerId, term: nat, c: Conf) returns (q: seq<State>)
    requires Run(r, c) && id in Last(r).nodes
    ensures Extends(r, q, {id}, c) && NodeIs(q, id, StepDown(Last(r).nodes[id], term))
  {
    hide Run, Extends, StepDown;
    q := Act(r, id, GiveUp(term), c);
  }

  lemma DoDisk(r: seq<State>, id: PeerId, c: Conf) returns (q: seq<State>)
    requires Run(r, c) && id in Last(r).nodes && Last(r).nodes[id].queue != []
    ensures Extends(r, q, {id}, c) && NodeIs(q, id, DiskStep(Last(r).nodes[id]))
  {
    hide Run, Extends, DiskStep;
    q := Act(r, id, DiskTask, c);
  }

  lemma DoElect(r: seq<State>, id: PeerId, c: Conf) returns (q: seq<State>)
    requires Run(r, c) && id in Last(r).nodes && Last(r).nodes[id].role != Leader && c.Contains(id) && Last(r).nodes[id].queue == []
    ensures var n := Last(r).nodes[id];
      && Extends(r, q, {id}, c) && NodeIs(q, id, ElectSelf(id, n)) && VoteReq(VoteRequest(id, n.term + 1, LastId(n.disk))) in Last(q).msgs
  {
    DiskKnown(r, id, c);
    hide Run, Extends, ElectSelf;
    q := Act(r, id, Elect(LastId(Last(r).nodes[id].disk)), c);
  }

  /** The disk as it is now is on record, so its last id is one a flush may report. */
  lemma DiskKnown(r: seq<State>, id: PeerId, c: Conf)
    requires Run(r, c) && id in Last(r).nodes && Last(r).nodes[id].queue == []
    ensures var n := Last(r).nodes[id]; LastIdRead(id, n, LastId(n.disk), Last(r).hist) && n.log == n.disk
  {
    RaftSafety.NodeAt(r, |r| - 1, id, c);
  }

  lemma DoVote(r: seq<State>, id: PeerId, req: VoteRequest, c: Conf) returns (q: seq<State>)
    requires Run(r, c) && id in Last(r).nodes && VoteReq(req) in Last(r).msgs && Last(r).nodes[id].queue == []
    ensures var n := Last(r).nodes[id]; var n' := HandleVote(n, req, LastId(n.disk), true);
      Extends(r, q, {id}, c) && NodeIs(q, id, n') && VoteRep(VoteAnswer(id, n', req)) in Last(q).msgs
  {
    DiskKnown(r, id, c);
    hide Run, Extends, HandleVote, VoteAnswer, LastIdRead;
    q := Act(r, id, Vote(req, LastId(Last(r).nodes[id].disk), true), c);
  }

  lemma DoTakeVote(r: seq<State>, id: PeerId, rep: VoteReply, c: Conf) returns (q: seq<State>)
    requires Run(r, c) && id in Last(r).nodes && VoteRep(rep) in Last(r).msgs && rep.cand == id
    ensures Extends(r, q, {id}, c) && NodeIs(q, id, HandleVoteReply(id, Last(r).nodes[id], rep, false))
  {
    hide Run, Extends, HandleVoteReply;
    q := Act(r, id, TakeVote(rep, false), c);
  }

  lemma DoGrantSelf(r: seq<State>, id: PeerId, c: Conf) returns (q: seq<State>)
    requires Run(r, c) && id in Last(r).nodes && Last(r).nodes[id].role == Candidate
    ensures var n := Last(r).nodes[id]; Extends(r, q, {id}, c) && NodeIs(q, id, n.(votes := n.votes + {id}))
  {
    hide Run, Extends;
    q := Act(r, id, GrantSelf, c);
  }

  lemma DoLead(r: seq<State>, id: PeerId, c: Conf) returns (q: seq<State>)
    requires Run(r, c) && id in Last(r).nodes && Last(r).nodes[id].role == Candidate && Granted(Last(r).nodes[id].votes, c)
    ensures Extends(r, q, {id}, c) && NodeIs(q, id, BecomeLeader(id, Last(r).nodes[id], c))
  {
    hide Run, Extends, BecomeLeader, Granted;
    q := Act(r, id, Lead, c);
  }

  lemma DoPropose(r: seq<State>, id: PeerId, payloads: seq<Payload>, c: Conf) returns (q: seq<State>)
    requires Run(r, c) && id in Last(r).nodes && Last(r).nodes[id].role == Leader && payloads != [] && forall p :: p in payloads ==> p.Data?
    ensures Extends(r, q, {id}, c) && NodeIs(q, id, LeaderAppend(Last(r).nodes[id], payloads, c))
  {
    hide Run, Extends, LeaderAppend;
    q := Act(r, id, Propose(payloads), c);
  }

  lemma DoSend(r: seq<State>, id: PeerId, prev: nat, count: nat, c: Conf) returns (q: seq<State>)
    requires Run(r, c) && id in Last(r).nodes && Last(r).nodes[id].role == Leader && prev + count <= |Last(r).nodes[id].log|
    ensures var n := Last(r).nodes[id];
      Extends(r, q, {id}, c) && NodeIs(q, id, n) && AppendReq(MakeAppend(id, n, prev, count)) in Last(q).msgs
  {
    hide Run, Extends, MakeAppend;
    q := Act(r, id, Send(prev, count), c);
  }

  /** What is received is handled: no request in flight is fatal. */
  lemma DoReceive(r: seq<State>, id: PeerId, req: AppendRequest, c: Conf) returns (q: seq<State>)
    requires Run(r, c) && id in Last(r).nodes && AppendReq(req) in Last(r).msgs && req.src != id
    ensures HandleAppend(id, Last(r).nodes[id], req).Handled?
    ensures Extends(r, q, {id}, c) && NodeIs(q, id, HandleAppend(id, Last(r).nodes[id], req).node)
  {
    var n := Last(r).nodes[id];
    RaftSafety.NeverFatal(r, |r| - 1, id, req, c);
    assert n.(applied := n.applied) == n && ReceiveAppend(id, n, req, n.applied).Handled?;
    AppliedKept(id, n, req);
    hide Run, Extends, HandleAppend;
    q := Act(r, id, Receive(req, n.applied), c);
  }

  lemma AppliedKept(id: PeerId, n: Node, req: AppendRequest)
    requires HandleAppend(id, n, req).Handled?
    ensures HandleAppend(id, n, req).node.applied == n.applied
  {
    hide MatchCount;
  }

  lemma DoClosure(r: seq<State>, id: PeerId, i: nat, c: Conf) returns (q: seq<State>)
    requires Run(r, c) && id in Last(r).nodes && i < |Last(r).nodes[id].ready|
    ensures var res := RunStable(id, Last(r).nodes[id], i);
      Extends(r, q, {id}, c) && NodeIs(q, id, res.0) && (res.1.Some? ==> AppendRep(res.1.value) in Last(q).msgs)
  {
    hide Run, Extends, RunStable;
    q := Act(r, id, RunClosure(i), c);
  }

  lemma DoReply(r: seq<State>, id: PeerId, rep: AppendReply, c: Conf) returns (q: seq<State>)
    requires Run(r, c) && id in Last(r).nodes && AppendRep(rep) in Last(r).msgs
    ensures Extends(r, q, {id}, c) && NodeIs(q, id, HandleAppendReply(Last(r).nodes[id], rep, 0))
  {
    hide Run, Extends, HandleAppendReply;
    q := Act(r, id, TakeReply(rep, 0), c);
  }

  lemma DoDeliver(r: seq<State>, id: PeerId, c: Conf) returns (q: seq<State>)
    requires Run(r, c) && id in Last(r).nodes && Last(r).nodes[id].applied < Last(r).nodes[id].box.committed
    requires Last(r).nodes[id].applied < |Last(r).nodes[id].log|
    ensures var n := Last(r).nodes[id];
      && Extends(r, q, {id}, c) && NodeIs(q, id, n.(applied := n.applied + 1))
      && Delivery(id, n.applied + 1, n.log[n.applied]) in Last(q).hist.delivered
  {
    hide Run, Extends;
    q := Act(r, id, Deliver, c);
  }

  // ----- one node alone

  function Dones(q: seq<Write>): seq<Stable> {
    if q == [] then []
    else (if q[0].done.Some? then [q[0].done.value] else []) + Dones(q[1..])
  }

  /** The disk thread works off everything that waits. */
  lemma {:induction false} Drain(r: seq<State>, id: PeerId, c: Conf) returns (q: seq<State>)
    requires Run(r, c) && id in Last(r).nodes
    ensures var n := Last(r).nodes[id];
      Extends(r, q, {id}, c) && NodeIs(q, id, n.(disk := n.log, queue := [], ready := n.ready + Dones(n.queue)))
    decreases |Last(r).nodes[id].queue|
  {
    var n := Last(r).nodes[id];
    if n.queue == [] {
      DiskKnown(r, id, c);
      ExtendsSelf(r, {id}, c);
      assert n.ready + [] == n.ready;
      q := r;
    } else {
      var mid := DoDisk(r, id, c);
      var n1 := DiskStep(n);
      assert n.ready + Dones(n.queue) == n1.ready + Dones(n1.queue);
      hide Run, Extends, Dones;
      RunOf(r, mid, {id}, c);
      q := Drain(mid, id, c);
      ExtendsTrans(r, mid, q, {id}, {id}, c);
    }
  }

  lemma RunOf(r: seq<State>, q: seq<State>, ids: set<PeerId>, c: Conf)
    requires Extends(r, q, ids, c)
    ensures q != [] && Run(q, c) && Only(Last(r), Last(q), ids)
  {
  }

  /** A follower of nobody, without a vote, with its log on disk. */
  predicate Calm(n: Node, term: nat) {
    && n.role == Follower && n.term == term && n.votedFor.None? && n.leaderId.None? && n.votes == {}
    && n.queue == [] && n.disk == n.log && n.box.pendingIndex == 0 && n.box.ballots == []
  }

  /** A node is made a calm follower of a later term; its log is what it was. */
  lemma Calmed(r: seq<State>, id: PeerId, term: nat, c: Conf) returns (q: seq<State>)
    requires Run(r, c) && id in Last(r).nodes && Last(r).nodes[id].term < term
    ensures Extends(r, q, {id}, c) && id in Last(q).nodes && Calm(Last(q).nodes[id], term) && Last(q).nodes[id].log == Last(r).nodes[id].log
  {
    BoxEmpty(r, id, c);
    var mid := DoGiveUp(r, id, term, c);
    RunOf(r, mid, {id}, c);
    hide Run, Extends;
    q := Drain(mid, id, c);
    ExtendsTrans(r, mid, q, {id}, {id}, c);
  }

  lemma BoxEmpty(r: seq<State>, id: PeerId, c: Conf)
    requires Run(r, c) && id in Last(r).nodes
    ensures var n := Last(r).nodes[id];
      (n.role != Leader ==> n.box.pendingIndex == 0 && n.box.ballots == []) && n.applied <= n.box.committed <= |n.log|
  {
    RaftSafety.NodeAt(r, |r| - 1, id, c);
  }

  // ----- an election

  ghost predicate AllCalm(s: State, ids: set<PeerId>, term: nat) {
    forall p :: p in ids ==> p in s.nodes && Calm(s.nodes[p], term)
  }

  lemma {:induction false} CalmedAll(r: seq<State>, ids: set<PeerId>, term: nat, c: Conf) returns (q: seq<State>)
    requires Run(r, c) && forall p :: p in ids ==> p in Last(r).nodes && Last(r).nodes[p].term < term
    ensures Extends(r, q, ids, c) && q != [] && AllCalm(Last(q), ids, term)
    decreases |ids|
  {
    if ids == {} {
      ExtendsSelf(r, ids, c);
      q := r;
    } else {
      var p :| p in ids;
      var mid := Calmed(r, p, term, c);
      RunOf(r, mid, {p}, c);
      q := CalmedAll(mid, ids - {p}, term, c);
      RunOf(mid, q, ids - {p}, c);
      ExtendsTrans(r, mid, q, {p}, ids - {p}, c);
      assert {p} + (ids - {p}) == ids;
      assert Last(q).nodes[p] == Last(mid).nodes[p];
    }
  }

  /** A later term than that of any of the nodes. */
  lemma {:induction false} SomeTerm(s: State, ids: set<PeerId>) returns (term: nat)
    requires ids <= s.nodes.Keys
    ensures forall p :: p in ids ==> s.nodes[p].term < term
    decreases |ids|
  {
    if ids == {} {
      term := 0;
    } else {
      var p :| p in ids;
      term := SomeTerm(s, ids - {p});
      term := if term > s.nodes[p].term then term else s.nodes[p].term + 1;
    }
  }

  /** Of any quorum, some node's log is at least as up to date as all the others'. */
  lemma {:induction false} BestOf(s: State, ids: set<PeerId>) returns (l: PeerId)
    requires ids <= s.nodes.Keys && ids != {}
    ensures l in ids && forall p :: p in ids ==> IdAtMost(LastId(s.nodes[p].log), LastId(s.nodes[l].log))
    decreases |ids|
  {
    var p :| p in ids;
    if ids - {p} == {} {
      l := p;
      assert forall q :: q in ids ==> q == p || q in ids - {p};
    } else {
      l := BestOf(s, ids - {p});
      if IdLess(LastId(s.nodes[l].log), LastId(s.nodes[p].log)) { l := p; }
    }
  }

  predicate Stands(n: Node, id: PeerId, term: nat, votes: set<PeerId>, log: Log) {
    && n.role == Candidate && n.term == term && n.votedFor == Some(id) && n.leaderId.None? && n.votes == votes
    && n.queue == [] && n.disk == n.log == log && n.box.pendingIndex == 0 && n.box.ballots == []
  }

  predicate HasVoted(n: Node, l: PeerId, term: nat, log: Log) {
    && n.role == Follower && n.term == term && n.votedFor == Some(l) && n.leaderId.None? && n.votes == {}
    && n.queue == [] && n.disk == n.log == log && n.box.pendingIndex == 0 && n.box.ballots == []
  }

  lemma VoteGiven(v: PeerId, n: Node, req: VoteRequest)
    requires req.term > 0 && Calm(n, req.term - 1) && IdAtMost(LastId(n.log), req.last)
    ensures HasVoted(HandleVote(n, req, LastId(n.disk), true), req.cand, req.term, n.log)
    ensures VoteAnswer(v, HandleVote(n, req, LastId(n.disk), true), req) == VoteReply(v, req.cand, req.term, req.term, true)
  {
  }

  lemma VoteCounted(l: PeerId, n: Node, v: PeerId, term: nat, votes: set<PeerId>, log: Log)
    requires Stands(n, l, term, votes, log)
    ensures Stands(HandleVoteReply(l, n, VoteReply(v, l, term, term, true), false), l, term, votes + {v}, log)
  {
    assert votes + {v} + {} == votes + {v};
  }

  lemma OneVote(r: seq<State>, l: PeerId, v: PeerId, term: nat, votes: set<PeerId>, log: Log, c: Conf) returns (q: seq<State>)
    requires Run(r, c) && term > 0 && l in Last(r).nodes && v in Last(r).nodes && l != v
    requires Stands(Last(r).nodes[l], l, term, votes, log) && Calm(Last(r).nodes[v], term - 1)
    requires VoteReq(VoteRequest(l, term, LastId(log))) in Last(r).msgs && IdAtMost(LastId(Last(r).nodes[v].log), LastId(log))
    ensures Extends(r, q, {v, l}, c) && q != [] && l in Last(q).nodes && v in Last(q).nodes
    ensures Stands(Last(q).nodes[l], l, term, votes + {v}, log) && HasVoted(Last(q).nodes[v], l, term, Last(r).nodes[v].log)
  {
    var req, rep := VoteRequest(l, term, LastId(log)), VoteReply(v, l, term, term, true);
    VoteGiven(v, Last(r).nodes[v], req);
    var mid := DoVote(r, v, req, c);
    RunOf(r, mid, {v}, c);
    VoteCounted(l, Last(mid).nodes[l], v, term, votes, log);
    hide HandleVote, HandleVoteReply, VoteAnswer, Run;
    q := DoTakeVote(mid, l, rep, c);
    RunOf(mid, q, {l}, c);
    ExtendsTrans(r, mid, q, {v}, {l}, c);
    assert {v} + {l} == {v, l};
  }

  lemma OneOfRest(votes: set<PeerId>, rest: set<PeerId>, v: PeerId, l: PeerId)
    requires v in rest
    ensures {v, l} + (rest - {v} + {l}) == rest + {l} && votes + {v} + (rest - {v}) == votes + rest
  {
  }

  /** The candidate asks, and those of `rest` are calm and have no better log. */
  ghost predicate Asks(s: State, l: PeerId, rest: set<PeerId>, term: nat, votes: set<PeerId>, log: Log) {
    && term > 0 && l in s.nodes && l !in rest && Stands(s.nodes[l], l, term, votes, log) && AllCalm(s, rest, term - 1)
    && VoteReq(VoteRequest(l, term, LastId(log))) in s.msgs
    && forall p :: p in rest ==> IdAtMost(LastId(s.nodes[p].log), LastId(log))
  }

  ghost predicate AllVoted(s: State, t: State, ids: set<PeerId>, l: PeerId, term: nat) {
    forall p :: p in ids ==> p in s.nodes && p in t.nodes && HasVoted(t.nodes[p], l, term, s.nodes[p].log)
  }

  lemma AsksNext(s: State, t: State, l: PeerId, rest: set<PeerId>, v: PeerId, term: nat, votes: set<PeerId>, log: Log)
    requires Asks(s, l, rest, term, votes, log) && v in rest && Only(s, t, {v, l})
    requires Stands(t.nodes[l], l, term, votes + {v}, log)
    ensures Asks(t, l, rest - {v}, term, votes + {v}, log)
  {
    hide Stands, Calm, IdAtMost;
  }

  lemma AllVotedNext(s: State, t: State, u: State, l: PeerId, rest: set<PeerId>, v: PeerId, term: nat)
    requires l !in rest && v in rest && Only(s, t, {v, l}) && Only(t, u, rest - {v} + {l})
    requires v in s.nodes && HasVoted(t.nodes[v], l, term, s.nodes[v].log) && AllVoted(t, u, rest - {v}, l, term)
    ensures AllVoted(s, u, rest, l, term)
  {
    hide HasVoted;
  }

  /** All of `rest` vote for the candidate. */
  lemma {:induction false} VotesOf(r: seq<State>, l: PeerId, rest: set<PeerId>, term: nat, votes: set<PeerId>, log: Log, c: Conf)
      returns (q: seq<State>)
    requires Run(r, c) && Asks(Last(r), l, rest, term, votes, log)
    ensures Extends(r, q, rest + {l}, c) && q != [] && l in Last(q).nodes
    ensures Stands(Last(q).nodes[l], l, term, votes + rest, log) && AllVoted(Last(r), Last(q), rest, l, term)
    decreases |rest|
  {
    if rest == {} {
      ExtendsSelf(r, rest + {l}, c);
      assert votes + rest == votes;
      q := r;
    } else {
      var v :| v in rest;
      var mid := OneVote(r, l, v, term, votes, log, c);
      RunOf(r, mid, {v, l}, c);
      AsksNext(Last(r), Last(mid), l, rest, v, term, votes, log);
      hide Asks, AllVoted, Stands, HasVoted, Run, Extends, Only;
      q := VotesOf(mid, l, rest - {v}, term, votes + {v}, log, c);
      RunOf(mid, q, rest - {v} + {l}, c);
      ExtendsTrans(r, mid, q, {v, l}, rest - {v} + {l}, c);
      OneOfRest(votes, rest, v, l);
      AllVotedNext(Last(r), Last(mid), Last(q), l, rest, v, term);
    }
  }

  /** A leader of `term` whose last entries, from `first` on, are neither on its disk nor counted yet. */
  ghost predicate LeadsFrom(n: Node, id: PeerId, term: nat, first: nat, c: Conf) {
    && n.role == Leader && n.term == term && n.leaderId == Some(id) && 1 <= first <= |n.log| && n.log[|n.log| - 1].term == term
    && n.box.pendingIndex == first && n.box.NextIndex() == |n.log| + 1
    && (forall i :: 0 <= i < |n.box.ballots| ==> n.box.ballots[i] == BallotView(c, {}))
    && Dones(n.queue) == [LeaderStable(first, |n.log|)]
  }

  /** A follower that takes the leader of `term` for its leader, or nobody, and does not have the leader's last entry. */
  predicate Follows(n: Node, l: PeerId, term: nat, log: Log) {
    && n.role == Follower && n.term == term && (n.leaderId.None? || n.leaderId == Some(l)) && n.queue == []
    && n.box.pendingIndex == 0 && n.box.ballots == []
    && log != [] && (|n.log| < |log| || n.log[|log| - 1].term != log[|log| - 1].term)
  }

  lemma FirstEntry(l: PeerId, n: Node, term: nat, votes: set<PeerId>, log: Log, c: Conf)
    requires Stands(n, l, term, votes, log)
    ensures var n' := BecomeLeader(l, n, c); LeadsFrom(n', l, term, |log| + 1, c) && n'.log == log + [Entry(term, ConfChange(c))]
  {
    var n' := BecomeLeader(l, n, c);
    assert Entries(term, [ConfChange(c)]) == [Entry(term, ConfChange(c))];
    assert [] + [Write(n'.log, Some(LeaderStable(|log| + 1, |n'.log|)))] == n'.queue;
    assert n'.queue[1..] == [] && Dones(n'.queue[1..]) == [];
  }

  lemma CalmTerms(r: seq<State>, id: PeerId, term: nat, c: Conf)
    requires Run(r, c) && id in Last(r).nodes && Calm(Last(r).nodes[id], term)
    ensures TermsBelow(Last(r).nodes[id].log, term + 1)
  {
    RaftSafety.NodeAt(r, |r| - 1, id, c);
    var n := Last(r).nodes[id];
    assert VersionOk(Versions(n)[0], n.term, Last(r).hist);
  }

  lemma QuorumNotEmpty(ids: set<PeerId>, c: Conf)
    requires Granted(ids, c)
    ensures ids != {}
  {
    assert ids == {} ==> ids * c.peers == {};
  }

  lemma StandsNow(l: PeerId, n: Node, term: nat)
    requires Calm(n, term)
    ensures Stands(ElectSelf(l, n), l, term + 1, {}, n.log)
    ensures var n' := ElectSelf(l, n); Stands(n'.(votes := n'.votes + {l}), l, term + 1, {l}, n.log)
  {
    assert {} + {l} == {l};
  }

  lemma NowFollows(n: Node, l: PeerId, term: nat, mine: Log, log: Log)
    requires HasVoted(n, l, term, mine) && TermsBelow(mine, term) && log != [] && log[|log| - 1].term == term
    ensures Follows(n, l, term, log)
  {
  }

  ghost predicate AllFollow(s: State, ids: set<PeerId>, l: PeerId, term: nat, log: Log) {
    forall p :: p in ids ==> p in s.nodes && Follows(s.nodes[p], l, term, log)
  }

  /** The candidate has the votes of all; none of the others has an entry of the new term. */
  ghost predicate Won(s: State, ids: set<PeerId>, l: PeerId, term: nat) {
    && l in ids && l in s.nodes && Stands(s.nodes[l], l, term, ids, s.nodes[l].log)
    && forall p :: p in ids && p != l ==> p in s.nodes && HasVoted(s.nodes[p], l, term, s.nodes[p].log) && TermsBelow(s.nodes[p].log, term)
  }

  lemma AllCalmTerms(r: seq<State>, ids: set<PeerId>, term: nat, c: Conf)
    requires Run(r, c) && AllCalm(Last(r), ids, term)
    ensures forall p :: p in ids ==> p in Last(r).nodes && TermsBelow(Last(r).nodes[p].log, term + 1)
  {
    forall p | p in ids ensures p in Last(r).nodes && TermsBelow(Last(r).nodes[p].log, term + 1) { CalmTerms(r, p, term, c); }
  }

  lemma WonBy(calm: State, asks: State, voted: State, ids: set<PeerId>, l: PeerId, term: nat, log: Log)
    requires l in ids && l in voted.nodes && Stands(voted.nodes[l], l, term, ids, log)
    requires AllVoted(asks, voted, ids - {l}, l, term) && Only(calm, asks, {l})
    requires forall p :: p in ids ==> p in calm.nodes && TermsBelow(calm.nodes[p].log, term)
    ensures Won(voted, ids, l, term)
  {
  }

  /** One of the nodes gets the votes of all. */
  lemma Wins(r: seq<State>, ids: set<PeerId>, c: Conf) returns (q: seq<State>, l: PeerId, term: nat)
    requires Run(r, c) && ids != {} && ids <= Last(r).nodes.Keys && forall p :: p in ids ==> c.Contains(p)
    ensures Extends(r, q, ids, c) && q != [] && term > 0 && Won(Last(q), ids, l, term)
  {
    var t := SomeTerm(Last(r), ids);
    var calm := CalmedAll(r, ids, t, c);
    RunOf(r, calm, ids, c);
    AllCalmTerms(calm, ids, t, c);
    l := BestOf(Last(calm), ids);
    term := t + 1;
    var log := Last(calm).nodes[l].log;
    hide Stands, HasVoted, Run, Extends, Only, Asks, Calm, TermsBelow, IdAtMost, AllVoted, Won;
    var asks := Candidacy(calm, l, ids, t, c);
    RunOf(calm, asks, {l}, c);
    q := VotesOf(asks, l, ids - {l}, term, {l}, log, c);
    AllOfThem(ids, l);
    WonBy(Last(calm), Last(asks), Last(q), ids, l, term, log);
    ExtendsTrans(r, calm, asks, ids, {l}, c);
    ExtendsTrans(r, asks, q, ids + {l}, ids, c);
  }

  lemma AllOfThem(ids: set<PeerId>, l: PeerId)
    requires l in ids
    ensures {l} + (ids - {l}) == ids && ids - {l} + {l} == ids && ids + {l} == ids && ids + ids == ids
  {
  }

  /** One of any quorum can come to lead all of it. */
  lemma Elected(r: seq<State>, ids: set<PeerId>, c: Conf) returns (q: seq<State>, l: PeerId, term: nat)
    requires Run(r, c) && Granted(ids, c) && ids <= Last(r).nodes.Keys && forall p :: p in ids ==> c.Contains(p)
    ensures Extends(r, q, ids, c) && q != [] && l in ids && l in Last(q).nodes
    ensures LeadsFrom(Last(q).nodes[l], l, term, |Last(q).nodes[l].log|, c) && term > 0
    ensures AllFollow(Last(q), ids - {l}, l, term, Last(q).nodes[l].log)
  {
    QuorumNotEmpty(ids, c);
    var won;
    won, l, term := Wins(r, ids, c);
    RunOf(r, won, ids, c);
    FirstEntry(l, Last(won).nodes[l], term, ids, Last(won).nodes[l].log, c);
    q := DoLead(won, l, c);
    RunOf(won, q, {l}, c);
    NowAllFollow(Last(won), Last(q), ids, l, term);
    hide Run, Extends, LeadsFrom, AllFollow, BecomeLeader, Granted, Won, Only;
    ExtendsTrans(r, won, q, ids, {l}, c);
    AllOfThem(ids, l);
  }

  lemma NowAllFollow(s: State, t: State, ids: set<PeerId>, l: PeerId, term: nat)
    requires Won(s, ids, l, term) && Only(s, t, {l}) && t.nodes[l].log != [] && t.nodes[l].log[|t.nodes[l].log| - 1].term == term
    ensures AllFollow(t, ids - {l}, l, term, t.nodes[l].log)
  {
    forall p | p in ids - {l} ensures p in t.nodes && Follows(t.nodes[p], l, term, t.nodes[l].log) {
      NowFollows(s.nodes[p], l, term, s.nodes[p].log, t.nodes[l].log);
    }
  }

  /** The best of the calm nodes asks for the votes of the others. */
  lemma Candidacy(r: seq<State>, l: PeerId, ids: set<PeerId>, t: nat, c: Conf) returns (q: seq<State>)
    requires Run(r, c) && AllCalm(Last(r), ids, t) && l in ids && c.Contains(l)
    requires forall p :: p in ids ==> IdAtMost(LastId(Last(r).nodes[p].log), LastId(Last(r).nodes[l].log))
    ensures Extends(r, q, {l}, c) && q != [] && Asks(Last(q), l, ids - {l}, t + 1, {l}, Last(r).nodes[l].log)
  {
    StandsNow(l, Last(r).nodes[l], t);
    var mid := DoElect(r, l, c);
    RunOf(r, mid, {l}, c);
    q := DoGrantSelf(mid, l, c);
    RunOf(mid, q, {l}, c);
    hide Stands, Calm, Extends, Run, ElectSelf, IdAtMost;
    ExtendsTrans(r, mid, q, {l}, {l}, c);
  }
}
