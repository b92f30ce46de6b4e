/** Safety of whole runs: one leader per term, matching logs, completeness of leaders, agreement of state machines. */
module RaftSafety {
  import opened Quorum
  import opened LogTypes
  import opened BallotSpec
  import opened RaftNode
  import opened RaftHistory
  import opened RaftGrowth
  import opened RaftInvariant
  import opened RaftSteps
  import opened RaftProtocol
  import opened RaftActions
  import opened RaftLeaders

  lemma InitInv(s: State, c: Conf)
    requires Init(s)
    ensures Inv(s, c)
  {
    forall id | id in s.nodes ensures NodeInv(id, s.nodes[id], s.hist, c) {
      var n := s.nodes[id];
      assert Versions(n) == [[]];
      EvolvesRefl([], 0, s.hist);
    }
  }

  // Each group of actions, from Enabled and Apply to the lemma about it.

  lemma CandidateSteps(s: State, s': State, id: PeerId, a: Action, c: Conf)
    requires Inv(s, c) && Step(s, s', id, a, c)
    requires a.Elect? || a.TornElect? || a.GrantSelf? || a.Lead?
    ensures Inv(s', c)
  {
    hide Inv, Moves;
    match a
    case Elect(last) => ElectKeeps(s, s', id, last, c);
    case TornElect(last) => TornElectKeeps(s, s', id, last, c);
    case GrantSelf => GrantSelfKeeps(s, s', id, c);
    case Lead => LeadKeeps(s, s', id, c);
  }

  lemma VoteSteps(s: State, s': State, id: PeerId, a: Action, c: Conf)
    requires Inv(s, c) && Step(s, s', id, a, c) && a.Vote?
    ensures Inv(s', c)
  {
    hide Inv, Moves;
    var n := s.nodes[id];
    VoteCases(n, a.vreq, a.last, a.votable);
    if Casts(n, a.vreq, a.last, a.votable) {
      CastStep(s, s', id, a.vreq, a.last, c);
    } else {
      NoCastStep(s, s', id, a.vreq, HandleVote(n, a.vreq, a.last, a.votable), c);
    }
  }

  lemma LeaderSteps(s: State, s': State, id: PeerId, a: Action, c: Conf)
    requires Inv(s, c) && Step(s, s', id, a, c)
    requires a.TakeVote? || a.Propose? || a.Send? || a.TakeReply? || a.GiveUp?
    ensures Inv(s', c)
  {
    hide Inv, Moves;
    match a
    case TakeVote(r, withSelf) => TakeVoteKeeps(s, s', id, r, withSelf, c);
    case Propose(payloads) => ProposeKeeps(s, s', id, payloads, c);
    case Send(prev, count) => SendKeeps(s, s', id, prev, count, c);
    case TakeReply(r, first) => ReplyKeeps(s, s', id, r, first, c);
    case GiveUp(term) => GiveUpKeeps(s, s', id, term, c);
  }

  lemma FollowerSteps(s: State, s': State, id: PeerId, a: Action, c: Conf)
    requires Inv(s, c) && Step(s, s', id, a, c)
    requires a.Receive? || a.DiskTask? || a.RunClosure? || a.Deliver? || a.Crash?
    ensures Inv(s', c)
  {
    hide Inv, Moves;
    match a
    case Receive(req, seen) => ReceiveKeeps(s, s', id, req, seen, c);
    case DiskTask => DiskKeeps(s, s', id, c);
    case RunClosure(i) => ClosureKeeps(s, s', id, i, c);
    case Deliver => DeliverKeeps(s, s', id, c);
    case Crash(disk) => CrashKeeps(s, s', id, disk, c);
  }

  /** Every step of every node keeps the invariant. */
  lemma StepInv(s: State, s': State, id: PeerId, a: Action, c: Conf)
    requires Inv(s, c) && Step(s, s', id, a, c)
    ensures Inv(s', c)
  {
    hide Inv, Step;
    match a
    case Elect(_) => CandidateSteps(s, s', id, a, c);
    case TornElect(_) => CandidateSteps(s, s', id, a, c);
    case GrantSelf => CandidateSteps(s, s', id, a, c);
    case Lead => CandidateSteps(s, s', id, a, c);
    case Vote(_, _, _) => VoteSteps(s, s', id, a, c);
    case TakeVote(_, _) => LeaderSteps(s, s', id, a, c);
    case Propose(_) => LeaderSteps(s, s', id, a, c);
    case Send(_, _) => LeaderSteps(s, s', id, a, c);
    case TakeReply(_, _) => LeaderSteps(s, s', id, a, c);
    case GiveUp(_) => LeaderSteps(s, s', id, a, c);
    case Receive(_, _) => FollowerSteps(s, s', id, a, c);
    case DiskTask => FollowerSteps(s, s', id, a, c);
    case RunClosure(_) => FollowerSteps(s, s', id, a, c);
    case Deliver => FollowerSteps(s, s', id, a, c);
    case Crash(_) => FollowerSteps(s, s', id, a, c);
  }

  lemma {:induction false} RunInv(r: seq<State>, i: nat, c: Conf)
    requires Run(r, c) && i < |r|
    ensures Inv(r[i], c)
  {
    if i == 0 {
      InitInv(r[0], c);
    } else {
      RunInv(r, i - 1, c);
      assert SomeStep(r[i - 1], r[i], c);
      var id, a :| Step(r[i - 1], r[i], id, a, c);
      StepInv(r[i - 1], r[i], id, a, c);
    }
  }

  // ----- the record only grows along a run

  lemma VoteGrows(s: State, id: PeerId, t: nat, cand: PeerId, disk: Log, c: Conf)
    requires Inv(s, c) && id in s.nodes && s.nodes[id].term <= t && (t == s.nodes[id].term ==> s.nodes[id].votedFor.None?)
    ensures Grows(s.hist, WithVote(s.hist, id, t, cand, disk))
  {
    InvNode(s, id, c);
    assert NodeVotes(id, s.nodes[id], s.hist);
  }

  lemma QuietGrows(h: History)
    ensures Grows(h, h)
  {
  }

  lemma LeaderHasLog(id: PeerId, n: Node, h: History, c: Conf)
    requires NodeInv(id, n, h, c)
    ensures n.role == Leader ==> n.term in h.leaderLog && n.log == h.leaderLog[n.term]
  {
  }

  lemma LeaderGrows(s: State, s': State, id: PeerId, a: Action, c: Conf)
    requires Inv(s, c) && Step(s, s', id, a, c) && (a.Lead? || a.Propose?)
    ensures Grows(s.hist, s'.hist)
  {
    hide Inv, HistInv, NodeInv;
    InvNode(s, id, c);
    var n := s.nodes[id];
    LeaderHasLog(id, n, s.hist, c);
    if a.Lead? {
      TermIsFree(id, n, s.hist, c);
    } else {
      assert LogGrows(n.term, s.hist, s'.hist);
    }
  }

  lemma StepGrows(s: State, s': State, id: PeerId, a: Action, c: Conf)
    requires Inv(s, c) && Step(s, s', id, a, c)
    ensures Grows(s.hist, s'.hist)
  {
    hide Inv, NodeInv, HistInv, Grows;
    InvNode(s, id, c);
    var n := s.nodes[id];
    match a
    case Elect(_) => VoteGrows(s, id, n.term + 1, id, n.disk, c);
    case Vote(req, last, votable) =>
      VoteCases(n, req, last, votable);
      if Casts(n, req, last, votable) {
        VoteGrows(s, id, req.term, req.cand, n.disk, c);
      } else {
        QuietGrows(s.hist);
      }
    case Lead => LeaderGrows(s, s', id, a, c);
    case Propose(_) => LeaderGrows(s, s', id, a, c);
    case DiskTask =>
      QueuedIsValid(id, n, s.hist, c);
      DiskGrows(id, n, DiskStep(n).disk, s.hist);
    case Crash(disk) =>
      QueuedIsValid(id, n, s.hist, c);
      DiskGrows(id, n, disk, s.hist);
    case RunClosure(i) => AckGrows(s.hist, id, n, n.ready[i]);
    case Deliver => DeliverGrows(s.hist, Delivery(id, n.applied + 1, n.log[n.applied]));
    case _ => QuietGrows(s.hist);
  }

  lemma DeliverGrows(h: History, d: Delivery)
    ensures Grows(h, WithDelivery(h, d))
  {
  }

  lemma GrowsTrans(a: History, b: History, d: History)
    requires Grows(a, b) && Grows(b, d)
    ensures Grows(a, d)
  {
    forall t | t in a.leaderLog ensures LogGrows(t, a, d) {
      assert LogGrows(t, a, b) && LogGrows(t, b, d);
      PrefixTrans(a.leaderLog[t], b.leaderLog[t], d.leaderLog[t]);
    }
    forall n | n in a.disks ensures DisksGrow(n, a, d) {
      assert DisksGrow(n, a, b) && DisksGrow(n, b, d);
    }
  }

  lemma {:induction false} RunGrows(r: seq<State>, i: nat, j: nat, c: Conf)
    requires Run(r, c) && i <= j < |r|
    ensures Grows(r[i].hist, r[j].hist)
    decreases j
  {
    hide Inv, Grows;
    if i == j {
      QuietGrows(r[i].hist);
    } else {
      RunGrows(r, i, j - 1, c);
      RunInv(r, j - 1, c);
      assert SomeStep(r[j - 1], r[j], c);
      var id, a :| Step(r[j - 1], r[j], id, a, c);
      StepGrows(r[j - 1], r[j], id, a, c);
      GrowsTrans(r[i].hist, r[j - 1].hist, r[j].hist);
    }
  }

  // ----- the main theorems, over every run of any group with one fixed configuration

  lemma NodeAt(r: seq<State>, i: nat, id: PeerId, c: Conf)
    requires Run(r, c) && i < |r| && id in r[i].nodes
    ensures Inv(r[i], c) && HistInv(r[i].hist, c) && NodeInv(id, r[i].nodes[id], r[i].hist, c)
  {
    RunInv(r, i, c);
    InvNode(r[i], id, c);
  }

  /** Election safety: at any two moments of a run, two leaders of one term are the same node. */
  lemma OneLeaderPerTerm(r: seq<State>, i: nat, j: nat, a: PeerId, b: PeerId, c: Conf)
    requires Run(r, c) && i <= j < |r| && a in r[i].nodes && b in r[j].nodes
    requires r[i].nodes[a].role == Leader && r[j].nodes[b].role == Leader
    requires r[i].nodes[a].term == r[j].nodes[b].term
    ensures a == b
  {
    NodeAt(r, i, a, c);
    NodeAt(r, j, b, c);
    RunGrows(r, i, j, c);
  }

  /** Whoever sends entries in a term is the leader the receiver follows: the conflict branch is dead. */
  lemma NoSecondLeader(r: seq<State>, i: nat, id: PeerId, req: AppendRequest, c: Conf)
    requires Run(r, c) && i < |r| && id in r[i].nodes
    requires AppendReq(req) in r[i].msgs && req.src != id && req.term >= r[i].nodes[id].term
    ensures CheckStepDown(r[i].nodes[id], req.term, req.src).leaderId == Some(req.src)
  {
    hide Inv, NodeInv, HistInv, Run, HandleAppend, CheckStepDown;
    NodeAt(r, i, id, c);
    InvMsg(r[i], AppendReq(req), c);
    FollowsSender(id, r[i].nodes[id], req, r[i].hist, c);
  }

  /** The log manager is never asked to cut what was applied, however far its own applied index lags behind. */
  lemma NeverFatal(r: seq<State>, i: nat, id: PeerId, req: AppendRequest, c: Conf)
    requires Run(r, c) && i < |r| && id in r[i].nodes
    requires AppendReq(req) in r[i].msgs && req.src != id
    ensures forall seen: nat :: seen <= r[i].nodes[id].applied ==> ReceiveAppend(id, r[i].nodes[id], req, seen).Handled?
  {
    hide Inv, NodeInv, HistInv, Run, HandleAppend, CheckStepDown;
    NodeAt(r, i, id, c);
    InvMsg(r[i], AppendReq(req), c);
    hide ReceiveAppend;
    forall seen: nat | seen <= r[i].nodes[id].applied ensures ReceiveAppend(id, r[i].nodes[id], req, seen).Handled? {
      LateNodeKeeps(id, r[i].nodes[id], req, seen, r[i].hist, c);
    }
  }

  lemma LogAt(r: seq<State>, i: nat, j: nat, a: PeerId, c: Conf)
    requires Run(r, c) && i <= j < |r| && a in r[i].nodes
    ensures ValidLog(r[i].nodes[a].log, r[j].hist) && ValidLog(r[i].nodes[a].disk, r[j].hist)
    ensures LeaderLogsInv(r[j].hist)
  {
    NodeAt(r, i, a, c);
    RunInv(r, j, c);
    RunGrows(r, i, j, c);
    LogIsVersion(a, r[i].nodes[a], r[i].hist);
    QueuedIsValid(a, r[i].nodes[a], r[i].hist, c);
    ValidGrows(r[i].nodes[a].log, r[i].hist, r[j].hist);
    ValidGrows(r[i].nodes[a].disk, r[i].hist, r[j].hist);
  }

  /** Log matching, across nodes and across time, in memory and on disk. */
  lemma LogsMatch(r: seq<State>, i: nat, j: nat, a: PeerId, b: PeerId, k: nat, c: Conf)
    requires Run(r, c) && i <= j < |r| && a in r[i].nodes && b in r[j].nodes
    ensures var x, y := r[i].nodes[a], r[j].nodes[b];
      && (1 <= k && TermAt(x.log, k) == TermAt(y.log, k) != 0 ==> x.log[..k] == y.log[..k])
      && (1 <= k && TermAt(x.disk, k) == TermAt(y.disk, k) != 0 ==> x.disk[..k] == y.disk[..k])
  {
    hide Run, ValidLog;
    LogAt(r, i, j, a, c);
    LogAt(r, j, j, b, c);
    var x, y := r[i].nodes[a], r[j].nodes[b];
    if 1 <= k && TermAt(x.log, k) == TermAt(y.log, k) != 0 { LogMatching(x.log, y.log, k, r[j].hist); }
    if 1 <= k && TermAt(x.disk, k) == TermAt(y.disk, k) != 0 { LogMatching(x.disk, y.disk, k, r[j].hist); }
  }

  /** Terms never decrease along a log. */
  lemma TermsRise(r: seq<State>, i: nat, a: PeerId, k: nat, m: nat, c: Conf)
    requires Run(r, c) && i < |r| && a in r[i].nodes && k <= m < |r[i].nodes[a].log|
    ensures r[i].nodes[a].log[k].term <= r[i].nodes[a].log[m].term <= r[i].nodes[a].term
  {
    LogAt(r, i, i, a, c);
    NodeAt(r, i, a, c);
    TermsMonotone(r[i].nodes[a].log, k, m, r[i].hist);
    LogIsVersion(a, r[i].nodes[a], r[i].hist);
  }

  lemma CommittedAt(r: seq<State>, i: nat, j: nat, a: PeerId, c: Conf)
    requires Run(r, c) && i <= j < |r| && a in r[i].nodes
    ensures HistInv(r[j].hist, c)
    ensures var n := r[i].nodes[a];
      n.applied <= n.box.committed <= |n.log| && Known(n.log[..n.box.committed], n.term, r[j].hist, c)
  {
    var n := r[i].nodes[a];
    NodeAt(r, i, a, c);
    RunInv(r, j, c);
    RunGrows(r, i, j, c);
    KnownGrows(n.log[..n.box.committed], n.term, n.term, r[i].hist, r[j].hist, c);
  }

  /** Leader completeness: what any node has committed is in the log of every leader of that or a later term, from then on. */
  lemma LeadersHoldCommitted(r: seq<State>, i: nat, j: nat, a: PeerId, b: PeerId, c: Conf)
    requires Run(r, c) && i <= j < |r| && a in r[i].nodes && b in r[j].nodes
    requires r[j].nodes[b].role == Leader && r[j].nodes[b].term >= r[i].nodes[a].term
    ensures r[i].nodes[a].box.committed <= |r[i].nodes[a].log|
    ensures r[i].nodes[a].log[..r[i].nodes[a].box.committed] <= r[j].nodes[b].log
  {
    var n, t := r[i].nodes[a], r[j].nodes[b].term;
    CommittedAt(r, i, j, a, c);
    NodeAt(r, j, b, c);
    QuietGrows(r[j].hist);
    KnownGrows(n.log[..n.box.committed], n.term, t, r[j].hist, r[j].hist, c);
    KnownInLeaderLog(n.log[..n.box.committed], t, r[j].hist, c);
  }

  lemma KnownAgree(x: Log, y: Log, t: nat, u: nat, k: nat, h: History, c: Conf)
    requires HistInv(h, c) && Known(x, t, h, c) && Known(y, u, h, c) && k < |x| && k < |y|
    ensures x[k] == y[k]
  {
    var t1: nat, k1: nat :| t1 <= t && Chosen(t1, k1, h, c) && x <= h.leaderLog[t1][..k1];
    var t2: nat, k2: nat :| t2 <= u && Chosen(t2, k2, h, c) && y <= h.leaderLog[t2][..k2];
    ChosenAgree(t1, k1, t2, k2, k, h, c);
    assert x[k] == h.leaderLog[t1][..k1][k] && y[k] == h.leaderLog[t2][..k2][k];
  }

  /** State-machine safety: two nodes never commit different entries at one index, at any two moments. */
  lemma CommittedAgree(r: seq<State>, i: nat, j: nat, a: PeerId, b: PeerId, k: nat, c: Conf)
    requires Run(r, c) && i <= j < |r| && a in r[i].nodes && b in r[j].nodes
    requires k < r[i].nodes[a].box.committed && k < r[j].nodes[b].box.committed
    ensures k < |r[i].nodes[a].log| && k < |r[j].nodes[b].log| && r[i].nodes[a].log[k] == r[j].nodes[b].log[k]
  {
    hide Run, HistInv, Known;
    var x, y := r[i].nodes[a], r[j].nodes[b];
    CommittedAt(r, i, j, a, c);
    CommittedAt(r, j, j, b, c);
    KnownAgree(x.log[..x.box.committed], y.log[..y.box.committed], x.term, y.term, k, r[j].hist, c);
  }

  /** Whatever was handed to any state machine at one index, before or after restarts, is one entry. */
  lemma DeliveredAgree(r: seq<State>, i: nat, d1: Delivery, d2: Delivery, c: Conf)
    requires Run(r, c) && i < |r| && d1 in r[i].hist.delivered && d2 in r[i].hist.delivered && d1.index == d2.index
    ensures d1.entry == d2.entry
  {
    RunInv(r, i, c);
    DeliveriesAgree(d1, d2, r[i].hist, c);
  }
}
