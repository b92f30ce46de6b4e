/** The handlers of node.cpp as they update one node in place, against the functions of RaftNode. */
module NodeHandlers {
  import opened Quorum
  import opened LogTypes
  import opened BallotSpec
  import opened RaftNode

  function Max(a: nat, b: nat): nat { if a <= b then b else a }

  function LastOf(req: AppendRequest): nat { req.prev + |req.entries| }

  function Refusal(id: PeerId, req: AppendRequest, term: nat): AppendReply {
    AppendReply(id, req.term, term, false, LastOf(req), req.entries != [])
  }

  predicate Positive(entries: Log) { forall i :: 0 <= i < |entries| ==> entries[i].term > 0 }

  /** The request cuts below what is applied: it reaches beyond that, but differs from the log before it. */
  predicate CutsApplied(log: Log, applied: nat, req: AppendRequest) {
    var c := MatchCount(log, req.prev, req.entries);
    req.prev <= |log| && LastOf(req) > applied && c < |req.entries| && req.prev + c < |log| && req.prev + c < applied
  }

  /** What is written once the request is fitted in: first the cut, if anything is cut, then the log with the closure. */
  function Written(was: Log, now: Log, req: AppendRequest, done: Stable): seq<Write> {
    var c := MatchCount(was, req.prev, req.entries);
    (if c < |req.entries| && req.prev + c < |was| then [Write(was[..req.prev + c], None)] else []) + [Write(now, Some(done))]
  }

  /** The log up to the first entry that differs, and the request from there on; a log that has all of the request stays. */
  predicate Fitted(was: Log, now: Log, req: AppendRequest) {
    var c := MatchCount(was, req.prev, req.entries);
    req.prev + c <= |was| && now == if c == |req.entries| then was else was[..req.prev + c] + req.entries[c..]
  }

  /** How a request with entries ends: over a gap nothing happens, and what is applied anyway is answered once the disk gets there. */
  predicate Placed(n: Node, m: Node, req: AppendRequest, fatal: bool) {
    var done := FollowerStable(n.term, LastOf(req), req.committed);
    && (fatal <==> CutsApplied(n.log, n.applied, req))
    && if fatal || req.prev > |n.log| then m.log == n.log && m.queue == n.queue && m.ready == n.ready
       else if LastOf(req) <= n.applied then m.log == n.log && m.queue == n.queue && m.ready == n.ready + [done]
       else Fitted(n.log, m.log, req) && m.ready == n.ready && m.queue == n.queue + Written(n.log, m.log, req, done)
  }

  /** What matches lies in the log. */
  lemma MatchEnds(log: Log, req: AppendRequest)
    requires Positive(req.entries)
    ensures var c := MatchCount(log, req.prev, req.entries);
      (req.prev <= |log| ==> req.prev + c <= |log|) && (req.prev == |log| && req.entries != [] ==> c == 0)
  {
    var c := MatchCount(log, req.prev, req.entries);
    if c > 0 { assert TermAt(log, req.prev + 1 + (c - 1)) == req.entries[c - 1].term; }
  }

  lemma RequestIsPlaced(n: Node, req: AppendRequest)
    requires req.entries != [] && Positive(req.entries)
    ensures match RaftNode.FollowerAppend(n, req)
            case Fatal => Placed(n, n, req, true)
            case Handled(m, reply) => Placed(n, m, req, false) && reply == None
  {
    hide MatchCount;
    MatchEnds(n.log, req);
    assert req.prev == |n.log| ==> n.log[..|n.log|] == n.log && req.entries[0..] == req.entries;
  }

  class NodeImpl {
    const serverId: PeerId
    var state: Role
    var currentTerm: nat
    var votedId: Option<PeerId>
    var leaderId: Option<PeerId>
    var voteCtx: set<PeerId>
    var log: Log
    var disk: Log
    var queue: seq<Write>
    var ready: seq<Stable>
    var box: Box
    var applied: nat
    /** The durable cell of the meta storage. */
    var metaTerm: nat
    var metaVotedFor: Option<PeerId>

    function View(): Node reads this {
      Node(currentTerm, votedId, disk, state, leaderId, voteCtx, log, queue, ready, box, applied)
    }

    /** Votes are only held by candidates and ballots only by leaders, and the durable cell says what the node says. */
    predicate Valid() reads this {
      && (state != Candidate ==> voteCtx == {})
      && (if state == Leader then box.pendingIndex > 0 else box.pendingIndex == 0 && box.ballots == [])
      && metaTerm == currentTerm && metaVotedFor == votedId
    }

    constructor (serverId: PeerId)
      ensures Valid() && this.serverId == serverId
      ensures View() == Node(0, None, [], Follower, None, {}, [], [], [], Box(0, [], 0), 0)
    {
      this.serverId := serverId;
      state, currentTerm, votedId, leaderId, voteCtx := Follower, 0, None, None, {};
      log, disk, queue, ready, box, applied := [], [], [], [], Box(0, [], 0), 0;
      metaTerm, metaVotedFor := 0, None;
    }

    method SetTermAndVotedFor(term: nat, votedFor: Option<PeerId>)
      modifies this`metaTerm, this`metaVotedFor
      ensures metaTerm == term && metaVotedFor == votedFor
    {
      metaTerm, metaVotedFor := term, votedFor;
    }

    /** Log and disk are as they were. */
    twostate predicate SameLog() reads this {
      log == old(log) && disk == old(disk) && queue == old(queue) && ready == old(ready) && applied == old(applied)
    }

    /** The node is in term `term`, with a vote of that term only. */
    twostate predicate InTerm(term: nat) reads this {
      currentTerm == term && votedId == if term == old(currentTerm) then old(votedId) else None
    }

    /** A leader that gives way forgets its ballots, and nobody forgets what is committed. */
    twostate predicate GaveWay() reads this {
      box == if old(state) == Leader then Box(0, [], old(box).committed) else old(box)
    }

    method ResetRole()
      requires Valid()
      modifies this`voteCtx, this`box, this`leaderId, this`state
      ensures View() == old(View()).(votes := {}, leaderId := None, role := Follower,
                                     box := if old(state) == Leader then Cleared(old(box)) else old(box))
    {
      if state == Candidate {
        voteCtx := {};
      } else if state == Leader {
        box := Cleared(box);
      }
      leaderId := None;
      state := Follower;
    }

    method StepDown(term: nat)
      requires Valid()
      modifies this
      ensures Valid() && View() == RaftNode.StepDown(old(View()), term)
      ensures state == Follower && leaderId == None && InTerm(if term > old(currentTerm) then term else old(currentTerm))
      ensures SameLog() && GaveWay()
    {
      ResetRole();
      if term > currentTerm {
        currentTerm := term;
        votedId := None;
        SetTermAndVotedFor(term, votedId);
      }
    }

    method CheckStepDown(requestTerm: nat, server: PeerId)
      requires Valid()
      modifies this
      ensures Valid() && View() == RaftNode.CheckStepDown(old(View()), requestTerm, server)
      ensures state == Follower && InTerm(if requestTerm > old(currentTerm) then requestTerm else old(currentTerm))
      ensures leaderId == if requestTerm <= old(currentTerm) && old(state) == Follower && old(leaderId).Some? then old(leaderId) else Some(server)
      ensures SameLog() && GaveWay()
    {
      if requestTerm > currentTerm {
        StepDown(requestTerm);
      } else if state != Follower {
        StepDown(requestTerm);
      } else if leaderId.None? {
        StepDown(requestTerm);
      }
      if leaderId.None? { leaderId := Some(server); }
    }

    /** Own closures that the flush has run do nothing any more. */
    method DropLeaderClosures()
      modifies this`ready
      ensures ready == FollowerPart(old(ready))
    {
      var kept, i := [], 0;
      while i < |ready|
        invariant i <= |ready| && ready == old(ready)
        invariant FollowerPart(ready) == kept + FollowerPart(ready[i..])
      {
        assert ready[i..][1..] == ready[i + 1..];
        if ready[i].FollowerStable? {
          assert kept + ([ready[i]] + FollowerPart(ready[i + 1..])) == (kept + [ready[i]]) + FollowerPart(ready[i + 1..]);
          kept := kept + [ready[i]];
        }
        i := i + 1;
      }
      assert ready[i..] == [];
      ready := kept;
    }

    method StartCandidacy()
      modifies this`leaderId, this`state, this`currentTerm, this`votedId, this`voteCtx
      ensures View() == old(View()).(leaderId := None, role := Candidate, term := old(currentTerm) + 1,
                                     votedFor := Some(serverId), votes := {})
    {
      leaderId, state := None, Candidate;
      currentTerm, votedId := currentTerm + 1, Some(serverId);
      voteCtx := {};
    }

    /** The candidate's term and vote are durable when this returns, but the requests left before that. */
    method ElectSelf(last: LogId) returns (req: VoteRequest)
      requires Valid() && state != Leader
      modifies this
      ensures Valid() && View() == RaftNode.ElectSelf(serverId, old(View()))
      ensures req == VoteRequest(serverId, old(currentTerm) + 1, last)
      ensures currentTerm == old(currentTerm) + 1 && votedId == Some(serverId) && state == Candidate && leaderId == None && voteCtx == {}
      ensures log == old(log) && disk == old(disk) && queue == old(queue) && box == old(box) && applied == old(applied)
      ensures forall r :: r in ready <==> r in old(ready) && r.FollowerStable?
    {
      hide FollowerPart;
      StartCandidacy();
      DropLeaderClosures();
      req := VoteRequest(serverId, currentTerm, last);
      SetTermAndVotedFor(currentTerm, Some(serverId));
    }

    /** The vote of this term is still there, or the request opens a later one; and the candidate's log is good enough. */
    predicate MayGive(req: VoteRequest, last: LogId) reads this {
      (req.term > currentTerm || (req.term == currentTerm && votedId.None?)) && !IdLess(req.last, last)
    }

    /**
     Unless the lease is in the way, a higher term is taken over, whether the vote is given or not; the vote is given exactly
     if it may be. A granted answer is durable before it leaves.
     */
    method HandleRequestVoteRequest(req: VoteRequest, last: LogId, votable: bool) returns (reply: VoteReply)
      requires Valid()
      modifies this
      ensures Valid() && View() == HandleVote(old(View()), req, last, votable)
      ensures reply == VoteAnswer(serverId, View(), req)
      ensures reply.granted ==> metaTerm == req.term && metaVotedFor == Some(req.cand)
      ensures currentTerm == if votable && req.term > old(currentTerm) then req.term else old(currentTerm)
      ensures votedId == if votable && old(MayGive(req, last)) then Some(req.cand)
                         else if currentTerm > old(currentTerm) then None else old(votedId)
      ensures if currentTerm > old(currentTerm) || (votable && old(MayGive(req, last)))
              then state == Follower && leaderId == None && voteCtx == {} && GaveWay()
              else state == old(state) && leaderId == old(leaderId) && voteCtx == old(voteCtx) && box == old(box)
      ensures SameLog()
      ensures reply.term == currentTerm && reply.voter == serverId && reply.cand == req.cand && reply.reqTerm == req.term
      ensures reply.granted <==>
        (votable && old(MayGive(req, last))) || (req.term == old(currentTerm) && old(votedId) == Some(req.cand))
    {
      if req.term >= currentTerm && votable {
        var logIsOk := !IdLess(req.last, last);
        if req.term > currentTerm { StepDown(req.term); }
        if logIsOk && votedId.None? {
          StepDown(req.term);
          votedId := Some(req.cand);
          SetTermAndVotedFor(currentTerm, votedId);
        }
      }
      reply := VoteReply(serverId, req.cand, req.term, currentTerm, req.term == currentTerm && votedId == Some(req.cand));
    }

    method HandleRequestVoteResponse(r: VoteReply, withSelf: bool)
      requires Valid()
      modifies this
      ensures Valid() && View() == HandleVoteReply(serverId, old(View()), r, withSelf)
      ensures SameLog() && box == old(box)
      ensures old(state) != Candidate || r.reqTerm != old(currentTerm) ==> View() == old(View())
      ensures old(state) == Candidate && r.reqTerm == old(currentTerm) && r.term > old(currentTerm) ==>
        state == Follower && leaderId == None && voteCtx == {} && InTerm(r.term)
      ensures old(state) == Candidate && r.reqTerm == old(currentTerm) && r.term <= old(currentTerm) ==>
        && state == Candidate && leaderId == old(leaderId) && InTerm(old(currentTerm))
        && voteCtx == if !r.granted then old(voteCtx) else old(voteCtx) + {r.voter} + (if withSelf then {serverId} else {})
    {
      if state != Candidate { return; }
      if r.reqTerm != currentTerm { return; }
      if r.term > currentTerm {
        StepDown(r.term);
        return;
      }
      if !r.granted { return; }
      voteCtx := voteCtx + {r.voter};
      if withSelf { voteCtx := voteCtx + {serverId}; }
    }

    /** Entries of the leader's own, one pending ballot each. */
    method AppendOwn(payloads: seq<Payload>, conf: Conf)
      requires Valid() && state == Leader
      modifies this`log, this`box, this`queue
      ensures Valid() && View() == LeaderAppend(old(View()), payloads, conf)
      ensures old(log) <= log && |log| == |old(log)| + |payloads|
      ensures forall i :: 0 <= i < |payloads| ==> log[|old(log)| + i] == Entry(currentTerm, payloads[i])
      ensures box.pendingIndex == old(box).pendingIndex && box.committed == old(box).committed
      ensures old(box).ballots <= box.ballots && |box.ballots| == |old(box).ballots| + |payloads|
      ensures forall i :: |old(box).ballots| <= i < |box.ballots| ==> box.ballots[i] == BallotView(conf, {})
      ensures queue == old(queue) + [Write(log, Some(LeaderStable(|old(log)| + 1, |log|)))]
    {
      var entries, ballots, i := [], [], 0;
      while i < |payloads|
        invariant i <= |payloads| && |entries| == |ballots| == i
        invariant forall j :: 0 <= j < i ==> entries[j] == Entry(currentTerm, payloads[j]) && ballots[j] == BallotView(conf, {})
      {
        entries := entries + [Entry(currentTerm, payloads[i])];
        ballots := ballots + [BallotView(conf, {})];
        i := i + 1;
      }
      assert entries == Entries(currentTerm, payloads);
      assert ballots == FreshBallots(|payloads|, conf);
      box := box.(ballots := box.ballots + ballots);
      var first := |log| + 1;
      log := log + entries;
      queue := queue + [Write(log, Some(LeaderStable(first, |log|)))];
    }

    method BecomeLeader(conf: Conf)
      requires Valid() && state == Candidate
      modifies this
      ensures Valid() && View() == RaftNode.BecomeLeader(serverId, old(View()), conf)
      ensures state == Leader && leaderId == Some(serverId) && InTerm(old(currentTerm))
      ensures log == old(log) + [Entry(currentTerm, ConfChange(conf))]
      ensures box == Box(|log|, [BallotView(conf, {})], old(box).committed)
      ensures queue == old(queue) + [Write(log, Some(LeaderStable(|log|, |log|)))]
      ensures disk == old(disk) && ready == old(ready) && applied == old(applied)
    {
      voteCtx := {};
      state := Leader;
      leaderId := Some(serverId);
      box := Reset(box, |log| + 1);
      AppendOwn([ConfChange(conf)], conf);
    }

    method MatchCount(prev: nat, entries: Log) returns (c: nat)
      ensures c == RaftNode.MatchCount(log, prev, entries)
    {
      c := 0;
      while c < |entries| && TermAt(log, prev + 1 + c) == entries[c].term
        invariant c <= |entries|
        invariant RaftNode.MatchCount(log, prev, entries) == c + RaftNode.MatchCount(log, prev + c, entries[c..])
      {
        assert entries[c..][1..] == entries[c + 1..];
        c := c + 1;
      }
    }

    method Enqueue(newLog: Log, done: Option<Stable>)
      modifies this`log, this`queue
      ensures log == newLog && queue == old(queue) + [Write(newLog, done)]
    {
      log := newLog;
      queue := queue + [Write(newLog, done)];
    }

    method EnqueueCut(kept: Log, entries: Log, done: Stable)
      modifies this`log, this`queue
      ensures log == kept + entries && queue == old(queue) + [Write(kept, None), Write(log, Some(done))]
    {
      Enqueue(kept, None);
      Enqueue(log + entries, Some(done));
    }

    /** Fits the entries in behind what already matches; `fatal` where the process would abort. */
    method FollowerAppend(req: AppendRequest) returns (fatal: bool)
      requires Valid() && req.entries != []
      modifies this`log, this`queue, this`ready
      ensures Valid()
      ensures fatal ==> RaftNode.FollowerAppend(old(View()), req) == Fatal && View() == old(View())
      ensures !fatal ==> RaftNode.FollowerAppend(old(View()), req) == Handled(View(), None)
      ensures Positive(req.entries) ==> Placed(old(View()), View(), req, fatal)
    {
      hide RaftNode.MatchCount, Placed;
      if Positive(req.entries) { RequestIsPlaced(View(), req); }
      fatal := false;
      var last := req.prev + |req.entries|;
      var done := FollowerStable(currentTerm, last, req.committed);
      if req.prev > |log| { return; }
      if last <= applied {
        ready := ready + [done];
        return;
      }
      if req.prev == |log| {
        Enqueue(log + req.entries, Some(done));
        return;
      }
      var c := MatchCount(req.prev, req.entries);
      if c == |req.entries| {
        Enqueue(log, Some(done));
      } else if req.prev + c >= |log| {
        Enqueue(log + req.entries[c..], Some(done));
      } else if req.prev + c < applied {
        fatal := true;
      } else {
        EnqueueCut(log[..req.prev + c], req.entries[c..], done);
      }
    }

    /** Another node is followed in the term of the request. */
    predicate OtherLeader(req: AppendRequest) reads this {
      req.term == currentTerm && state == Follower && leaderId.Some? && leaderId != Some(req.src)
    }

    /** The request is heard: this node follows its sender, in its term. */
    predicate Hears(req: AppendRequest) reads this { req.term >= currentTerm && !OtherLeader(req) }

    /**
     A request of an old term is refused and changes nothing; a second leader of a term ends the term. Otherwise the sender is
     followed, in its term, and then: one that does not match is refused; one without entries commits what both the leader has
     committed and this node is known to share; one with entries is fitted in.
     */
    method HandleAppendEntriesRequest(req: AppendRequest) returns (reply: Option<AppendReply>, fatal: bool)
      requires Valid()
      modifies this
      ensures Valid()
      ensures fatal ==> HandleAppend(serverId, old(View()), req) == Fatal
      ensures !fatal ==> HandleAppend(serverId, old(View()), req) == Handled(View(), reply)
      ensures req.term < old(currentTerm) ==> !fatal && View() == old(View()) && reply == Some(Refusal(serverId, req, currentTerm))
      ensures old(OtherLeader(req)) ==>
        && !fatal && InTerm(req.term + 1) && state == Follower && leaderId == None && SameLog() && box == old(box)
        && reply == Some(Refusal(serverId, req, currentTerm))
      ensures old(Hears(req)) ==> InTerm(req.term) && state == Follower && leaderId == Some(req.src)
      ensures old(Hears(req)) && TermAt(old(log), req.prev) != req.prevTerm ==>
        !fatal && SameLog() && GaveWay() && reply == Some(Refusal(serverId, req, req.term))
      ensures old(Hears(req)) && TermAt(old(log), req.prev) == req.prevTerm && req.entries == [] ==>
        && !fatal && SameLog() && box == Box(0, [], Max(old(box).committed, Min(req.committed, req.prev)))
        && reply == Some(AppendReply(serverId, req.term, req.term, true, req.prev, false))
      ensures old(Hears(req)) && TermAt(old(log), req.prev) == req.prevTerm && req.entries != [] ==> GaveWay() && reply == None
      ensures old(Hears(req)) && TermAt(old(log), req.prev) == req.prevTerm && req.entries != [] && Positive(req.entries) ==>
        Placed(old(View()).(term := req.term), View(), req, fatal)
      ensures disk == old(disk) && applied == old(applied)
    {
      fatal := false;
      hide Fitted, Written, CutsApplied, RaftNode.MatchCount;
      var last := req.prev + |req.entries|;
      if req.term < currentTerm {
        return Some(AppendReply(serverId, req.term, currentTerm, false, last, req.entries != [])), false;
      }
      CheckStepDown(req.term, req.src);
      if leaderId != Some(req.src) {
        StepDown(req.term + 1);
        return Some(AppendReply(serverId, req.term, req.term + 1, false, last, req.entries != [])), false;
      }
      if TermAt(log, req.prev) != req.prevTerm {
        return Some(AppendReply(serverId, req.term, currentTerm, false, last, req.entries != [])), false;
      }
      if req.entries == [] {
        box := SetCommitted(box, if req.committed <= req.prev then req.committed else req.prev);
        return Some(AppendReply(serverId, req.term, currentTerm, true, last, false)), false;
      }
      fatal := FollowerAppend(req);
      reply := None;
    }

    /**
     A closure whose disk task is done: a leader counts itself, a follower answers its leader. In the same term what the leader has
     committed up to the end of the request is committed; in a later one the answer is a refusal that names it.
     */
    method RunStableClosure(i: nat) returns (reply: Option<AppendReply>)
      requires Valid() && i < |ready|
      modifies this`ready, this`box
      ensures Valid() && (View(), reply) == RunStable(serverId, old(View()), i)
      ensures ready == old(ready)[..i] + old(ready)[i + 1..]
      ensures match old(ready)[i]
              case FollowerStable(term, upTo, committed) =>
                && reply == Some(AppendReply(serverId, term, currentTerm, term == currentTerm, upTo, true))
                && box == (if state != Leader && term == currentTerm then Box(0, [], Max(old(box).committed, Min(committed, upTo)))
                           else old(box))
              case LeaderStable(first, last) => reply == None && box == CommitAt(old(box), first, last, serverId).0
    {
      var r := ready[i];
      ready := ready[..i] + ready[i + 1..];
      match r
      case FollowerStable(term, upTo, committed) =>
        if term != currentTerm { return Some(AppendReply(serverId, term, currentTerm, false, upTo, true)); }
        box := SetCommitted(box, if committed <= upTo then committed else upTo);
        reply := Some(AppendReply(serverId, term, term, true, upTo, true));
      case LeaderStable(first, last) =>
        box := CommitAt(box, first, last, serverId).0;
        reply := None;
    }
  }
}
