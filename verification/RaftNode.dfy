/** What each handler of node.cpp does to the state of one node, as functions. */
module RaftNode {
  import opened Quorum
  import opened LogTypes
  import opened BallotSpec

  datatype Role = Follower | Candidate | Leader

  /** Closures that run once the disk queue has passed them. */
  datatype Stable =
    | FollowerStable(term: nat, upTo: nat, committed: nat)
    | LeaderStable(first: nat, last: nat)

  /** One task of the disk queue: the log on disk after it, and the closure it carries. */
  datatype Write = Write(log: Log, done: Option<Stable>)

  datatype Node = Node(
    // durable
    term: nat, votedFor: Option<PeerId>, disk: Log,
    // in memory
    role: Role, leaderId: Option<PeerId>, votes: set<PeerId>,
    log: Log, queue: seq<Write>, ready: seq<Stable>,
    box: Box, applied: nat)

  datatype VoteRequest = VoteRequest(cand: PeerId, term: nat, last: LogId)

  datatype VoteReply = VoteReply(voter: PeerId, cand: PeerId, reqTerm: nat, term: nat, granted: bool)

  datatype AppendRequest = AppendRequest(
    src: PeerId, term: nat, prev: nat, prevTerm: nat, entries: Log, committed: nat)

  /** `upTo` is the index of the last entry of the request this answers. */
  datatype AppendReply = AppendReply(
    peer: PeerId, reqTerm: nat, term: nat, success: bool, upTo: nat, hasEntries: bool)

  datatype Verdict =
    | Handled(node: Node, reply: Option<AppendReply>)
    | Fatal

  function Min(a: nat, b: nat): nat { if a <= b then a else b }

  /** Every closure of this node's own appends has run and the disk holds the whole log. */
  predicate Flushed(n: Node) {
    n.queue == [] && forall r :: r in n.ready ==> r.FollowerStable?
  }

  function StepDown(n: Node, term: nat): Node {
    var soft := n.(role := Follower, leaderId := None, votes := {},
                   box := if n.role == Leader then Cleared(n.box) else n.box);
    if term > n.term then soft.(term := term, votedFor := None) else soft
  }

  /** Closures of this node's own appends do nothing once it no longer leads. */
  function FollowerPart(ready: seq<Stable>): (r: seq<Stable>)
    ensures forall x :: x in r <==> x in ready && x.FollowerStable?
  {
    if ready == [] then []
    else if ready[0].FollowerStable? then [ready[0]] + FollowerPart(ready[1..])
    else FollowerPart(ready[1..])
  }

  /** The closures the flush runs see the new term already, so follower ones are left to be refused. */
  function ElectSelf(id: PeerId, n: Node): Node {
    n.(term := n.term + 1, votedFor := Some(id), role := Candidate, leaderId := None, votes := {},
       ready := FollowerPart(n.ready))
  }

  /** `last` is the voter's own last log id, `votable` says that its follower lease has run out. */
  function HandleVote(n: Node, req: VoteRequest, last: LogId, votable: bool): Node {
    if req.term < n.term || !votable then n
    else
      var n1 := if req.term > n.term then StepDown(n, req.term) else n;
      if IdAtMost(last, req.last) && n1.votedFor.None?
      then StepDown(n1, req.term).(votedFor := Some(req.cand))
      else n1
  }

  function VoteAnswer(id: PeerId, after: Node, req: VoteRequest): VoteReply {
    VoteReply(id, req.cand, req.term, after.term,
              req.term == after.term && after.votedFor == Some(req.cand))
  }

  function Entries(term: nat, payloads: seq<Payload>): (r: Log)
    ensures |r| == |payloads|
    ensures forall i :: 0 <= i < |r| ==> r[i] == Entry(term, payloads[i])
  {
    if payloads == [] then [] else [Entry(term, payloads[0])] + Entries(term, payloads[1..])
  }

  function FreshBallots(count: nat, conf: Conf): (r: seq<BallotView>)
    ensures |r| == count
    ensures forall i :: 0 <= i < count ==> r[i] == BallotView(conf, {})
  {
    if count == 0 then [] else FreshBallots(count - 1, conf) + [BallotView(conf, {})]
  }

  /** Entries a leader appends, one ballot each, in one disk task. */
  function LeaderAppend(n: Node, payloads: seq<Payload>, conf: Conf): Node {
    var log := n.log + Entries(n.term, payloads);
    n.(log := log,
       box := n.box.(ballots := n.box.ballots + FreshBallots(|payloads|, conf)),
       queue := n.queue + [Write(log, Some(LeaderStable(|n.log| + 1, |log|)))])
  }

  /** The leader's first entry is a configuration entry; ballots start at its index. */
  function BecomeLeader(id: PeerId, n: Node, conf: Conf): Node {
    var n1 := n.(role := Leader, leaderId := Some(id), votes := {}, box := Reset(n.box, |n.log| + 1));
    LeaderAppend(n1, [ConfChange(conf)], conf)
  }

  /** `withSelf`: the voter is the leader this candidate followed last, so it counts itself too. */
  function HandleVoteReply(id: PeerId, n: Node, r: VoteReply, withSelf: bool): Node {
    if n.role != Candidate || r.reqTerm != n.term then n
    else if r.term > n.term then StepDown(n, r.term)
    else if !r.granted then n
    else n.(votes := n.votes + {r.voter} + if withSelf then {id} else {})
  }

  function MakeAppend(id: PeerId, n: Node, prev: nat, count: nat): AppendRequest
    requires prev + count <= |n.log|
  {
    AppendRequest(id, n.term, prev, TermAt(n.log, prev), n.log[prev..prev + count], n.box.committed)
  }

  function CheckStepDown(n: Node, term: nat, src: PeerId): Node {
    var n1 := if term > n.term || n.role != Follower || n.leaderId.None? then StepDown(n, term) else n;
    if n1.leaderId.None? then n1.(leaderId := Some(src)) else n1
  }

  /** How many leading entries the log already holds, comparing terms only. */
  function MatchCount(log: Log, prev: nat, entries: Log): (c: nat)
    ensures c <= |entries|
    ensures forall i :: 0 <= i < c ==> TermAt(log, prev + 1 + i) == entries[i].term
    ensures c < |entries| ==> TermAt(log, prev + 1 + c) != entries[c].term
    decreases |entries|
  {
    if entries == [] || TermAt(log, prev + 1) != entries[0].term then 0
    else 1 + MatchCount(log, prev + 1, entries[1..])
  }

  /** LogManager::check_and_resolve_conflict and append_entries on a follower; the call fails over a gap, without an answer. */
  function FollowerAppend(n: Node, req: AppendRequest): Verdict
    requires req.entries != []
  {
    var last := req.prev + |req.entries|;
    var done := FollowerStable(n.term, last, req.committed);
    if req.prev > |n.log| then Handled(n, None)
    else if last <= n.applied then Handled(n.(ready := n.ready + [done]), None)
    else if req.prev == |n.log| then
      var log := n.log + req.entries;
      Handled(n.(log := log, queue := n.queue + [Write(log, Some(done))]), None)
    else
      var c := MatchCount(n.log, req.prev, req.entries);
      if c == |req.entries| then Handled(n.(queue := n.queue + [Write(n.log, Some(done))]), None)
      else if req.prev + c >= |n.log| then
        var log := n.log + req.entries[c..];
        Handled(n.(log := log, queue := n.queue + [Write(log, Some(done))]), None)
      else if req.prev + c < n.applied then Fatal
      else
        var kept := n.log[..req.prev + c];
        var log := kept + req.entries[c..];
        Handled(n.(log := log, queue := n.queue + [Write(kept, None), Write(log, Some(done))]), None)
  }

  function HandleAppend(id: PeerId, n: Node, req: AppendRequest): Verdict {
    var last := req.prev + |req.entries|;
    if req.term < n.term then
      Handled(n, Some(AppendReply(id, req.term, n.term, false, last, req.entries != [])))
    else
      var n1 := CheckStepDown(n, req.term, req.src);
      if n1.leaderId != Some(req.src) then
        Handled(StepDown(n1, req.term + 1),
                Some(AppendReply(id, req.term, req.term + 1, false, last, req.entries != [])))
      else if TermAt(n1.log, req.prev) != req.prevTerm then
        Handled(n1, Some(AppendReply(id, req.term, n1.term, false, last, req.entries != [])))
      else if req.entries == [] then
        Handled(n1.(box := SetCommitted(n1.box, Min(req.committed, req.prev))),
                Some(AppendReply(id, req.term, n1.term, true, last, false)))
      else FollowerAppend(n1, req)
  }

  /** The log manager may not have heard yet how far entries are applied; `seen` is what it knows. */
  function ReceiveAppend(id: PeerId, n: Node, req: AppendRequest, seen: nat): Verdict {
    match HandleAppend(id, n.(applied := seen), req)
    case Handled(node, reply) => Handled(node.(applied := n.applied), reply)
    case Fatal => Fatal
  }

  /** The disk thread finishes the oldest task. */
  function DiskStep(n: Node): Node
    requires n.queue != []
  {
    var w := n.queue[0];
    n.(disk := w.log, queue := n.queue[1..],
       ready := if w.done.Some? then n.ready + [w.done.value] else n.ready)
  }

  function RunStable(id: PeerId, n: Node, i: nat): (Node, Option<AppendReply>)
    requires i < |n.ready|
  {
    var r := n.ready[i];
    var n1 := n.(ready := n.ready[..i] + n.ready[i + 1..]);
    match r
    case FollowerStable(term, upTo, committed) =>
      if term != n.term then (n1, Some(AppendReply(id, term, n.term, false, upTo, true)))
      else (n1.(box := SetCommitted(n1.box, Min(committed, upTo))),
            Some(AppendReply(id, term, term, true, upTo, true)))
    case LeaderStable(first, last) =>
      (n1.(box := CommitAt(n1.box, first, last, id).0), None)
  }

  /** `first` is the replicator's lowest index in flight. */
  function HandleAppendReply(n: Node, r: AppendReply, first: nat): Node {
    if n.role != Leader || r.reqTerm != n.term then n
    else if !r.success then (if r.term > n.term then StepDown(n, r.term) else n)
    else if r.term != n.term || !r.hasEntries then n
    else n.(box := CommitAt(n.box, first, r.upTo, r.peer).0)
  }

  /** A disk caught in the middle of its oldest task: a shorter append or an unfinished cut. */
  predicate TornDisk(n: Node, disk: Log) {
    || disk == n.disk
    || (n.queue != [] && (n.disk <= disk <= n.queue[0].log || n.queue[0].log <= disk <= n.disk))
  }

  function Restart(n: Node, disk: Log): Node {
    Node(n.term, n.votedFor, disk, Follower, None, {}, disk, [], [], Box(0, [], 0), 0)
  }
}
