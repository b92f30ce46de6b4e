/** The steps of a group of nodes over a lossy, duplicating, reordering network. */
module RaftProtocol {
  import opened Quorum
  import opened LogTypes
  import opened BallotSpec
  import opened RaftNode
  import opened RaftHistory
  import opened RaftInvariant

  datatype Action =
    | Elect(last: LogId)
    | TornElect(last: LogId)
    | Vote(vreq: VoteRequest, last: LogId, votable: bool)
    | TakeVote(vrep: VoteReply, withSelf: bool)
    | GrantSelf
    | Lead
    | Propose(payloads: seq<Payload>)
    | Send(prev: nat, count: nat)
    | Receive(areq: AppendRequest, seen: nat)
    | DiskTask
    | RunClosure(i: nat)
    | TakeReply(arep: AppendReply, first: nat)
    | Deliver
    | GiveUp(term: nat)
    | Crash(disk: Log)

  // ----- what a step adds to the record

  function WithVote(h: History, id: PeerId, t: nat, cand: PeerId, disk: Log): History {
    h.(votes := h.votes[(id, t) := VoteRec(cand, disk)])
  }

  function WithLeader(h: History, t: nat, e: Election, log: Log): History {
    h.(elections := h.elections[t := e], leaderLog := h.leaderLog[t := log])
  }

  function WithLeaderLog(h: History, t: nat, log: Log): History {
    h.(leaderLog := h.leaderLog[t := log])
  }

  function WithAck(h: History, a: Ack): History { h.(acks := h.acks + {a}) }

  function WithDisk(h: History, id: PeerId, disk: Log): History {
    if id in h.disks then h.(disks := h.disks[id := h.disks[id] + {disk}]) else h
  }

  function WithDelivery(h: History, d: Delivery): History { h.(delivered := h.delivered + {d}) }

  /** A closure counts as an acknowledgement if the disk holds the leader's log up to its end. */
  function AfterClosure(h: History, id: PeerId, n: Node, r: Stable): History {
    var upTo := if r.FollowerStable? then r.upTo else r.last;
    var here := if r.FollowerStable? then r.term == n.term else n.role == Leader;
    if here && upTo >= 1 && n.term in h.leaderLog && upTo <= |h.leaderLog[n.term]| && h.leaderLog[n.term][..upTo] <= n.disk
    then WithAck(h, Ack(id, n.term, upTo))
    else h
  }

  /** The last log id a flush reports: that of any disk this node has had, as long as it is not below that of the disk now. */
  ghost predicate LastIdRead(id: PeerId, n: Node, last: LogId, h: History) {
    n.queue == [] && id in h.disks && IdAtMost(LastId(n.disk), last) && exists d :: d in h.disks[id] && LastId(d) == last
  }

  /** HandleVote gives its vote away. */
  predicate Casts(n: Node, req: VoteRequest, last: LogId, votable: bool) {
    req.term >= n.term && votable && IdAtMost(last, req.last) && (req.term > n.term || n.votedFor.None?)
  }

  // ----- one step of one node: when it may happen, and the node, messages and record after it

  datatype Effect = Effect(node: Node, sent: set<Msg>, hist: History)

  function VoteEffect(id: PeerId, n: Node, req: VoteRequest, last: LogId, votable: bool, h: History): Effect {
    var n' := HandleVote(n, req, last, votable);
    var cast := n'.votedFor == Some(req.cand) && (n'.term != n.term || n.votedFor.None?);
    Effect(n', {VoteRep(VoteAnswer(id, n', req))}, if cast then WithVote(h, id, n'.term, req.cand, n.disk) else h)
  }

  ghost predicate Enabled(id: PeerId, n: Node, a: Action, h: History, msgs: set<Msg>, c: Conf) {
    match a
    case Elect(last) => n.role != Leader && c.Contains(id) && LastIdRead(id, n, last, h)
    case TornElect(last) => n.role != Leader && c.Contains(id) && LastIdRead(id, n, last, h)
    case Vote(req, last, votable) => VoteReq(req) in msgs && (Casts(n, req, last, votable) ==> LastIdRead(id, n, last, h))
    case TakeVote(r, withSelf) => VoteRep(r) in msgs && r.cand == id
    case GrantSelf => n.role == Candidate
    case Lead => n.role == Candidate && Granted(n.votes, c)
    case Propose(payloads) => n.role == Leader && payloads != [] && forall p :: p in payloads ==> p.Data?
    case Send(prev, count) => n.role == Leader && prev + count <= |n.log|
    case Receive(req, seen) => AppendReq(req) in msgs && req.src != id && seen <= n.applied
    case DiskTask => n.queue != []
    case RunClosure(i) => i < |n.ready|
    case TakeReply(r, first) => AppendRep(r) in msgs
    case Deliver => n.applied < n.box.committed && n.applied < |n.log|
    case GiveUp(term) => true
    case Crash(disk) => TornDisk(n, disk)
  }

  ghost function Apply(id: PeerId, n: Node, a: Action, h: History, msgs: set<Msg>, c: Conf): Effect
    requires Enabled(id, n, a, h, msgs, c)
  {
    match a
    case Elect(last) =>
      Effect(ElectSelf(id, n), {VoteReq(VoteRequest(id, n.term + 1, last))}, WithVote(h, id, n.term + 1, id, n.disk))
    case TornElect(last) =>
      Effect(Restart(n, n.disk), {VoteReq(VoteRequest(id, n.term + 1, last))}, h)
    case Vote(req, last, votable) => VoteEffect(id, n, req, last, votable, h)
    case TakeVote(r, withSelf) => Effect(HandleVoteReply(id, n, r, withSelf), {}, h)
    case GrantSelf => Effect(n.(votes := n.votes + {id}), {}, h)
    case Lead =>
      var n' := BecomeLeader(id, n, c);
      Effect(n', {}, WithLeader(h, n.term, Election(id, n.votes, n.log), n'.log))
    case Propose(payloads) =>
      var n' := LeaderAppend(n, payloads, c);
      Effect(n', {}, WithLeaderLog(h, n.term, n'.log))
    case Send(prev, count) => Effect(n, {AppendReq(MakeAppend(id, n, prev, count))}, h)
    case Receive(req, seen) =>
      var v := ReceiveAppend(id, n, req, seen);
      if v.Fatal? then Effect(n, {}, h)
      else Effect(v.node, if v.reply.Some? then {AppendRep(v.reply.value)} else {}, h)
    case DiskTask =>
      var n' := DiskStep(n);
      Effect(n', {}, WithDisk(h, id, n'.disk))
    case RunClosure(i) =>
      var r := RunStable(id, n, i);
      Effect(r.0, if r.1.Some? then {AppendRep(r.1.value)} else {}, AfterClosure(h, id, n, n.ready[i]))
    case TakeReply(r, first) => Effect(HandleAppendReply(n, r, first), {}, h)
    case Deliver =>
      Effect(n.(applied := n.applied + 1), {}, WithDelivery(h, Delivery(id, n.applied + 1, n.log[n.applied])))
    case GiveUp(term) => Effect(StepDown(n, term), {}, h)
    case Crash(disk) => Effect(Restart(n, disk), {}, WithDisk(h, id, disk))
  }

  /** The acting node changes as `e` says; every other node stays; some messages may get lost. */
  ghost predicate Moves(s: State, s': State, id: PeerId, e: Effect) {
    && s'.nodes == s.nodes[id := e.node]
    && s'.msgs <= s.msgs + e.sent
    && s'.hist == e.hist
  }

  /** Node `id` takes step `a`; the network may drop any message, and keeps the others for good. */
  ghost predicate Step(s: State, s': State, id: PeerId, a: Action, c: Conf) {
    && id in s.nodes
    && Enabled(id, s.nodes[id], a, s.hist, s.msgs, c)
    && Moves(s, s', id, Apply(id, s.nodes[id], a, s.hist, s.msgs, c))
  }

  function FreshNode(): Node {
    Node(0, None, [], Follower, None, {}, [], [], [], Box(0, [], 0), 0)
  }

  ghost predicate Init(s: State) {
    && (forall id :: id in s.nodes ==> s.nodes[id] == FreshNode())
    && s.msgs == {}
    && s.hist == History(map[], map[], map[], {}, map id | id in s.nodes :: {[]}, {})
  }

  ghost predicate SomeStep(s: State, s': State, c: Conf) {
    exists id, a :: Step(s, s', id, a, c)
  }

  /** A finite run: it starts fresh and every two neighbours are one step apart. */
  ghost predicate Run(r: seq<State>, c: Conf) {
    && r != [] && Init(r[0])
    && forall i :: 0 < i < |r| ==> SomeStep(r[i - 1], r[i], c)
  }
}
