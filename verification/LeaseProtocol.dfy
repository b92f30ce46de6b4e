/**
 Elections under leader leases: terms, votes, contacts and clocks of a whole group.
 Logs are left abstract: whether a candidate's log is good enough, or an entry is stored, is up to the step.
 */
module LeaseProtocol {
  import opened Quorum
  import opened Leases
  import R = RaftNode

  /** `clk(p, i)` is what the clock of `p` shows at the i-th step of the run. */
  datatype World = World(conf: Conf, et: nat, drift: nat, clk: (PeerId, nat) -> int)

  ghost predicate Forward(w: World, p: PeerId, i: nat, j: nat) {
    i <= j ==> 0 <= w.clk(p, i) <= w.clk(p, j)
  }

  /** While one clock advances less than an election timeout, any other advances less than that plus the drift. */
  ghost predicate InStep(w: World, p: PeerId, q: PeerId, i: nat, j: nat) {
    i <= j && w.clk(p, j) - w.clk(p, i) < w.et ==> w.clk(q, j) - w.clk(q, i) < w.et + w.drift
  }

  ghost predicate GoodClocks(w: World) {
    && (forall p, i, j {:trigger Forward(w, p, i, j)} :: Forward(w, p, i, j))
    && (forall p, q, i, j {:trigger InStep(w, p, q, i, j)} :: InStep(w, p, q, i, j))
  }

  /** A node belongs to the configuration, and in the joint stage to both halves of it. */
  predicate FullMember(c: Conf, p: PeerId) { p in c.peers && (c.Stable() || p in c.oldPeers) }

  /** `lastActive` is the leader lease, `lastLeader` and `lastTs` are the follower lease. */
  datatype Peer = Peer(
    term: nat, votedFor: Option<PeerId>, role: R.Role, leaderId: Option<PeerId>,
    votes: set<PeerId>, disrupted: Option<(PeerId, nat)>,
    lastLeader: Option<PeerId>, lastTs: int,
    lastActive: int, stamps: Stamps, firstAcks: set<PeerId>)

  datatype Message =
    | VoteReq(cand: PeerId, term: nat, disrupted: Option<(PeerId, nat)>)
    | VoteRep(voter: PeerId, cand: PeerId, reqTerm: nat, term: nat, granted: bool, rejectedByLease: bool, disrupts: bool, previousTerm: nat)
    | Append(src: PeerId, term: nat, sent: nat, first: bool)
    | Ack(peer: PeerId, term: nat, sent: nat, stored: bool)

  /** `peer` heard at step `got` what the leader of `term` had sent at step `sent`. */
  datatype Receipt = Receipt(peer: PeerId, leader: PeerId, term: nat, sent: nat, got: nat)

  datatype Election = Election(winner: PeerId, voters: set<PeerId>, at: nat)

  /** `counted` dates the moment a vote could first be counted; `left` lists leaderships that ended. */
  datatype Record = Record(
    votes: map<(PeerId, nat), PeerId>, counted: map<(PeerId, nat), nat>,
    elections: map<nat, Election>, receipts: set<Receipt>, left: set<(PeerId, nat)>)

  datatype Group = Group(peers: map<PeerId, Peer>, msgs: set<Message>, rec: Record, now: nat)

  datatype Action =
    | Elect
    | Ask
    | GrantSelf
    | Vote(req: Message, logOk: bool)
    | TakeVote(rep: Message)
    | Lead(stamps: Stamps)
    | Send(first: bool)
    | Receive(app: Message, stored: bool)
    | TakeAck(ack: Message)
    | StartLease(t: int)
    | Renew(t: int)
    | GiveUp(term: nat)
    | Restart

  predicate LeaseValid(id: PeerId, n: Peer, w: World, now: nat) {
    n.role == R.Leader && n.lastActive != 0 && w.clk(id, now) - n.lastActive < w.et
  }

  predicate Votable(id: PeerId, n: Peer, w: World, now: nat) {
    w.clk(id, now) - n.lastTs >= w.et + w.drift
  }

  /** Plain: the one majority; joint: the earlier of the two. */
  ghost predicate ActiveSince(n: Peer, id: PeerId, w: World, now: nat, t: int) {
    var clock := w.clk(id, now);
    if w.conf.Stable() then IsActiveSince(n.stamps, w.conf.peers, id, clock, t)
    else exists a, b ::
      && IsActiveSince(n.stamps, w.conf.peers, id, clock, a) && IsActiveSince(n.stamps, w.conf.oldPeers, id, clock, b)
      && t == if a <= b then a else b
  }

  function StepDown(n: Peer, term: nat): Peer {
    var soft := n.(role := R.Follower, leaderId := None, votes := {}, disrupted := None,
                   lastActive := 0, stamps := map[], firstAcks := {});
    if term > n.term then soft.(term := term, votedFor := None) else soft
  }

  function ElectSelf(id: PeerId, n: Peer): Peer {
    StepDown(n, n.term + 1).(votedFor := Some(id), role := R.Candidate)
  }

  /** A candidate that names the leader it has already disrupted ends this follower's lease. */
  function AfterDisruption(n: Peer, req: Message): Peer
    requires req.VoteReq?
  {
    if n.role == R.Follower && req.disrupted.Some? && n.term == req.disrupted.value.1
       && n.leaderId == Some(req.disrupted.value.0)
    then n.(lastTs := 0) else n
  }

  function HandleVote(id: PeerId, n: Peer, req: Message, logOk: bool, w: World, now: nat): Peer
    requires req.VoteReq?
  {
    var n0 := AfterDisruption(n, req);
    if req.term < n0.term || !Votable(id, n0, w, now) then n0
    else
      var n1 := if req.term > n0.term then StepDown(n0, req.term) else n0;
      if logOk && n1.votedFor.None? then StepDown(n1, req.term).(votedFor := Some(req.cand)) else n1
  }

  function VoteAnswer(id: PeerId, n: Peer, n': Peer, req: Message, logOk: bool, w: World, now: nat): Message
    requires req.VoteReq?
  {
    var n0 := AfterDisruption(n, req);
    VoteRep(id, req.cand, req.term, n'.term, req.term == n'.term && n'.votedFor == Some(req.cand),
            req.term >= n0.term && !Votable(id, n0, w, now) && logOk,
            n.role == R.Leader && n'.term != n.term, n.term)
  }

  function HandleVoteReply(id: PeerId, n: Peer, rep: Message): Peer
    requires rep.VoteRep?
  {
    if n.role != R.Candidate || rep.reqTerm != n.term then n
    else if rep.term > n.term then StepDown(n, rep.term)
    else if !rep.granted && !rep.rejectedByLease then n
    else
      var n1 := if rep.disrupts then n.(disrupted := Some((rep.voter, rep.previousTerm))) else n;
      if !rep.granted then n1
      else n1.(votes := n1.votes + {rep.voter} + if n.lastLeader == Some(rep.voter) then {id} else {})
  }

  function BecomeLeader(id: PeerId, n: Peer, stamps: Stamps): Peer {
    n.(role := R.Leader, leaderId := Some(id), votes := {}, disrupted := None,
       lastLeader := None, lastTs := 0, lastActive := 0, stamps := stamps, firstAcks := {})
  }

  function CheckStepDown(n: Peer, term: nat, src: PeerId): Peer {
    var n1 := if term > n.term || n.role != R.Follower || n.leaderId.None? then StepDown(n, term) else n;
    if n1.leaderId.None? then n1.(leaderId := Some(src)) else n1
  }

  /** Receiving from the leader renews the follower lease. */
  function HandleAppend(id: PeerId, n: Peer, app: Message, w: World, now: nat): Peer
    requires app.Append?
  {
    if app.term < n.term then n
    else
      var n1 := CheckStepDown(n, app.term, app.src);
      if n1.leaderId != Some(app.src) then StepDown(n1, app.term + 1)
      else n1.(lastLeader := Some(app.src), lastTs := w.clk(id, now))
  }

  function HandleAck(id: PeerId, n: Peer, ack: Message, w: World): Peer
    requires ack.Ack?
  {
    if n.role != R.Leader || ack.term != n.term || ack.peer !in n.stamps then n
    else
      var t := w.clk(id, ack.sent);
      n.(stamps := if t > n.stamps[ack.peer] then n.stamps[ack.peer := t] else n.stamps,
         firstAcks := if ack.stored then n.firstAcks + {ack.peer} else n.firstAcks)
  }

  function RenewLease(id: PeerId, n: Peer, t: int, w: World, now: nat): Peer {
    var n1 := n.(lastActive := t);
    if LeaseValid(id, n1, w, now) then n1 else StepDown(n1, n.term)
  }

  /** A node that was never in a term before may vote at once; any other waits out a whole lease. */
  function RestartPeer(id: PeerId, n: Peer, w: World, now: nat): Peer {
    Peer(n.term, n.votedFor, R.Follower, None, {}, None, None,
         if n.term == 1 && n.votedFor.None? then 0 else w.clk(id, now), 0, map[], {})
  }

  // ----- steps

  ghost predicate Enabled(id: PeerId, n: Peer, a: Action, g: Group, w: World) {
    match a
    case Elect => n.role != R.Leader && FullMember(w.conf, id)
    case Ask => n.role == R.Candidate
    case GrantSelf => n.role == R.Candidate && Votable(id, n, w, g.now)
    case Vote(req, logOk) => req in g.msgs && req.VoteReq? && req.cand != id
    case TakeVote(rep) => rep in g.msgs && rep.VoteRep? && rep.cand == id
    case Lead(stamps) =>
      && n.role == R.Candidate && Granted(n.votes, w.conf)
      && forall p :: p in stamps ==> stamps[p] <= w.clk(id, g.now)
    case Send(first) => n.role == R.Leader
    case Receive(app, stored) => app in g.msgs && app.Append? && app.src != id && (stored ==> app.first)
    case TakeAck(ack) => ack in g.msgs && ack.Ack?
    case StartLease(t) => n.role == R.Leader && Granted(n.firstAcks + {id}, w.conf) && ActiveSince(n, id, w, g.now, t)
    case Renew(t) =>
      && n.role == R.Leader && n.lastActive != 0 && !LeaseValid(id, n, w, g.now)
      && ActiveSince(n, id, w, g.now, t)
    case GiveUp(term) => true
    case Restart => true
  }

  datatype Effect = Effect(peer: Peer, sent: set<Message>, rec: Record)

  function Counted(rec: Record, id: PeerId, t: nat, now: nat): Record {
    if (id, t) in rec.counted then rec else rec.(counted := rec.counted[(id, t) := now])
  }

  function Cast(rec: Record, id: PeerId, t: nat, cand: PeerId): Record { rec.(votes := rec.votes[(id, t) := cand]) }

  ghost function Apply(id: PeerId, n: Peer, a: Action, g: Group, w: World): Effect
    requires Enabled(id, n, a, g, w)
  {
    match a
    case Elect => Effect(ElectSelf(id, n), {}, Cast(g.rec, id, n.term + 1, id))
    case Ask => Effect(n, {VoteReq(id, n.term, n.disrupted)}, g.rec)
    case GrantSelf => Effect(n.(votes := n.votes + {id}), {}, Counted(g.rec, id, n.term, g.now))
    case Vote(req, logOk) =>
      var n' := HandleVote(id, n, req, logOk, w, g.now);
      var cast := n'.votedFor == Some(req.cand) && (n'.term != n.term || n.votedFor.None?);
      Effect(n', {VoteAnswer(id, n, n', req, logOk, w, g.now)},
             if cast then Counted(Cast(g.rec, id, n'.term, req.cand), id, n'.term, g.now) else g.rec)
    case TakeVote(rep) =>
      var n' := HandleVoteReply(id, n, rep);
      Effect(n', {}, if n.role == R.Candidate && id in n'.votes then Counted(g.rec, id, n.term, g.now) else g.rec)
    case Lead(stamps) =>
      Effect(BecomeLeader(id, n, stamps), {},
             g.rec.(elections := g.rec.elections[n.term := Election(id, n.votes, g.now)]))
    case Send(first) => Effect(n, {Append(id, n.term, g.now, first)}, g.rec)
    case Receive(app, stored) =>
      var n' := HandleAppend(id, n, app, w, g.now);
      if n'.leaderId == Some(app.src) && n'.term == app.term && app.term >= n.term
      then Effect(n', {Ack(id, app.term, app.sent, stored)},
                  g.rec.(receipts := g.rec.receipts + {Receipt(id, app.src, app.term, app.sent, g.now)}))
      else Effect(n', {}, g.rec)
    case TakeAck(ack) => Effect(HandleAck(id, n, ack, w), {}, g.rec)
    case StartLease(t) => Effect(n.(lastActive := t), {}, g.rec)
    case Renew(t) => Effect(RenewLease(id, n, t, w, g.now), {}, g.rec)
    case GiveUp(term) => Effect(StepDown(n, term), {}, g.rec)
    case Restart => Effect(RestartPeer(id, n, w, g.now), {}, g.rec)
  }

  /** A leadership that ends with this step is recorded as left. */
  function Leaving(rec: Record, id: PeerId, n: Peer, n': Peer): Record {
    if n.role == R.Leader && (n'.role != R.Leader || n'.term != n.term) then rec.(left := rec.left + {(id, n.term)}) else rec
  }

  ghost predicate Moves(g: Group, g': Group, id: PeerId, e: Effect)
    requires id in g.peers
  {
    && g'.peers == g.peers[id := e.peer]
    && g'.msgs <= g.msgs + e.sent
    && g'.rec == Leaving(e.rec, id, g.peers[id], e.peer)
    && g'.now == g.now + 1
  }

  ghost predicate Step(g: Group, g': Group, id: PeerId, a: Action, w: World) {
    && id in g.peers && Enabled(id, g.peers[id], a, g, w)
    && Moves(g, g', id, Apply(id, g.peers[id], a, g, w))
  }

  ghost predicate SomeStep(g: Group, g': Group, w: World) { exists id, a :: Step(g, g', id, a, w) }

  ghost predicate Init(g: Group) {
    && (forall id :: id in g.peers ==> g.peers[id] == Peer(1, None, R.Follower, None, {}, None, None, 0, 0, map[], {}))
    && g.msgs == {} && g.rec == Record(map[], map[], map[], {}, {}) && g.now == 0
  }

  ghost predicate Run(r: seq<Group>, w: World) {
    && r != [] && Init(r[0])
    && forall i :: 0 < i < |r| ==> SomeStep(r[i - 1], r[i], w)
  }
}
