/** Terms, votes and leadership: what each step of a node does to them, whatever it does besides. */
module RaftTerms {
  import opened Quorum
  import opened LogTypes
  import opened BallotSpec
  import opened RaftNode
  import opened RaftInvariant
  import opened RaftProtocol

  /** Some node other than the sender is followed in the term of the request. */
  predicate SecondLeader(n: Node, req: AppendRequest) {
    req.term == n.term && n.role == Follower && n.leaderId.Some? && n.leaderId != Some(req.src)
  }

  /** The answer is to the candidate's own question, or to the leader's own request. */
  predicate Asked(n: Node, reqTerm: nat, role: Role) { n.role == role && n.term == reqTerm }

  /** The term after a step: a higher one that the node hears of is taken over, unless a lease or a change of role makes it deaf. */
  function TermAfter(n: Node, a: Action): nat {
    match a
    case Elect(_) => n.term + 1
    case Vote(req, _, votable) => if votable && req.term > n.term then req.term else n.term
    case TakeVote(r, _) => if Asked(n, r.reqTerm, Candidate) && r.term > n.term then r.term else n.term
    case Receive(req, _) => if SecondLeader(n, req) then req.term + 1 else if req.term > n.term then req.term else n.term
    case TakeReply(r, _) => if Asked(n, r.reqTerm, Leader) && !r.success && r.term > n.term then r.term else n.term
    case GiveUp(term) => if term > n.term then term else n.term
    case _ => n.term
  }

  /** To whom a step gives the vote of the term it leads to. */
  function Given(id: PeerId, n: Node, a: Action): Option<PeerId> {
    match a
    case Elect(_) => Some(id)
    case Vote(req, last, votable) => if Casts(n, req, last, votable) then Some(req.cand) else None
    case _ => None
  }

  /** The process aborts rather than take in the request. */
  predicate Aborts(id: PeerId, n: Node, a: Action) { a.Receive? && ReceiveAppend(id, n, a.areq, a.seen).Fatal? }

  /** A new term starts without a vote, one that is given stays until the term ends, and only `Given` gives one. */
  lemma TermAndVote(s: State, s': State, id: PeerId, a: Action, c: Conf)
    requires Step(s, s', id, a, c) && !Aborts(id, s.nodes[id], a)
    ensures var n, n' := s.nodes[id], s'.nodes[id];
      && n'.term == TermAfter(n, a) >= n.term
      && n'.votedFor == if Given(id, n, a).Some? then Given(id, n, a) else if n'.term > n.term then None else n.votedFor
  {
    hide FollowerAppend, CommitAt, SetCommitted, LastIdRead;
    var n := s.nodes[id];
    match a
    case Receive(req, seen) => ReceiveShape(id, n, req, seen);
    case TakeReply(r, first) =>
    case _ =>
  }

  lemma ReceiveShape(id: PeerId, n: Node, req: AppendRequest, seen: nat)
    requires ReceiveAppend(id, n, req, seen).Handled?
    ensures var m := ReceiveAppend(id, n, req, seen).node;
      && m.term == TermAfter(n, Receive(req, seen))
      && m.votedFor == (if m.term > n.term then None else n.votedFor)
      && (m.role == Leader <==> n.role == Leader && req.term < n.term)
      && (m.role == Candidate <==> n.role == Candidate && req.term < n.term)
  {
    hide MatchCount, SetCommitted;
  }

  /** A step of the node that ends a leadership: a higher term, a vote given, a leader's request in its own term, giving up, or a crash. */
  predicate Unseats(id: PeerId, n: Node, a: Action) {
    || TermAfter(n, a) > n.term || Given(id, n, a).Some? || a.GiveUp? || a.Crash? || a.TornElect?
    || (a.Receive? && a.areq.term >= n.term)
  }

  /** A node leads exactly if it has just been elected by a quorum, or led before and nothing has unseated it. */
  lemma LeadsIff(s: State, s': State, id: PeerId, a: Action, c: Conf)
    requires Step(s, s', id, a, c) && !Aborts(id, s.nodes[id], a)
    ensures var n, n' := s.nodes[id], s'.nodes[id];
      n'.role == Leader <==> if a.Lead? then Granted(n.votes, c) else n.role == Leader && !Unseats(id, n, a)
  {
    hide FollowerAppend, CommitAt, SetCommitted, LastIdRead, Granted;
    var n := s.nodes[id];
    match a
    case Receive(req, seen) => ReceiveShape(id, n, req, seen);
    case _ =>
  }
}
