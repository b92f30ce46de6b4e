/** The two lease objects of one node, kept in step with what the lease protocol says of that node. */
module LeaseObjects {
  import opened Quorum
  import opened Leases
  import opened LeaseProtocol
  import R = RaftNode

  class NodeLeases {
    const leader: LeaderLease
    const follower: FollowerLease

    /** The objects say what the protocol says of the node `n`. */
    ghost predicate Mirrors(n: Peer, w: World) reads leader, follower {
      && leader.electionTimeout == w.et && follower.electionTimeout == w.et && follower.maxClockDrift == w.drift
      && (n.role == R.Leader ==> n.term > 0) && (n.role != R.Leader ==> n.lastActive == 0)
      && leader.term == (if n.role == R.Leader then n.term else 0) && leader.lastActive == n.lastActive
      && follower.lastLeader == n.lastLeader && follower.lastLeaderTimestamp == n.lastTs
    }

    /** A node that starts: unless it has never been in a term, it waits as if a leader had just been heard. */
    constructor (ghost id: PeerId, ghost n: Peer, ghost w: World, ghost now: nat, et: int, drift: int, clock: int, virgin: bool)
      requires et == w.et && drift == w.drift && clock == w.clk(id, now) && (virgin <==> n.term == 1 && n.votedFor.None?)
      ensures Mirrors(RestartPeer(id, n, w, now), w) && fresh(leader) && fresh(follower)
      ensures follower.lastLeaderTimestamp == (if virgin then 0 else clock) && leader.term == 0
    {
      leader := new LeaderLease(et);
      follower := new FollowerLease(et, drift, clock);
      new;
      if virgin { follower.Reset(); }
    }

    method BecomeLeader(term: nat, ghost id: PeerId, ghost n: Peer, ghost stamps: Stamps, ghost w: World)
      requires Mirrors(n, w) && term == n.term > 0
      modifies leader, follower
      ensures Mirrors(LeaseProtocol.BecomeLeader(id, n, stamps), w) && leader.epoch == old(leader.epoch) + 1
      ensures leader.term == term && leader.lastActive == 0 && follower.lastLeader == None && follower.lastLeaderTimestamp == 0
    {
      follower.Reset();
      leader.OnLeaderStart(term);
    }

    method StepDown(wasLeader: bool, ghost n: Peer, ghost term: nat, ghost w: World)
      requires Mirrors(n, w) && (wasLeader <==> n.role == R.Leader)
      modifies leader
      ensures Mirrors(LeaseProtocol.StepDown(n, term), w)
      ensures leader.term == 0 && leader.lastActive == 0 && leader.epoch == old(leader.epoch)
    {
      if wasLeader { leader.OnLeaderStop(); }
    }

    /** An append request of the leader that this node follows. */
    method HearLeader(src: PeerId, clock: int, ghost id: PeerId, ghost n: Peer, ghost app: Message, ghost w: World, ghost now: nat)
      requires app.Append? && app.src == src && clock == w.clk(id, now) && app.term >= n.term
      requires Mirrors(CheckStepDown(n, app.term, src), w) && CheckStepDown(n, app.term, src).leaderId == Some(src)
      modifies follower
      ensures Mirrors(HandleAppend(id, n, app, w, now), w)
      ensures follower.lastLeader == Some(src) && follower.lastLeaderTimestamp == clock
    {
      follower.Renew(src, clock);
    }

    /** A vote request may name the leader that its candidate has already disrupted. */
    method Disrupt(named: bool, ghost n: Peer, ghost req: Message, ghost w: World)
      requires req.VoteReq? && Mirrors(n, w)
      requires named == (n.role == R.Follower && req.disrupted.Some? && n.term == req.disrupted.value.1
                          && n.leaderId == Some(req.disrupted.value.0))
      modifies follower
      ensures Mirrors(AfterDisruption(n, req), w)
      ensures follower.lastLeader == old(follower.lastLeader)
      ensures follower.lastLeaderTimestamp == if named then 0 else old(follower.lastLeaderTimestamp)
    {
      if named { follower.Expire(); }
    }

    /** The first entry of the leadership of `expectEpoch` has committed; a late notice changes nothing. */
    method StartLease(expectEpoch: nat, t: int, ghost n: Peer, ghost w: World)
      requires Mirrors(n, w)
      modifies leader
      ensures Mirrors(if n.role == R.Leader && expectEpoch == leader.epoch then n.(lastActive := t) else n, w)
      ensures leader.lastActive == if old(leader.term) != 0 && expectEpoch == old(leader.epoch) then t else old(leader.lastActive)
      ensures leader.term == old(leader.term) && leader.epoch == old(leader.epoch)
    {
      leader.OnLeaseStart(expectEpoch, t);
    }

    method LeaseIsValid(clock: int, ghost id: PeerId, ghost n: Peer, ghost w: World, ghost now: nat) returns (valid: bool)
      requires Mirrors(n, w) && clock == w.clk(id, now)
      ensures valid <==> LeaseValid(id, n, w, now)
    {
      var info := leader.GetLeaseInfo(clock);
      valid := info.state == Valid;
    }

    /** A lease that has run out is renewed from the contacts so far; if that does not help, the leader steps down. */
    method Recheck(t: int, clock: int, ghost id: PeerId, ghost n: Peer, ghost w: World, ghost now: nat) returns (valid: bool)
      requires Mirrors(n, w) && clock == w.clk(id, now) && n.role == R.Leader && n.lastActive != 0 && !LeaseValid(id, n, w, now)
      modifies leader
      ensures Mirrors(RenewLease(id, n, t, w, now), w) && (valid <==> LeaseValid(id, RenewLease(id, n, t, w, now), w, now))
      ensures valid <==> t != 0 && clock - t < leader.electionTimeout
      ensures valid ==> leader.term == n.term && leader.lastActive == t
      ensures !valid ==> leader.term == 0 && leader.lastActive == 0
    {
      leader.Renew(t);
      valid := LeaseIsValid(clock, id, n.(lastActive := t), w, now);
      if !valid { leader.OnLeaderStop(); }
    }

    method MayVote(clock: int, ghost id: PeerId, ghost n: Peer, ghost w: World, ghost now: nat) returns (may: bool)
      requires Mirrors(n, w) && clock == w.clk(id, now)
      ensures may <==> Votable(id, n, w, now)
    {
      var wait := follower.VotableTimeFromNow(clock);
      may := wait == 0;
    }

    /** Both configurations in the joint stage, the earlier of the two times; one otherwise. */
    method ActiveTimestamp(list: seq<PeerId>, oldList: seq<PeerId>, id: PeerId, stamps: Stamps, clock: int,
        ghost n: Peer, ghost w: World, ghost now: nat) returns (t: int)
      requires stamps == n.stamps && Lists(list, w.conf.peers) && Lists(oldList, w.conf.oldPeers) && FullMember(w.conf, id) && clock == w.clk(id, now)
      ensures ActiveSince(n, id, w, now, t)
    {
      t := LastLeaderActiveTimestamp(list, id, stamps, clock, w.conf.peers);
      if oldList != [] {
        var b := LastLeaderActiveTimestamp(oldList, id, stamps, clock, w.conf.oldPeers);
        assert IsActiveSince(n.stamps, w.conf.peers, id, clock, t) && IsActiveSince(n.stamps, w.conf.oldPeers, id, clock, b);
        assert oldList[0] in w.conf.oldPeers;
        t := if t <= b then t else b;
      }
    }
  }
}
