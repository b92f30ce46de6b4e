/** Changing the members of a group: which configuration entries a leader appends, and when. */
module Membership {
  import opened Quorum

  // ----- quorums of neighbouring configurations

  /** Two plain configurations that differ in one peer at most. */
  predicate OnePeerApart(a: set<PeerId>, b: set<PeerId>) { |a - b| + |b - a| <= 1 }

  /** What the configuration after `c` may be: the same, one peer apart, into the joint stage, or out of it. */
  predicate Neighbours(c: Conf, d: Conf) {
    || c == d
    || (c.Stable() && d.Stable() && OnePeerApart(c.peers, d.peers))
    || (c.Stable() && !d.Stable() && d.oldPeers == c.peers)
    || (!c.Stable() && d.Stable() && d.peers == c.peers)
  }

  lemma SizeByParts(a: set<PeerId>, b: set<PeerId>)
    ensures |a| == |a * b| + |a - b|
  {
    assert a == a * b + (a - b);
  }

  /** Majorities of sets one peer apart share a peer. */
  lemma OneApartMeet(g: set<PeerId>, h: set<PeerId>, a: set<PeerId>, b: set<PeerId>) returns (p: PeerId)
    requires OnePeerApart(a, b) && Majority(g, a) && Majority(h, b)
    ensures p in g && p in h
  {
    SizeByParts(a, b);
    SizeByParts(b, a);
    assert a * b == b * a;
    assert a + b == (a - b) + b;
    assert |a + b| == |a - b| + |b|;
    if (g * a) * (h * b) == {} {
      DisjointSizes(g * a, h * b, a + b);
      assert false;
    }
    p :| p in (g * a) * (h * b);
  }

  /** Any granted set of one configuration meets any granted set of a neighbouring one. */
  lemma NeighboursMeet(g: set<PeerId>, h: set<PeerId>, c: Conf, d: Conf) returns (p: PeerId)
    requires Neighbours(c, d) && Granted(g, c) && Granted(h, d)
    ensures p in g && p in h
  {
    if c == d {
      p := GrantedMeet(g, h, c);
    } else if c.Stable() && d.Stable() {
      p := OneApartMeet(g, h, c.peers, d.peers);
    } else if c.Stable() {
      MajoritiesMeet(g, h, c.peers);
      p :| p in g * h * c.peers;
    } else {
      MajoritiesMeet(g, h, c.peers);
      p :| p in g * h * c.peers;
    }
  }

  /** Two peers added at once, without the joint stage: quorums may miss each other. */
  lemma TwoApartMayMiss()
    ensures var c, d := Conf({1, 2}, {}), Conf({1, 2, 3, 4, 5}, {});
      Granted({1, 2}, c) && Granted({3, 4, 5}, d) && {1, 2} * {3, 4, 5} == {} && !Neighbours(c, d)
  {
    assert {1, 2} * {1, 2} == {1, 2} && {3, 4, 5} * {1, 2, 3, 4, 5} == {3, 4, 5};
    assert {1, 2, 3, 4, 5} - {1, 2} == {3, 4, 5};
  }

  method Diffs(a: set<PeerId>, b: set<PeerId>) returns (included: set<PeerId>, excluded: set<PeerId>)
    ensures included == a - b && excluded == b - a
  {
    included, excluded := a, b;
    var rest := a;
    while rest != {}
      invariant rest <= a && excluded == b - (a - rest)
      decreases rest
    {
      var p :| p in rest;
      excluded, rest := excluded - {p}, rest - {p};
    }
    rest := b;
    while rest != {}
      invariant rest <= b && included == a - (b - rest)
      decreases rest
    {
      var p :| p in rest;
      included, rest := included - {p}, rest - {p};
    }
  }

  // ----- the leader's side of a change

  /** What a change from `was` to `now` appends first: the joint configuration if it is more than one peer large. */
  function Entering(was: set<PeerId>, now: set<PeerId>, nchanges: nat): Conf {
    if nchanges > 1 then Conf(now, was) else Conf(now, {})
  }

  datatype Stage = NoStage | CatchingUp | Joint | Stable

  datatype Answer = NotLeader | Busy | Same | Started

  function CountOf(terms: seq<nat>, t: nat): nat { multiset(terms)[t] }

  ghost predicate Linked(history: seq<Conf>, i: nat)
    requires i + 1 < |history|
  {
    Neighbours(history[i], history[i + 1])
  }

  ghost predicate AllLinked(history: seq<Conf>) {
    forall i {:trigger Linked(history, i)} :: 0 <= i < |history| - 1 ==> Linked(history, i)
  }

  lemma LinkMore(history: seq<Conf>, c: Conf)
    requires history != [] && AllLinked(history) && Neighbours(history[|history| - 1], c)
    ensures AllLinked(history + [c])
  {
    forall i | 0 <= i < |history + [c]| - 1 ensures Linked(history + [c], i) {
      if i < |history| - 1 { assert Linked(history, i); }
    }
  }

  /** One report of `t` is taken off the list. */
  method Without(terms: seq<nat>, t: nat) returns (r: seq<nat>)
    requires t in terms
    ensures |r| == |terms| - 1 && forall x :: x in r ==> x in terms
    ensures forall x :: CountOf(r, x) == CountOf(terms, x) - if x == t then 1 else 0
  {
    var i :| 0 <= i < |terms| && terms[i] == t;
    r := terms[..i] + terms[i + 1..];
    assert terms == terms[..i] + [t] + terms[i + 1..];
    assert multiset(terms) == multiset(r) + multiset{t};
    forall x | x in r ensures x in terms { assert x in multiset(r); }
  }

  class Leadership {
    const serverId: PeerId
    var leading: bool
    var term: nat
    /** The configuration in force: the latest in the log, committed or not. */
    var conf: Conf
    var stage: Stage
    var nchanges: nat
    var version: nat
    var newPeers: set<PeerId>
    var oldPeers: set<PeerId>
    var addingPeers: set<PeerId>

    /** The configuration this leadership found, then every one it appended, in order. */
    var history: seq<Conf>
    /** The terms of configuration entries whose commit has not been reported back yet. */
    var outstanding: seq<nat>

    /** What each stage says about the configuration in force. */
    ghost predicate StageOk() reads this {
      match stage
      case NoStage => leading ==> conf.Stable() && serverId in conf.peers
      case CatchingUp =>
        && leading && conf == Conf(oldPeers, {}) && serverId in oldPeers
        && nchanges == |newPeers - oldPeers| + |oldPeers - newPeers| && newPeers != oldPeers
      case Joint => leading && conf == Conf(newPeers, oldPeers) && oldPeers != {}
      case Stable => leading && conf == Conf(newPeers, {})
    }

    /** A configuration entry of this term is on its way exactly in the stages Joint and Stable, and then only one. */
    ghost predicate OneOnItsWay() reads this {
      leading ==> CountOf(outstanding, term) == if stage == Joint || stage == Stable then 1 else 0
    }

    ghost predicate HistoryOk() reads this {
      && history != [] && AllLinked(history) && history[|history| - 1] == conf
      && forall t :: t in outstanding ==> t <= term
    }

    /** While peers catch up, at least one has not yet. */
    ghost predicate AddingOk() reads this {
      stage == CatchingUp ==> addingPeers != {} && addingPeers <= newPeers - oldPeers
    }

    ghost predicate Valid() reads this {
      HistoryOk() && StageOk() && OneOnItsWay() && AddingOk()
    }

    constructor (serverId: PeerId, conf: Conf)
      ensures Valid() && !leading && outstanding == [] && this.serverId == serverId && this.conf == conf
    {
      this.serverId, this.conf, history, outstanding := serverId, conf, [conf], [];
      leading, term, stage, nchanges, version := false, 0, NoStage, 0, 0;
      newPeers, oldPeers, addingPeers := {}, {}, {};
    }

    /** Appends a configuration entry; it is in force from here on. */
    method ApplyConfiguration(c: Conf)
      requires history != [] && AllLinked(history) && history[|history| - 1] == conf && Neighbours(conf, c)
      modifies this`conf, this`history, this`outstanding
      ensures history == old(history) + [c] && conf == c && AllLinked(history)
      ensures outstanding == old(outstanding) + [term]
    {
      LinkMore(history, c);
      history, conf, outstanding := history + [c], c, outstanding + [term];
    }

    /** A new leader's first entry repeats the latest configuration of its log, and keeps the context busy. */
    method BecomeLeader(newTerm: nat, latest: Conf)
      requires Valid() && !leading && newTerm > term && latest.Contains(serverId)
      modifies this
      ensures Valid() && leading && term == newTerm && conf == latest
      ensures history == [latest, latest] && outstanding == old(outstanding) + [newTerm]
      ensures stage == if latest.Stable() then Stage.Stable else Joint
    {
      leading, term, conf, history := true, newTerm, latest, [latest];
      newPeers := latest.peers;
      if latest.Stable() {
        stage, oldPeers := Stage.Stable, newPeers;
      } else {
        stage, oldPeers := Joint, latest.oldPeers;
      }
      assert newTerm !in outstanding;
      ApplyConfiguration(latest);
    }

    /** A change is refused while another configuration entry is on its way. */
    method Register(peers: set<PeerId>) returns (a: Answer)
      requires Valid()
      modifies this
      ensures Valid() && leading == old(leading) && term == old(term)
      ensures a == NotLeader <==> !leading
      ensures a == Busy <==> leading && old(stage) != NoStage
      ensures a == Same <==> leading && old(stage) == NoStage && peers == old(conf).peers
      ensures a != Started ==> history == old(history) && outstanding == old(outstanding) && stage == old(stage)
      ensures a == Started ==> CountOf(old(outstanding), term) == 0
      ensures a != Started ==> conf == old(conf) && addingPeers == old(addingPeers) && version == old(version)
      ensures a == Started ==>
        && newPeers == peers && oldPeers == old(conf).peers && version == old(version)
        && nchanges == |peers - old(conf).peers| + |old(conf).peers - peers|
      ensures a == Started && peers - old(conf).peers != {} ==>
        && stage == CatchingUp && addingPeers == peers - old(conf).peers
        && conf == old(conf) && history == old(history) && outstanding == old(outstanding)
      ensures a == Started && peers < old(conf).peers ==>
        Appended(old(history), old(outstanding)) && conf == Entering(old(conf).peers, peers, nchanges)
    {
      hide AllLinked, Neighbours;
      if !leading { return NotLeader; }
      if stage != NoStage { return Busy; }
      if conf.peers == peers { return Same; }
      hide StageOk, OneOnItsWay, HistoryOk, AddingOk;
      Start(peers);
      a := Started;
    }

    method Start(peers: set<PeerId>)
      requires Valid() && leading && stage == NoStage && peers != conf.peers
      modifies this`stage, this`oldPeers, this`newPeers, this`nchanges, this`addingPeers, this`conf, this`history, this`outstanding
      ensures Valid() && newPeers == peers && oldPeers == old(conf).peers
      ensures nchanges == |peers - old(conf).peers| + |old(conf).peers - peers|
      ensures peers - old(conf).peers != {} ==>
        && stage == CatchingUp && addingPeers == peers - old(conf).peers
        && conf == old(conf) && history == old(history) && outstanding == old(outstanding)
      ensures peers - old(conf).peers == {} ==>
        Appended(old(history), old(outstanding)) && conf == Entering(old(conf).peers, peers, nchanges)
    {
      stage, oldPeers, newPeers := CatchingUp, conf.peers, peers;
      var adding, removing := Diffs(peers, conf.peers);
      nchanges := |adding| + |removing|;
      addingPeers := adding;
      if adding == {} { NextStage(); }
    }

    /** One more configuration entry than before, in its stage; it has not been reported back. */
    ghost predicate Appended(before: seq<Conf>, waiting: seq<nat>) reads this {
      && history == before + [conf] && outstanding == waiting + [term]
      && stage == if conf.Stable() then Stage.Stable else Joint
    }

    /** The next entry of a change, or its end. */
    method NextStage()
      requires HistoryOk() && StageOk() && OneOnItsWay() && stage == CatchingUp
      modifies this`stage, this`conf, this`history, this`outstanding
      ensures Valid() && Appended(old(history), old(outstanding)) && conf == Entering(oldPeers, newPeers, nchanges)
    {
      if nchanges > 1 {
        stage := Joint;
        ApplyConfiguration(Conf(newPeers, oldPeers));
      } else {
        stage := Stage.Stable;
        ApplyConfiguration(Conf(newPeers, {}));
      }
    }

    method Reset()
      modifies this`stage, this`newPeers, this`oldPeers, this`addingPeers, this`version, this`nchanges
      ensures stage == NoStage
      ensures old(stage) != NoStage ==> addingPeers == {} && version == old(version) + 1
    {
      if stage == NoStage { return; }
      newPeers, oldPeers, addingPeers := {}, {}, {};
      version, stage, nchanges := version + 1, NoStage, 0;
    }

    /** A new peer has caught up, or has failed to; an answer for an earlier change is ignored. */
    method OnCaughtUp(answered: nat, peer: PeerId, success: bool)
      requires Valid() && (answered == version ==> stage == CatchingUp)
      modifies this
      ensures Valid() && leading == old(leading) && term == old(term)
      ensures answered != old(version) ==>
        && stage == old(stage) && conf == old(conf) && history == old(history) && outstanding == old(outstanding)
        && addingPeers == old(addingPeers) && version == old(version)
      ensures answered == old(version) && !success ==>
        && stage == NoStage && conf == old(conf) && history == old(history) && outstanding == old(outstanding)
        && addingPeers == {} && version == old(version) + 1
      ensures answered == old(version) && success ==>
        && addingPeers == old(addingPeers) - {peer} && version == old(version)
        && newPeers == old(newPeers) && oldPeers == old(oldPeers) && nchanges == old(nchanges)
      ensures answered == old(version) && success && old(addingPeers) - {peer} != {} ==>
        stage == CatchingUp && conf == old(conf) && history == old(history) && outstanding == old(outstanding)
      ensures answered == old(version) && success && old(addingPeers) - {peer} == {} ==>
        Appended(old(history), old(outstanding)) && conf == Entering(old(oldPeers), old(newPeers), old(nchanges))
    {
      if answered != version { return; }
      if success {
        addingPeers := addingPeers - {peer};
        if addingPeers == {} { NextStage(); }
        return;
      }
      Reset();
    }

    method StepDown(newTerm: nat)
      requires HistoryOk() && newTerm >= term
      modifies this
      ensures Valid() && !leading && term == newTerm && stage == NoStage
      ensures conf == old(conf) && history == old(history) && outstanding == old(outstanding)
    {
      leading, term := false, newTerm;
      Reset();
    }

    /** The commit of a configuration entry of `t` is reported: only then may the next one follow. */
    method OnConfigurationChangeDone(t: nat)
      requires Valid() && t in outstanding
      modifies this
      ensures Valid() && term == old(term)
      ensures forall x :: (CountOf(outstanding, x) == CountOf(old(outstanding), x)
        - (if x == t then 1 else 0) + (if old(leading) && t == term == x && old(stage) == Joint then 1 else 0))
      ensures !old(leading) || t != term ==>
        history == old(history) && stage == old(stage) && leading == old(leading) && addingPeers == old(addingPeers)
      ensures old(leading) && t == term && old(stage) == Joint ==>
        stage == Stage.Stable && history == old(history) + [Conf(old(newPeers), {})] && leading && newPeers == old(newPeers)
      ensures old(leading) && t == term && old(stage) == Stage.Stable ==>
        stage == NoStage && history == old(history) && conf == old(conf) && (leading <==> serverId in conf.peers)
    {
      hide AllLinked, Neighbours;
      outstanding := Without(outstanding, t);
      if !leading || t != term { return; }
      if stage == Joint {
        assert Neighbours(conf, Conf(newPeers, {})) by { OutOfJoint(); }
        stage := Stage.Stable;
        ApplyConfiguration(Conf(newPeers, {}));
      } else if stage == Stage.Stable {
        var shouldStepDown := serverId !in newPeers;
        Reset();
        if shouldStepDown { StepDown(term); }
      } else {
        assert false;
      }
    }

    lemma OutOfJoint()
      requires StageOk() && stage == Joint
      ensures Neighbours(conf, Conf(newPeers, {}))
    {
    }
  }

  // ----- a whole change

  predicate Distinct(order: seq<PeerId>) { forall i, j :: 0 <= i < j < |order| ==> order[i] != order[j] }

  function Peers(order: seq<PeerId>): (r: set<PeerId>)
    ensures forall p :: p in r <==> p in order
  {
    set p | p in order
  }

  lemma PeersLeft(order: seq<PeerId>, i: nat)
    requires i < |order| && Distinct(order)
    ensures Peers(order[i + 1..]) == Peers(order[i..]) - {order[i]}
    ensures Peers(order[i..]) - {order[i]} == {} <==> i + 1 == |order|
  {
    assert order[i..] == [order[i]] + order[i + 1..];
    if i + 1 < |order| { assert order[i + 1] in Peers(order[i + 1..]); }
  }

  /** Once every added peer has caught up, in whatever order, one entry with the new peers has been appended. */
  method CatchUp(l: Leadership, order: seq<PeerId>)
    requires l.Valid() && l.stage == CatchingUp && Distinct(order) && Peers(order) == l.addingPeers
    modifies l
    ensures l.Valid() && l.leading && l.term == old(l.term) && l.newPeers == old(l.newPeers)
    ensures l.Appended(old(l.history), old(l.outstanding))
    ensures l.conf == Entering(old(l.oldPeers), old(l.newPeers), old(l.nchanges))
  {
    hide Leadership.HistoryOk, Leadership.OneOnItsWay;
    ghost var version := l.version;
    assert order[0..] == order;
    var i := 0;
    while i < |order|
      invariant i <= |order| && l.Valid() && l.leading && l.term == old(l.term)
      invariant l.newPeers == old(l.newPeers) && l.oldPeers == old(l.oldPeers) && l.nchanges == old(l.nchanges)
      invariant i < |order| ==>
        && l.stage == CatchingUp && l.addingPeers == Peers(order[i..]) && l.version == version
        && l.history == old(l.history) && l.outstanding == old(l.outstanding)
      invariant i == |order| ==>
        l.Appended(old(l.history), old(l.outstanding)) && l.conf == Entering(old(l.oldPeers), old(l.newPeers), old(l.nchanges))
    {
      PeersLeft(order, i);
      l.OnCaughtUp(l.version, order[i], true);
      i := i + 1;
    }
  }

  /** The entries a change from `was` to `now` appends. */
  function Entries(was: set<PeerId>, now: set<PeerId>): seq<Conf> {
    if |now - was| + |was - now| > 1 then [Conf(now, was), Conf(now, {})] else [Conf(now, {})]
  }

  lemma OneIsOut(l: Leadership)
    requires l.Valid() && l.leading && (l.stage == Joint || l.stage == Stage.Stable)
    ensures l.term in l.outstanding
  {
    assert multiset(l.outstanding)[l.term] == 1;
    assert l.term in multiset(l.outstanding);
  }

  /**
   A change that is accepted, whose new peers catch up in any order and whose entries commit, appends exactly its own
   entries, ends with the new peers in force and room for the next change, and removes a leader that is not among them.
   */
  method Change(l: Leadership, peers: set<PeerId>, order: seq<PeerId>)
    requires l.Valid() && l.leading && l.stage == NoStage && peers != l.conf.peers
    requires Distinct(order) && Peers(order) == peers - l.conf.peers
    modifies l
    ensures l.Valid() && l.stage == NoStage && l.conf == Conf(peers, {}) && l.term == old(l.term)
    ensures l.history == old(l.history) + Entries(old(l.conf).peers, peers)
    ensures l.leading <==> l.serverId in peers
  {
    hide Leadership.HistoryOk, Leadership.OneOnItsWay, Leadership.AddingOk;
    var was := l.conf.peers;
    var a := l.Register(peers);
    assert a == Started;
    ghost var before, waiting := old(l.history), old(l.outstanding);
    if peers - was != {} {
      CatchUp(l, order);
    } else {
      assert forall p :: p in peers ==> p !in peers - was;
    }
    assert l.Appended(before, waiting);
    OneIsOut(l);
    if l.stage == Joint {
      l.OnConfigurationChangeDone(l.term);
      OneIsOut(l);
    }
    l.OnConfigurationChangeDone(l.term);
  }

  /** Any quorum for one configuration entry of a leadership meets any quorum for the next. */
  lemma ConsecutiveQuorumsMeet(l: Leadership, i: nat, g: set<PeerId>, h: set<PeerId>) returns (p: PeerId)
    requires l.Valid() && i + 1 < |l.history|
    requires Granted(g, l.history[i]) && Granted(h, l.history[i + 1])
    ensures p in g && p in h
  {
    assert Linked(l.history, i);
    p := NeighboursMeet(g, h, l.history[i], l.history[i + 1]);
  }
}
