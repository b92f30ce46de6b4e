/**
 What a run has recorded so far (votes cast, elections won, entries acknowledged, logs that
 were once on a disk), and the consequences of a well-formed record: leader completeness
 and agreement on chosen entries.
 */
module RaftHistory {
  import opened Quorum
  import opened LogTypes

  datatype VoteRec = VoteRec(cand: PeerId, voterLog: Log)

  datatype Election = Election(winner: PeerId, voters: set<PeerId>, start: Log)

  /** `peer` told the leader of `term` that its disk holds that leader's log up to `upTo`. */
  datatype Ack = Ack(peer: PeerId, term: nat, upTo: nat)

  datatype Delivery = Delivery(node: PeerId, index: nat, entry: Entry)

  datatype History = History(
    votes: map<(PeerId, nat), VoteRec>,
    elections: map<nat, Election>,
    leaderLog: map<nat, Log>,
    acks: set<Ack>,
    disks: map<PeerId, set<Log>>,
    delivered: set<Delivery>)

  // Quantifiers below carry triggers on their named bodies, so that an instance is used
  // only where a proof mentions it.

  ghost predicate Placed(x: Log, i: nat, h: History)
    requires i < |x|
  {
    x[i].term in h.leaderLog && x[..i + 1] <= h.leaderLog[x[i].term]
  }

  /** Every entry sits on exactly the prefix its term's leader put below it. */
  ghost predicate ValidLog(x: Log, h: History) {
    forall i {:trigger Placed(x, i, h)} :: 0 <= i < |x| ==> Placed(x, i, h)
  }

  ghost predicate TermsBelow(x: Log, t: nat) {
    forall i :: 0 <= i < |x| ==> x[i].term < t
  }

  ghost predicate StartsWithout(u: nat, p: Log, h: History) {
    u in h.elections && !(p <= h.elections[u].start)
  }

  /** Some leader elected after the last entry of `p`, in a term up to `hi`, started without `p`. */
  ghost predicate Lost(p: Log, hi: int, h: History)
    requires p != []
  {
    exists u {:trigger StartsWithout(u, p, h)} :: p[|p| - 1].term < u <= hi && StartsWithout(u, p, h)
  }

  ghost predicate Kept(x: Log, y: Log, m: nat, hi: int, h: History)
    requires 1 <= m <= |x|
  {
    x[..m] <= y || Lost(x[..m], hi, h)
  }

  /** `y` kept every prefix of `x`, except those some later leader was elected without. */
  ghost predicate Evolves(x: Log, y: Log, hi: int, h: History) {
    forall m {:trigger Kept(x, y, m, hi, h)} :: 1 <= m <= |x| ==> Kept(x, y, m, hi, h)
  }

  ghost function Ackers(t: nat, k: nat, h: History): set<PeerId> {
    set a | a in h.acks && a.term == t && a.upTo >= k :: a.peer
  }

  /** A quorum has entry `k` of the leader of `t` on disk, and the entry is of term `t`. */
  ghost predicate Chosen(t: nat, k: nat, h: History, c: Conf) {
    && t in h.leaderLog && 1 <= k <= |h.leaderLog[t]|
    && h.leaderLog[t][k - 1].term == t
    && Granted(Ackers(t, k, h), c)
  }

  /** Everything in `x` lies at or below an entry chosen in a term up to `hi`. */
  ghost predicate Known(x: Log, hi: nat, h: History, c: Conf) {
    x == [] || exists t: nat, k: nat {:trigger Chosen(t, k, h, c)} ::
      t <= hi && Chosen(t, k, h, c) && x <= h.leaderLog[t][..k]
  }

  // ----- what makes a record well-formed

  ghost predicate LeaderOk(t: nat, h: History)
    requires t in h.elections
  {
    && t >= 1 && t in h.leaderLog
    && h.elections[t].start <= h.leaderLog[t]
    && TermsBelow(h.elections[t].start, t)
    && ValidLog(h.leaderLog[t], h)
    && forall i :: |h.elections[t].start| <= i < |h.leaderLog[t]| ==> h.leaderLog[t][i].term == t
  }

  ghost predicate LeaderLogsInv(h: History) {
    && h.elections.Keys == h.leaderLog.Keys
    && forall t {:trigger LeaderOk(t, h)} :: t in h.elections ==> LeaderOk(t, h)
  }

  /** `d` is at least as up to date as this voter's log, and older than term `t`. */
  ghost predicate Backed(rec: VoteRec, d: Log, t: nat, h: History) {
    && ValidLog(d, h) && TermsBelow(d, t)
    && IdAtMost(LastId(rec.voterLog), LastId(d))
  }

  ghost predicate VoterOk(v: PeerId, t: nat, h: History)
    requires t in h.elections
  {
    var e := h.elections[t];
    && (v, t) in h.votes && h.votes[(v, t)].cand == e.winner
    && exists d {:trigger Backed(h.votes[(v, t)], d, t, h)} ::
      Backed(h.votes[(v, t)], d, t, h) && Evolves(d, e.start, t - 1, h)
  }

  ghost predicate ElectionOk(t: nat, h: History, c: Conf)
    requires t in h.elections
  {
    && Granted(h.elections[t].voters, c)
    && forall v {:trigger VoterOk(v, t, h)} :: v in h.elections[t].voters ==> VoterOk(v, t, h)
  }

  ghost predicate ElectionsInv(h: History, c: Conf) {
    forall t {:trigger ElectionOk(t, h, c)} :: t in h.elections ==> ElectionOk(t, h, c)
  }

  /** The vote was cast before any leader of its term, or helped to elect that leader. */
  ghost predicate Counts(v: PeerId, t: nat, h: History) {
    t in h.elections ==> v in h.elections[t].voters
  }

  /** Before its term is decided, a vote rests on a disk its candidate once had. */
  ghost predicate PendingVoteOk(v: PeerId, t: nat, h: History)
    requires (v, t) in h.votes
  {
    var rec := h.votes[(v, t)];
    t !in h.elections ==>
      rec.cand in h.disks && exists d {:trigger Backed(rec, d, t, h)} :: d in h.disks[rec.cand] && Backed(rec, d, t, h)
  }

  ghost predicate Remembered(a: Ack, m: nat, v: PeerId, t: nat, h: History)
    requires (v, t) in h.votes && a.term in h.leaderLog && 1 <= m <= |h.leaderLog[a.term]|
  {
    var p := h.leaderLog[a.term][..m];
    p <= h.votes[(v, t)].voterLog || Lost(p, t - 1, h)
  }

  /** What `v` acknowledged in an earlier term was in its log when it voted, or got lost. */
  ghost predicate VoteRemembers(v: PeerId, t: nat, h: History)
    requires (v, t) in h.votes
  {
    forall a, m: nat {:trigger Remembered(a, m, v, t, h)} ::
      a in h.acks && a.peer == v && a.term < t && a.term in h.leaderLog
      && 1 <= m <= a.upTo && m <= |h.leaderLog[a.term]| && h.leaderLog[a.term][m - 1].term == a.term
      ==> Remembered(a, m, v, t, h)
  }

  ghost predicate VoteOk(v: PeerId, t: nat, h: History)
    requires (v, t) in h.votes
  {
    && t >= 1
    && ValidLog(h.votes[(v, t)].voterLog, h)
    && PendingVoteOk(v, t, h)
    && (Counts(v, t, h) ==> VoteRemembers(v, t, h))
  }

  ghost predicate VotesInv(h: History) {
    forall v, t {:trigger VoteOk(v, t, h)} :: (v, t) in h.votes ==> VoteOk(v, t, h)
  }

  ghost predicate AckOk(a: Ack, h: History) {
    && a.term in h.leaderLog && 1 <= a.upTo <= |h.leaderLog[a.term]|
    && a.peer in h.disks
    && exists d :: d in h.disks[a.peer] && h.leaderLog[a.term][..a.upTo] <= d
  }

  ghost predicate AcksInv(h: History) {
    forall a {:trigger AckOk(a, h)} :: a in h.acks ==> AckOk(a, h)
  }

  ghost predicate DisksInv(h: History) {
    forall n, d {:trigger d in h.disks[n]} :: n in h.disks && d in h.disks[n] ==> ValidLog(d, h)
  }

  ghost predicate DeliveryOk(d: Delivery, h: History, c: Conf) {
    exists t: nat, k: nat {:trigger Chosen(t, k, h, c)} ::
      Chosen(t, k, h, c) && 1 <= d.index <= k && h.leaderLog[t][d.index - 1] == d.entry
  }

  ghost predicate DeliveredInv(h: History, c: Conf) {
    forall d {:trigger DeliveryOk(d, h, c)} :: d in h.delivered ==> DeliveryOk(d, h, c)
  }

  ghost predicate HistInv(h: History, c: Conf) {
    && LeaderLogsInv(h) && ElectionsInv(h, c) && VotesInv(h) && AcksInv(h)
    && DisksInv(h) && DeliveredInv(h, c)
  }

  // ----- basic facts about logs

  lemma PrefixTrans(a: Log, b: Log, c: Log)
    requires a <= b && b <= c
    ensures a <= c
  {
    assert a == b[..|a|] == c[..|a|];
  }

  lemma PrefixesOfOne(a: Log, b: Log, c: Log)
    requires a <= c && b <= c && |a| <= |b|
    ensures a <= b
  {
    assert a == c[..|a|] && b == c[..|b|];
  }

  lemma ValidPrefix(x: Log, y: Log, h: History)
    requires ValidLog(y, h) && x <= y
    ensures ValidLog(x, h)
  {
    forall i | 0 <= i < |x| ensures Placed(x, i, h) {
      assert Placed(y, i, h);
      assert x[..i + 1] == y[..i + 1] && x[i] == y[i];
    }
  }

  /** A leader's log holds no term above its own. */
  lemma LeaderLogTerms(t: nat, i: nat, h: History)
    requires LeaderLogsInv(h) && t in h.leaderLog && i < |h.leaderLog[t]|
    ensures h.leaderLog[t][i].term <= t
    ensures h.leaderLog[t][i].term == t <==> i >= |h.elections[t].start|
  {
    assert LeaderOk(t, h);
    if i < |h.elections[t].start| {
      assert h.leaderLog[t][i] == h.elections[t].start[i];
    }
  }

  /** Terms never decrease along a log. */
  lemma TermsMonotone(x: Log, i: nat, j: nat, h: History)
    requires LeaderLogsInv(h) && ValidLog(x, h) && i <= j < |x|
    ensures 1 <= x[i].term <= x[j].term
  {
    assert Placed(x, i, h) && Placed(x, j, h);
    assert LeaderOk(x[i].term, h);
    assert x[i] == x[..j + 1][i] == h.leaderLog[x[j].term][i];
    LeaderLogTerms(x[j].term, i, h);
  }

  /** A whole log is a prefix of the log of the leader of its last term. */
  lemma OnLastLeaderLog(x: Log, h: History)
    requires ValidLog(x, h) && x != []
    ensures x[|x| - 1].term in h.leaderLog && x <= h.leaderLog[x[|x| - 1].term]
  {
    assert Placed(x, |x| - 1, h);
    assert x[..|x|] == x;
  }

  /** Log matching: two logs with one term at an index are identical up to it. */
  lemma LogMatching(x: Log, y: Log, k: nat, h: History)
    requires ValidLog(x, h) && ValidLog(y, h)
    requires 1 <= k && TermAt(x, k) == TermAt(y, k) != 0
    ensures x[..k] == y[..k]
  {
    assert Placed(x, k - 1, h) && Placed(y, k - 1, h);
    PrefixesOfOne(x[..k], y[..k], h.leaderLog[x[k - 1].term]);
  }

  // ----- leader completeness

  /** A log at least as up to date as one holding `p` holds `p`, unless `p` was lost before `u`. */
  lemma UpToDateHolds(p: Log, v: Log, d: Log, u: nat, h: History)
    requires LeaderLogsInv(h) && ValidLog(v, h) && ValidLog(d, h)
    requires p != [] && p <= v && TermsBelow(d, u)
    requires IdAtMost(LastId(v), LastId(d))
    requires !Lost(p, u - 1, h)
    ensures p <= d
  {
    TermsMonotone(v, |p| - 1, |v| - 1, h);
    var a := v[|v| - 1].term;
    var b := d[|d| - 1].term;
    OnLastLeaderLog(v, h);
    OnLastLeaderLog(d, h);
    if a == b {
      PrefixesOfOne(v, d, h.leaderLog[b]);
      PrefixTrans(p, v, d);
    } else {
      assert !StartsWithout(b, p, h);
      assert LeaderOk(b, h);
      LeaderLogTerms(b, |d| - 1, h);
      PrefixTrans(p, h.elections[b].start, h.leaderLog[b]);
      PrefixesOfOne(p, d, h.leaderLog[b]);
    }
  }

  /** If `p`, ending in a chosen entry, was not lost before `u`, the leader of `u` starts with it. */
  lemma CompletenessStep(t: nat, k: nat, u: nat, h: History, c: Conf)
    requires LeaderLogsInv(h) && ElectionsInv(h, c) && VotesInv(h)
    requires Chosen(t, k, h, c) && t < u && u in h.elections
    requires !Lost(h.leaderLog[t][..k], u - 1, h)
    ensures h.leaderLog[t][..k] <= h.elections[u].start
  {
    var p := h.leaderLog[t][..k];
    var e := h.elections[u];
    assert ElectionOk(u, h, c);
    var v := GrantedMeet(Ackers(t, k, h), e.voters, c);
    var a :| a in h.acks && a.term == t && a.upTo >= k && a.peer == v;
    assert VoterOk(v, u, h) && VoteOk(v, u, h);
    assert Remembered(a, k, v, u, h);
    var rec := h.votes[(v, u)];
    var d :| Backed(rec, d, u, h) && Evolves(d, e.start, u - 1, h);
    UpToDateHolds(p, rec.voterLog, d, u, h);
    assert Kept(d, e.start, k, u - 1, h);
    assert d[..k] == p;
  }

  /** Every leader elected after an entry was chosen started with everything up to that entry. */
  lemma {:induction false} LeaderCompleteness(t: nat, k: nat, u: nat, h: History, c: Conf)
    requires HistInv(h, c) && Chosen(t, k, h, c)
    requires t < u && u in h.elections
    ensures h.leaderLog[t][..k] <= h.elections[u].start
    decreases u
  {
    var p := h.leaderLog[t][..k];
    forall w: nat | t < w <= u - 1 ensures !StartsWithout(w, p, h) {
      if w in h.elections { LeaderCompleteness(t, k, w, h, c); }
    }
    CompletenessStep(t, k, u, h, c);
  }

  /** Whatever was chosen up to a term is in the log of that term's leader. */
  lemma KnownInLeaderLog(x: Log, u: nat, h: History, c: Conf)
    requires HistInv(h, c) && Known(x, u, h, c) && u in h.elections
    ensures x <= h.leaderLog[u]
  {
    if x != [] {
      var t: nat, k: nat :| t <= u && Chosen(t, k, h, c) && x <= h.leaderLog[t][..k];
      PrefixTrans(x, h.leaderLog[t][..k], h.leaderLog[t]);
      if t < u {
        LeaderCompleteness(t, k, u, h, c);
        assert LeaderOk(u, h);
        PrefixTrans(x, h.leaderLog[t][..k], h.elections[u].start);
        PrefixTrans(x, h.elections[u].start, h.leaderLog[u]);
      }
    }
  }

  /** Two chosen entries lie on one log. */
  lemma ChosenAgree(t1: nat, k1: nat, t2: nat, k2: nat, i: nat, h: History, c: Conf)
    requires HistInv(h, c) && Chosen(t1, k1, h, c) && Chosen(t2, k2, h, c)
    requires i < k1 && i < k2
    ensures h.leaderLog[t1][i] == h.leaderLog[t2][i]
  {
    var lo, hi, k := if t1 <= t2 then t1 else t2, if t1 <= t2 then t2 else t1, if t1 <= t2 then k1 else k2;
    assert Known(h.leaderLog[lo][..k], hi, h, c);
    KnownInLeaderLog(h.leaderLog[lo][..k], hi, h, c);
    assert h.leaderLog[lo][i] == h.leaderLog[lo][..k][i] == h.leaderLog[hi][i];
  }

  /** No two deliveries of one index carry different entries. */
  lemma DeliveriesAgree(d1: Delivery, d2: Delivery, h: History, c: Conf)
    requires HistInv(h, c) && d1 in h.delivered && d2 in h.delivered && d1.index == d2.index
    ensures d1.entry == d2.entry
  {
    assert DeliveryOk(d1, h, c) && DeliveryOk(d2, h, c);
    var t1: nat, k1: nat :| Chosen(t1, k1, h, c) && 1 <= d1.index <= k1 && h.leaderLog[t1][d1.index - 1] == d1.entry;
    var t2: nat, k2: nat :| Chosen(t2, k2, h, c) && 1 <= d2.index <= k2 && h.leaderLog[t2][d2.index - 1] == d2.entry;
    ChosenAgree(t1, k1, t2, k2, d1.index - 1, h, c);
  }

  /** One winner per term: a granted set of votes for `cand` in a decided term names the winner. */
  lemma OneWinner(g: set<PeerId>, cand: PeerId, t: nat, h: History, c: Conf)
    requires ElectionsInv(h, c) && t in h.elections && Granted(g, c)
    requires forall p :: p in g ==> (p, t) in h.votes && h.votes[(p, t)].cand == cand
    ensures h.elections[t].winner == cand
  {
    assert ElectionOk(t, h, c);
    var v := GrantedMeet(g, h.elections[t].voters, c);
    assert VoterOk(v, t, h);
  }
}
