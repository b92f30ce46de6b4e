/** How a well-formed record may grow, and why it stays well-formed. */
module RaftGrowth {
  import opened Quorum
  import opened LogTypes
  import opened RaftHistory

  ghost predicate LogGrows(t: nat, h: History, k: History)
    requires t in h.leaderLog
  {
    t in k.leaderLog && h.leaderLog[t] <= k.leaderLog[t]
  }

  ghost predicate DisksGrow(n: PeerId, h: History, k: History)
    requires n in h.disks
  {
    n in k.disks && h.disks[n] <= k.disks[n]
  }

  /** `k` extends `h`: records are only added, and leaders only append. */
  ghost predicate Grows(h: History, k: History) {
    && (forall x {:trigger x in k.votes} {:trigger x in h.votes} ::
          x in h.votes ==> x in k.votes && k.votes[x] == h.votes[x])
    && (forall t {:trigger t in k.elections} {:trigger t in h.elections} ::
          t in h.elections ==> t in k.elections && k.elections[t] == h.elections[t])
    && (forall t {:trigger LogGrows(t, h, k)} {:trigger t in h.leaderLog} :: t in h.leaderLog ==> LogGrows(t, h, k))
    && h.acks <= k.acks
    && (forall n {:trigger DisksGrow(n, h, k)} {:trigger n in h.disks} :: n in h.disks ==> DisksGrow(n, h, k))
    && h.delivered <= k.delivered
  }

  lemma ValidGrows(x: Log, h: History, k: History)
    requires Grows(h, k) && ValidLog(x, h)
    ensures ValidLog(x, k)
  {
    forall i | 0 <= i < |x| ensures Placed(x, i, k) {
      assert Placed(x, i, h);
      assert LogGrows(x[i].term, h, k);
      PrefixTrans(x[..i + 1], h.leaderLog[x[i].term], k.leaderLog[x[i].term]);
    }
  }

  lemma LostGrows(p: Log, lo: int, hi: int, h: History, k: History)
    requires Grows(h, k) && p != [] && Lost(p, lo, h) && lo <= hi
    ensures Lost(p, hi, k)
  {
    var u :| p[|p| - 1].term < u <= lo && StartsWithout(u, p, h);
    assert StartsWithout(u, p, k);
  }

  lemma EvolvesGrows(x: Log, y: Log, lo: int, hi: int, h: History, k: History)
    requires Grows(h, k) && Evolves(x, y, lo, h) && lo <= hi
    ensures Evolves(x, y, hi, k)
  {
    forall m | 1 <= m <= |x| ensures Kept(x, y, m, hi, k) {
      assert Kept(x, y, m, lo, h);
      if !(x[..m] <= y) { LostGrows(x[..m], lo, hi, h, k); }
    }
  }

  lemma EvolvesRefl(x: Log, hi: int, h: History)
    ensures Evolves(x, x, hi, h)
  {
    forall m | 1 <= m <= |x| ensures Kept(x, x, m, hi, h) {}
  }

  lemma EvolvesPrefix(x: Log, y: Log, hi: int, h: History)
    requires x <= y
    ensures Evolves(x, y, hi, h)
  {
    forall m | 1 <= m <= |x| ensures Kept(x, y, m, hi, h) {
      PrefixTrans(x[..m], x, y);
    }
  }

  lemma EvolvesTrans(x: Log, y: Log, z: Log, hi: int, h: History)
    requires Evolves(x, y, hi, h) && Evolves(y, z, hi, h)
    ensures Evolves(x, z, hi, h)
  {
    forall m | 1 <= m <= |x| ensures Kept(x, z, m, hi, h) {
      assert Kept(x, y, m, hi, h);
      if x[..m] <= y {
        assert Kept(y, z, m, hi, h);
        assert y[..m] == x[..m];
      }
    }
  }

  /** Anything between `y` and a longer log evolves from what `y` evolved from. */
  lemma EvolvesUp(x: Log, y: Log, z: Log, hi: int, h: History)
    requires Evolves(x, y, hi, h) && y <= z
    ensures Evolves(x, z, hi, h)
  {
    EvolvesPrefix(y, z, hi, h);
    EvolvesTrans(x, y, z, hi, h);
  }

  lemma ChosenGrows(t: nat, i: nat, h: History, k: History, c: Conf)
    requires Grows(h, k) && Chosen(t, i, h, c)
    ensures Chosen(t, i, k, c) && h.leaderLog[t][..i] == k.leaderLog[t][..i]
  {
    assert LogGrows(t, h, k);
    assert Ackers(t, i, h) <= Ackers(t, i, k);
    GrantedMonotone(Ackers(t, i, h), Ackers(t, i, k), c);
  }

  lemma KnownGrows(x: Log, lo: nat, hi: nat, h: History, k: History, c: Conf)
    requires Grows(h, k) && Known(x, lo, h, c) && lo <= hi
    ensures Known(x, hi, k, c)
  {
    if x != [] {
      var t: nat, i: nat :| t <= lo && Chosen(t, i, h, c) && x <= h.leaderLog[t][..i];
      ChosenGrows(t, i, h, k, c);
    }
  }

  lemma KnownPrefix(x: Log, y: Log, hi: nat, h: History, c: Conf)
    requires Known(y, hi, h, c) && x <= y
    ensures Known(x, hi, h, c)
  {
    if x != [] {
      var t: nat, i: nat :| t <= hi && Chosen(t, i, h, c) && y <= h.leaderLog[t][..i];
      PrefixTrans(x, y, h.leaderLog[t][..i]);
    }
  }

  // ----- one element of the record under growth

  lemma LeaderOkGrows(t: nat, h: History, k: History)
    requires Grows(h, k) && t in h.elections && LeaderOk(t, h)
    requires t in k.leaderLog && k.leaderLog[t] == h.leaderLog[t]
    ensures LeaderOk(t, k)
  {
    ValidGrows(h.leaderLog[t], h, k);
  }

  lemma ElectionOkGrows(t: nat, h: History, k: History, c: Conf)
    requires Grows(h, k) && t in h.elections && ElectionOk(t, h, c)
    ensures ElectionOk(t, k, c)
  {
    forall v | v in k.elections[t].voters ensures VoterOk(v, t, k) {
      assert VoterOk(v, t, h);
      var d :| Backed(h.votes[(v, t)], d, t, h) && Evolves(d, h.elections[t].start, t - 1, h);
      ValidGrows(d, h, k);
      EvolvesGrows(d, h.elections[t].start, t - 1, t - 1, h, k);
      assert Backed(k.votes[(v, t)], d, t, k);
    }
  }

  lemma VoteOkGrows(v: PeerId, t: nat, h: History, k: History)
    requires Grows(h, k) && (v, t) in h.votes && VoteOk(v, t, h) && AcksInv(h)
    requires forall a :: a in k.acks && a.peer == v && a.term < t ==> a in h.acks
    ensures VoteOk(v, t, k)
  {
    var rec := h.votes[(v, t)];
    ValidGrows(rec.voterLog, h, k);
    if t !in k.elections {
      var d :| d in h.disks[rec.cand] && Backed(rec, d, t, h);
      ValidGrows(d, h, k);
      assert DisksGrow(rec.cand, h, k);
      assert Backed(rec, d, t, k);
    }
    if Counts(v, t, k) {
      forall a, m: nat | a in k.acks && a.peer == v && a.term < t && a.term in k.leaderLog
                    && 1 <= m <= a.upTo && m <= |k.leaderLog[a.term]| && k.leaderLog[a.term][m - 1].term == a.term
        ensures Remembered(a, m, v, t, k)
      {
        assert AckOk(a, h);
        assert LogGrows(a.term, h, k);
        assert Remembered(a, m, v, t, h);
        var p := h.leaderLog[a.term][..m];
        assert p == k.leaderLog[a.term][..m];
        if !(p <= rec.voterLog) { LostGrows(p, t - 1, t - 1, h, k); }
      }
    }
  }

  lemma AckOkGrows(a: Ack, h: History, k: History)
    requires Grows(h, k) && AckOk(a, h)
    ensures AckOk(a, k)
  {
    assert LogGrows(a.term, h, k) && DisksGrow(a.peer, h, k);
    var d :| d in h.disks[a.peer] && h.leaderLog[a.term][..a.upTo] <= d;
    assert h.leaderLog[a.term][..a.upTo] == k.leaderLog[a.term][..a.upTo];
  }

  lemma DeliveryOkGrows(d: Delivery, h: History, k: History, c: Conf)
    requires Grows(h, k) && DeliveryOk(d, h, c)
    ensures DeliveryOk(d, k, c)
  {
    var t: nat, i: nat :| Chosen(t, i, h, c) && 1 <= d.index <= i && h.leaderLog[t][d.index - 1] == d.entry;
    ChosenGrows(t, i, h, k, c);
    assert h.leaderLog[t][..i][d.index - 1] == k.leaderLog[t][..i][d.index - 1];
  }

  // ----- the whole record under growth: only what is new has to be checked

  /** New pieces of `k` are fine, and old acknowledgements and votes are not disturbed. */
  ghost predicate NewPiecesOk(h: History, k: History, c: Conf) {
    && k.elections.Keys == k.leaderLog.Keys
    && (forall t {:trigger LeaderOk(t, k)} :: t in k.elections ==>
          (t in h.elections && t in h.leaderLog && k.leaderLog[t] == h.leaderLog[t]) || LeaderOk(t, k))
    && (forall t {:trigger ElectionOk(t, k, c)} :: t in k.elections && t !in h.elections ==> ElectionOk(t, k, c))
    && (forall v, t {:trigger VoteOk(v, t, k)} :: (v, t) in k.votes && (v, t) !in h.votes ==> VoteOk(v, t, k))
    && (forall a {:trigger AckOk(a, k)} :: a in k.acks && a !in h.acks ==> AckOk(a, k))
    && (forall a, t {:trigger a in k.acks, (a.peer, t) in h.votes} ::
          a in k.acks && a !in h.acks && (a.peer, t) in h.votes ==> t <= a.term)
    && (forall n, d {:trigger d in k.disks[n]} :: n in k.disks && d in k.disks[n] ==> (n in h.disks && d in h.disks[n]) || ValidLog(d, k))
    && (forall d {:trigger DeliveryOk(d, k, c)} :: d in k.delivered && d !in h.delivered ==> DeliveryOk(d, k, c))
  }

  lemma HistInvGrows(h: History, k: History, c: Conf)
    requires HistInv(h, c) && Grows(h, k) && NewPiecesOk(h, k, c)
    ensures HistInv(k, c)
  {
    forall t | t in k.elections ensures LeaderOk(t, k) {
      if t in h.elections && k.leaderLog[t] == h.leaderLog[t] {
        assert LeaderOk(t, h);
        LeaderOkGrows(t, h, k);
      }
    }
    forall t | t in k.elections ensures ElectionOk(t, k, c) {
      if t in h.elections {
        assert ElectionOk(t, h, c);
        ElectionOkGrows(t, h, k, c);
      }
    }
    forall v, t | (v, t) in k.votes ensures VoteOk(v, t, k) {
      if (v, t) in h.votes {
        assert VoteOk(v, t, h);
        VoteOkGrows(v, t, h, k);
      }
    }
    forall a | a in k.acks ensures AckOk(a, k) {
      if a in h.acks {
        assert AckOk(a, h);
        AckOkGrows(a, h, k);
      }
    }
    forall n, d | n in k.disks && d in k.disks[n] ensures ValidLog(d, k) {
      if n in h.disks && d in h.disks[n] { ValidGrows(d, h, k); }
    }
    forall d | d in k.delivered ensures DeliveryOk(d, k, c) {
      if d in h.delivered {
        assert DeliveryOk(d, h, c);
        DeliveryOkGrows(d, h, k, c);
      }
    }
  }
}
