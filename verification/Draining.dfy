/** The expiration worker: batches drained one after another against expiring everything at once. */
module Draining {
  import opened Sets
  import opened Types
  import opened Ranks
  import opened Catalog
  import opened Leasing

  /** Every overdue lease written down at once, in no order and without a log. */
  function OneShot(leases: map<Id, Lease>, now: Time): map<Id, Lease> {
    map l | l in leases :: if DueAt(leases[l], now) then ExpiredRow(leases[l]) else leases[l]
  }

  /** The backlog gauge: how many leases are overdue. */
  function Backlog(s: Store, now: Time): nat {
    |DueLeases(s, now)|
  }

  /** The lag gauge: how long the oldest overdue lease has been waiting, never negative. */
  function Lag(s: Store, now: Time): Time {
    var due := DueLeases(s, now);
    if due == {} || First(due).at.None? then 0
    else if now - First(due).at.value < 0 then 0
    else now - First(due).at.value
  }

  /** The worker's loop at one instant: batches until one expires nothing; counts productive ones. */
  function Drain(s: Store, now: Time, batch: nat): (Store, nat)
    requires batch >= 1
    decreases Backlog(s, now)
  {
    var (t, n) := ExpireBatch(s, now, batch);
    if n == 0 then (t, 0)
    else
      DueAfter(s, now, batch);
      var (u, k) := Drain(t, now, batch);
      (u, k + 1)
  }

  /** After a batch, exactly the leases it did not take are still overdue. */
  lemma DueAfter(s: Store, now: Time, limit: nat)
    ensures
      var rows, (t, n) := Leading(DueLeases(s, now), limit), ExpireBatch(s, now, limit);
      && DueLeases(t, now) == DueLeases(s, now) - Elements(rows)
      && n == |rows| && Backlog(t, now) == Backlog(s, now) - n
  {
    var due := DueLeases(s, now);
    var rows := Leading(due, limit);
    LeadingSize(due, limit);
    LeadingLeads(due, limit);
    ElementsSize(rows);
    DueAfterRows(s, now, rows);
    assert |due - Elements(rows)| == |due| - |Elements(rows)| by {
      assert Elements(rows) <= due;
      assert due == (due - Elements(rows)) + Elements(rows);
    }
  }

  lemma DueAfterRows(s: Store, now: Time, rows: seq<Rank>)
    requires forall x :: x in rows ==> x in DueLeases(s, now)
    ensures DueLeases(ExpireAll(s, Ids(rows)), now) == DueLeases(s, now) - Elements(rows)
  {
    var ids, t := Ids(rows), ExpireAll(s, Ids(rows));
    forall l | l in s.leases && DueAt(s.leases[l], now)
      ensures l in ids <==> Rank(0, s.leases[l].expiresAt, l) in rows
    {
      TakenByRank(s, now, rows, l);
    }
    forall x ensures x in DueLeases(t, now) <==> x in DueLeases(s, now) && x !in rows {
      if x in DueLeases(t, now) {
        assert t.leases[x.id] == s.leases[x.id];
      }
      if x in DueLeases(s, now) && x !in rows {
        assert t.leases[x.id] == s.leases[x.id];
      }
    }
  }

  lemma TakenByRank(s: Store, now: Time, rows: seq<Rank>, l: Id)
    requires forall x :: x in rows ==> x in DueLeases(s, now)
    requires l in s.leases
    ensures l in Ids(rows) <==> Rank(0, s.leases[l].expiresAt, l) in rows
  {
    if l in Ids(rows) {
      var i :| 0 <= i < |rows| && Ids(rows)[i] == l;
      assert rows[i] in DueLeases(s, now);
    }
    if Rank(0, s.leases[l].expiresAt, l) in rows {
      var i :| 0 <= i < |rows| && rows[i] == Rank(0, s.leases[l].expiresAt, l);
      assert Ids(rows)[i] == l;
    }
  }

  lemma SweepsConcatenate(s: Store, now: Time, m: nat, n: nat)
    ensures SweepIds(s, now, m + n) == SweepIds(s, now, m) + SweepIds(ExpireBatch(s, now, m).0, now, n)
  {
    DueAfter(s, now, m);
    IdsSplit(DueLeases(s, now), m, n);
  }

  /** Batches compose: a batch of m and then one of n is a batch of m + n. */
  lemma BatchesCompose(s: Store, now: Time, m: nat, n: nat)
    ensures
      var (t, i) := ExpireBatch(s, now, m);
      var (u, j) := ExpireBatch(t, now, n);
      ExpireBatch(s, now, m + n) == (u, i + j)
  {
    var t := ExpireBatch(s, now, m).0;
    SweepsConcatenate(s, now, m, n);
    AllCompose(s, SweepIds(s, now, m), SweepIds(t, now, n));
  }

  lemma AllCompose(s: Store, a: seq<Id>, b: seq<Id>)
    ensures ExpireAll(ExpireAll(s, a), b) == ExpireAll(s, a + b)
  {
    var t, u := ExpireAll(ExpireAll(s, a), b), ExpireAll(s, a + b);
    assert Expirations(a + b) == Expirations(a) + Expirations(b);
    assert t.audit == u.audit;
    assert t.leases == u.leases;
  }

  lemma FullBatchIsOneShot(s: Store, now: Time, limit: nat)
    requires Backlog(s, now) <= limit
    ensures ExpireBatch(s, now, limit).0.leases == OneShot(s.leases, now)
  {
    var rows := Leading(DueLeases(s, now), limit);
    LeadingTakesAll(DueLeases(s, now), limit);
    SweepTakesDue(s, now, limit);
    forall l | l in s.leases && DueAt(s.leases[l], now) ensures l in Ids(rows) {
      assert Rank(0, s.leases[l].expiresAt, l) in Elements(rows);
      var i :| 0 <= i < |rows| && rows[i] == Rank(0, s.leases[l].expiresAt, l);
      assert Ids(rows)[i] == l;
    }
  }

  // ----- The drain loop -----

  /** `k` is the least number of batches of size `b` that cover `d` leases: d / b rounded up. */
  predicate IsCeiling(k: int, d: int, b: nat) {
    (k - 1) * b < d <= k * b
  }

  lemma CeilingStep(k: int, d: int, b: nat)
    requires IsCeiling(k, d, b)
    ensures IsCeiling(k + 1, d + b, b)
  {
    assert k * b == (k - 1) * b + b;
    assert (k + 1) * b == k * b + b;
  }

  lemma OneRound(k: int, d: nat, batch: nat)
    requires IsCeiling(k, 0, batch) && 1 <= d <= batch
    ensures IsCeiling(k + 1, d, batch)
  {
    Sign(k, batch);
    Sign(k - 1, batch);
  }

  lemma Sign(k: int, batch: nat)
    requires batch >= 1
    ensures k * batch >= 0 <==> k >= 0
  {}

  lemma BeyondBatch(s: Store, now: Time, limit: nat)
    requires Backlog(s, now) <= limit
    ensures ExpireBatch(s, now, limit) == ExpireBatch(s, now, Backlog(s, now))
  {
    LimitBeyond(DueLeases(s, now), limit);
  }

  /** The first batch followed by the rest of the backlog is the whole backlog. */
  lemma FirstBatch(s: Store, now: Time, batch: nat)
    ensures
      var d := Backlog(s, now);
      var (t, n) := ExpireBatch(s, now, batch);
      && n == (if batch <= d then batch else d)
      && Backlog(t, now) == d - n
      && ExpireBatch(t, now, d - n).0 == ExpireBatch(s, now, d).0
  {
    var d := Backlog(s, now);
    var t := ExpireBatch(s, now, batch).0;
    DueAfter(s, now, batch);
    LeadingSize(DueLeases(s, now), batch);
    if batch <= d {
      BatchesCompose(s, now, batch, d - batch);
    } else {
      BeyondBatch(s, now, batch);
      EmptyBatch(t, now);
    }
  }

  lemma EmptyBatch(s: Store, now: Time)
    ensures ExpireBatch(s, now, 0) == (s, 0)
  {
    assert SweepIds(s, now, 0) == [];
    assert ExpireAll(s, []).leases == s.leases && ExpireAll(s, []).audit == s.audit;
  }

  /** Draining is one unbounded batch, in ceil(D / B) productive rounds. */
  lemma {:induction false} DrainIsOneBatch(s: Store, now: Time, batch: nat)
    requires batch >= 1
    ensures
      var d := Backlog(s, now);
      && Drain(s, now, batch).0 == ExpireBatch(s, now, d).0
      && IsCeiling(Drain(s, now, batch).1, d, batch)
    decreases Backlog(s, now)
  {
    var d := Backlog(s, now);
    var (t, n) := ExpireBatch(s, now, batch);
    FirstBatch(s, now, batch);
    if n != 0 {
      DrainIsOneBatch(t, now, batch);
      if d >= batch {
        CeilingStep(Drain(t, now, batch).1, d - batch, batch);
      } else {
        OneRound(Drain(t, now, batch).1, d, batch);
      }
    }
  }

  /**
   * For every batch size the drained table is the one-shot table, nothing is left overdue, and
   * both gauges read zero; neither the table nor the log depends on the batch size.
   */
  lemma DrainRefinesOneShot(s: Store, now: Time, batch: nat, other: nat)
    requires batch >= 1 && other >= 1
    ensures
      var t := Drain(s, now, batch).0;
      && t.leases == OneShot(s.leases, now)
      && t.resources == s.resources && t.grants == s.grants
      && Backlog(t, now) == 0 && Lag(t, now) == 0
      && t == Drain(s, now, other).0
  {
    DrainIsOneBatch(s, now, batch);
    DrainIsOneBatch(s, now, other);
    FullBatchIsOneShot(s, now, Backlog(s, now));
    DueAfter(s, now, Backlog(s, now));
  }

  // ----- The worker under a moving clock -----

  function Unended(s: Store): set<Id> {
    set l | l in s.leases && s.leases[l].endedAt.None?
  }

  /** Successive readings of the clock, one for each batch. */
  ghost predicate Rising(at: nat -> Time) {
    forall i: nat, j: nat :: i <= j ==> at(i) <= at(j)
  }

  /** A productive batch ends at least one lease for good. */
  lemma BatchEndsSome(s: Store, now: Time, batch: nat)
    requires ExpireBatch(s, now, batch).1 > 0
    ensures |Unended(ExpireBatch(s, now, batch).0)| < |Unended(s)|
  {
    var t, l := ExpireBatch(s, now, batch).0, SweepIds(s, now, batch)[0];
    SweepTakesDue(s, now, batch);
    assert Unended(t) <= Unended(s) - {l};
    SubsetSize(Unended(t), Unended(s) - {l});
    assert l in Unended(s);
  }

  /** Batches at successive readings until one expires nothing; the store and that batch's number. */
  function DrainAlong(s: Store, at: nat -> Time, i: nat, batch: nat): (Store, nat)
    requires batch >= 1
    decreases |Unended(s)|
  {
    var (t, n) := ExpireBatch(s, at(i), batch);
    if n == 0 then (t, i)
    else
      BatchEndsSome(s, at(i), batch);
      DrainAlong(t, at, i + 1, batch)
  }

  /** Expiring some overdue leases early does not change what expiring everything later leaves. */
  lemma OneShotAbsorbs(s: Store, t: Store, now: Time, later: Time)
    requires now <= later && t.leases.Keys == s.leases.Keys
    requires forall l :: l in s.leases ==>
      t.leases[l] == s.leases[l] || (DueAt(s.leases[l], now) && t.leases[l] == ExpiredRow(s.leases[l]))
    ensures OneShot(t.leases, later) == OneShot(s.leases, later)
  {
    forall l | l in s.leases ensures OneShot(t.leases, later)[l] == OneShot(s.leases, later)[l] {}
  }

  lemma BatchTakesDue(s: Store, now: Time, limit: nat)
    ensures
      var t := ExpireBatch(s, now, limit).0;
      && t.leases.Keys == s.leases.Keys
      && (forall l :: l in s.leases ==>
            t.leases[l] == s.leases[l] || (DueAt(s.leases[l], now) && t.leases[l] == ExpiredRow(s.leases[l])))
  {
    SweepTakesDue(s, now, limit);
  }

  lemma IdleBatch(s: Store, now: Time, batch: nat)
    requires batch >= 1 && ExpireBatch(s, now, batch).1 == 0
    ensures ExpireBatch(s, now, batch).0 == s && Backlog(s, now) == 0 && Lag(s, now) == 0
    ensures OneShot(s.leases, now) == s.leases
  {
    SweepTakesDue(s, now, batch);
    EmptyBatch(s, now);
    assert SweepIds(s, now, batch) == [];
    forall l | l in s.leases ensures !DueAt(s.leases[l], now) {
      assert Rank(0, s.leases[l].expiresAt, l) !in DueLeases(s, now);
    }
  }

  /**
   * While the clock moves on between batches, the drained table is the one that expiring everything
   * at once would leave at the last reading; then nothing is overdue and both gauges read zero.
   */
  lemma {:induction false} WorkerRefinesOneShot(s: Store, at: nat -> Time, i: nat, batch: nat)
    requires batch >= 1 && Rising(at)
    ensures
      var (t, k) := DrainAlong(s, at, i, batch);
      && i <= k <= i + |Unended(s)|
      && t.leases == OneShot(s.leases, at(k)) && t.resources == s.resources && t.grants == s.grants
      && Backlog(t, at(k)) == 0 && Lag(t, at(k)) == 0
    decreases |Unended(s)|
  {
    var (t, n) := ExpireBatch(s, at(i), batch);
    if n == 0 {
      IdleBatch(s, at(i), batch);
    } else {
      BatchEndsSome(s, at(i), batch);
      WorkerRefinesOneShot(t, at, i + 1, batch);
      BatchTakesDue(s, at(i), batch);
      OneShotAbsorbs(s, t, at(i), at(DrainAlong(t, at, i + 1, batch).1));
    }
  }

  /** With a clock that stands still this is the drain at one instant. */
  lemma {:induction false} StandingStill(s: Store, at: nat -> Time, now: Time, i: nat, batch: nat)
    requires batch >= 1 && forall k: nat :: at(k) == now
    ensures DrainAlong(s, at, i, batch) == (Drain(s, now, batch).0, i + Drain(s, now, batch).1)
    decreases |Unended(s)|
  {
    var (t, n) := ExpireBatch(s, at(i), batch);
    if n != 0 {
      BatchEndsSome(s, now, batch);
      StandingStill(t, at, now, i + 1, batch);
    }
  }
}
