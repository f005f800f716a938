/** The database gauges: lease and resource counts per sharing mode, expiration backlog and lag. */
module Metrics {
  import opened Types
  import opened Ranks
  import opened Catalog
  import opened Leasing
  import opened Draining
  import opened Agreement

  datatype Sharing = Sharing(active: nat, utilized: nat, total: nat)

  /** What the gauges promise, stated on leases and on listings rather than on grouped rows. */

  function ActiveUnder(s: Store, now: Time, mode: SharingMode, rows: set<Id>): set<Id> {
    set l | l in s.leases && s.leases[l].resource in rows && s.leases[l].resource in s.resources
      && s.resources[s.leases[l].resource].sharing == mode && ActiveAt(s.leases[l], now)
  }

  function Operational(s: Store, mode: SharingMode, rows: set<Id>): set<Id> {
    set r | r in s.resources && r in rows && s.resources[r].sharing == mode
      && s.resources[r].archivedAt.None? && s.resources[r].status == Active
  }

  function Utilized(s: Store, now: Time, mode: SharingMode, rows: set<Id>): set<Id> {
    set r | r in Operational(s, mode, rows) && Occupied(s, r, now)
  }

  predicate Accurate(s: Store, now: Time, mode: SharingMode, rows: set<Id>, m: Sharing) {
    && m.active == |ActiveUnder(s, now, mode, rows)|
    && m.utilized == |Utilized(s, now, mode, rows)|
    && m.total == |Operational(s, mode, rows)|
  }

  /** A mode is reported exactly when some row has it, and its numbers are the accurate ones. */
  ghost predicate Reports(s: Store, now: Time, rows: set<Id>, gauges: map<SharingMode, Sharing>) {
    forall mode :: if mode in gauges then Accurate(s, now, mode, rows, gauges[mode])
                   else forall r :: r in rows && r in s.resources ==> s.resources[r].sharing != mode
  }

  function Counted(m: Sharing, active: nat, operational: bool): Sharing {
    Sharing(m.active + active,
            m.utilized + (if operational && active > 0 then 1 else 0),
            m.total + (if operational then 1 else 0))
  }

  lemma AccurateOther(s: Store, now: Time, mode: SharingMode, rows: set<Id>, r: Id)
    requires r in s.resources && s.resources[r].sharing != mode
    ensures ActiveUnder(s, now, mode, rows + {r}) == ActiveUnder(s, now, mode, rows)
    ensures Utilized(s, now, mode, rows + {r}) == Utilized(s, now, mode, rows)
    ensures Operational(s, mode, rows + {r}) == Operational(s, mode, rows)
  {}

  lemma ActiveNext(s: Store, now: Time, rows: set<Id>, r: Id)
    requires r in s.resources && r !in rows
    ensures
      var mode := s.resources[r].sharing;
      |ActiveUnder(s, now, mode, rows + {r})| == |ActiveUnder(s, now, mode, rows)| + |ActiveLeases(s, r, now)|
  {
    var mode := s.resources[r].sharing;
    var before, here := ActiveUnder(s, now, mode, rows), ActiveLeases(s, r, now);
    assert ActiveUnder(s, now, mode, rows + {r}) == before + here;
    assert before !! here;
  }

  lemma OperationalNext(s: Store, rows: set<Id>, r: Id)
    requires r in s.resources && r !in rows
    ensures
      var mode, up := s.resources[r].sharing, s.resources[r].archivedAt.None? && s.resources[r].status == Active;
      |Operational(s, mode, rows + {r})| == |Operational(s, mode, rows)| + if up then 1 else 0
  {
    var mode, up := s.resources[r].sharing, s.resources[r].archivedAt.None? && s.resources[r].status == Active;
    var more := if up then {r} else {};
    assert Operational(s, mode, rows + {r}) == Operational(s, mode, rows) + more;
  }

  lemma UtilizedNext(s: Store, now: Time, rows: set<Id>, r: Id)
    requires r in s.resources && r !in rows
    ensures
      var mode, up := s.resources[r].sharing, s.resources[r].archivedAt.None? && s.resources[r].status == Active;
      |Utilized(s, now, mode, rows + {r})|
        == |Utilized(s, now, mode, rows)| + if up && Occupied(s, r, now) then 1 else 0
  {
    var mode, up := s.resources[r].sharing, s.resources[r].archivedAt.None? && s.resources[r].status == Active;
    var before, after := Utilized(s, now, mode, rows), Utilized(s, now, mode, rows + {r});
    assert r !in before && (r in after <==> up && Occupied(s, r, now));
    forall k | k != r ensures k in after <==> k in before {}
    assert after == before + if r in after then {r} else {};
  }

  lemma AccurateNext(s: Store, now: Time, rows: set<Id>, r: Id, m: Sharing)
    requires r in s.resources && r !in rows && Accurate(s, now, s.resources[r].sharing, rows, m)
    ensures
      var x := s.resources[r];
      Accurate(s, now, x.sharing, rows + {r},
               Counted(m, MetricsCount(s, r, now), x.archivedAt.None? && x.status == Active))
  {
    CountsAgree(s, r, now);
    ActiveNext(s, now, rows, r);
    OperationalNext(s, rows, r);
    UtilizedNext(s, now, rows, r);
  }

  /** Filing one more row keeps the report accurate. */
  lemma ReportsNext(s: Store, now: Time, rows: set<Id>, gauges: map<SharingMode, Sharing>, r: Id, m: Sharing)
    requires Reports(s, now, rows, gauges) && r in s.resources && r !in rows
    requires m == if s.resources[r].sharing in gauges then gauges[s.resources[r].sharing] else Sharing(0, 0, 0)
    ensures
      var x := s.resources[r];
      Reports(s, now, rows + {r},
              gauges[x.sharing := Counted(m, MetricsCount(s, r, now), x.archivedAt.None? && x.status == Active)])
  {
    var mine := s.resources[r].sharing;
    if mine !in gauges {
      NothingYet(s, now, mine, rows);
    }
    AccurateNext(s, now, rows, r, m);
    forall mode | mode in gauges && mode != mine ensures Accurate(s, now, mode, rows + {r}, gauges[mode]) {
      AccurateOther(s, now, mode, rows, r);
    }
  }

  lemma NothingYet(s: Store, now: Time, mode: SharingMode, rows: set<Id>)
    requires forall r :: r in rows && r in s.resources ==> s.resources[r].sharing != mode
    ensures Accurate(s, now, mode, rows, Sharing(0, 0, 0))
  {
    assert ActiveUnder(s, now, mode, rows) == {};
    assert Operational(s, mode, rows) == {} && Utilized(s, now, mode, rows) == {};
  }

  method FileRow(s: Store, now: Time, ghost rows: set<Id>, gauges: map<SharingMode, Sharing>, r: Id)
    returns (next: map<SharingMode, Sharing>)
    requires Reports(s, now, rows, gauges) && r in s.resources && r !in rows
    ensures Reports(s, now, rows + {r}, next)
  {
    var x := s.resources[r];
    var m := if x.sharing in gauges then gauges[x.sharing] else Sharing(0, 0, 0);
    ReportsNext(s, now, rows, gauges, r, m);
    next := gauges[x.sharing := Counted(m, MetricsCount(s, r, now), x.archivedAt.None? && x.status == Active)];
  }

  /** The first query and the loop that files its groups. */
  method CollectSharing(s: Store, now: Time) returns (gauges: map<SharingMode, Sharing>)
    ensures Reports(s, now, s.resources.Keys, gauges)
  {
    gauges := map[];
    var rest := s.resources.Keys;
    ghost var rows: set<Id> := {};
    while rest != {}
      invariant rest + rows == s.resources.Keys && rest !! rows
      invariant Reports(s, now, rows, gauges)
      decreases |rest|
    {
      var r :| r in rest;
      gauges := FileRow(s, now, rows, gauges, r);
      rest, rows := rest - {r}, rows + {r};
    }
    assert rows == s.resources.Keys;
  }

  /** Unended, and not after its expiry any more. */
  function Overdue(s: Store, now: Time): set<Id> {
    set l | l in s.leases && s.leases[l].endedAt == None
      && s.leases[l].expiresAt.Some? && s.leases[l].expiresAt.value <= now
  }

  lemma {:induction false} RanksCount(due: set<Rank>, ids: set<Id>)
    requires forall x :: x in due ==> x.id in ids
    requires forall l :: l in ids ==> exists x :: x in due && x.id == l
    requires forall x, y :: x in due && y in due && x.id == y.id ==> x == y
    ensures |due| == |ids|
  {
    if due != {} {
      var x :| x in due;
      RanksCount(due - {x}, ids - {x.id});
    } else {
      assert ids == {};
    }
  }

  lemma OverdueCounts(s: Store, now: Time)
    ensures |Overdue(s, now)| == Backlog(s, now)
  {
    forall l | l in Overdue(s, now) ensures Rank(0, s.leases[l].expiresAt, l) in DueLeases(s, now) {}
    RanksCount(DueLeases(s, now), Overdue(s, now));
  }

  /** The second query: how many leases are overdue, and for how long the oldest one has been. */
  method CollectExpiration(s: Store, now: Time) returns (backlog: nat, lag: Time)
    ensures backlog == Backlog(s, now) && lag == Lag(s, now)
    ensures backlog == |Overdue(s, now)| && lag >= 0
    ensures forall l :: l in Overdue(s, now) ==> now - s.leases[l].expiresAt.value <= lag
    ensures lag == 0 || exists l :: l in Overdue(s, now) && lag == now - s.leases[l].expiresAt.value
  {
    OverdueCounts(s, now);
    var due := DueLeases(s, now);
    backlog, lag := |due|, 0;
    var rest := due;
    while rest != {}
      invariant rest <= due && lag >= 0
      invariant forall x :: x in due && x !in rest ==> now - x.at.value <= lag
      invariant lag == 0 || exists x :: x in due && lag == now - x.at.value
      decreases |rest|
    {
      var x :| x in rest;
      if now - x.at.value > lag {
        lag := now - x.at.value;
      }
      rest := rest - {x};
    }
    if due != {} {
      assert First(due) in due;
    }
    forall l | l in Overdue(s, now) ensures now - s.leases[l].expiresAt.value <= lag {
      assert Rank(0, s.leases[l].expiresAt, l) in due;
    }
    if lag != 0 {
      var x :| x in due && lag == now - x.at.value;
      assert x.id in Overdue(s, now);
    }
  }

  /** What an administrator sees when listing the available resources of one mode. */
  function AvailableRows(s: Store, now: Time, dir: Directory, mode: SharingMode, administrator: Id): set<Id> {
    Listing(s, now, dir, Query(None, Some(mode), None, Some(true), map[], false), Caller(administrator, true))
  }

  lemma ListedRow(s: Store, now: Time, dir: Directory, mode: SharingMode, administrator: Id, r: Id)
    requires r in s.resources
    ensures r in AvailableRows(s, now, dir, mode, administrator) <==>
      && r in Operational(s, mode, s.resources.Keys)
      && (mode == Shared || r !in Utilized(s, now, mode, s.resources.Keys))
  {
    CountsAgree(s, r, now);
  }

  lemma ListedRows(s: Store, now: Time, dir: Directory, mode: SharingMode, administrator: Id)
    ensures
      AvailableRows(s, now, dir, mode, administrator)
        == Operational(s, mode, s.resources.Keys)
           - if mode == Shared then {} else Utilized(s, now, mode, s.resources.Keys)
  {
    forall r | r in s.resources
      ensures r in AvailableRows(s, now, dir, mode, administrator) <==>
        && r in Operational(s, mode, s.resources.Keys)
        && (mode == Shared || r !in Utilized(s, now, mode, s.resources.Keys))
    {
      ListedRow(s, now, dir, mode, administrator, r);
    }
  }

  lemma Remainder(a: set<Id>, b: set<Id>)
    requires b <= a
    ensures |a - b| == |a| - |b|
  {
    assert a == (a - b) + b;
  }

  /**
   * The gauges and the catalog agree. To an administrator, the Shared resources listed as
   * available are all the operational ones, and the Exclusive ones those not utilized.
   */
  lemma GaugesMatchListing(s: Store, now: Time, dir: Directory, mode: SharingMode, m: Sharing, administrator: Id)
    requires Accurate(s, now, mode, s.resources.Keys, m)
    ensures
      |AvailableRows(s, now, dir, mode, administrator)| == if mode == Shared then m.total else m.total - m.utilized
  {
    ListedRows(s, now, dir, mode, administrator);
    var up, busy := Operational(s, mode, s.resources.Keys), Utilized(s, now, mode, s.resources.Keys);
    Remainder(up, busy);
    assert up - {} == up;
  }

  /** The two modes together account for every active lease exactly once. */
  lemma EveryActiveLeaseIsCounted(s: Store, now: Time, shared: Sharing, exclusive: Sharing)
    requires Linked(s)
    requires Accurate(s, now, Shared, s.resources.Keys, shared)
    requires Accurate(s, now, Exclusive, s.resources.Keys, exclusive)
    ensures shared.active + exclusive.active == |set l | l in s.leases && ActiveAt(s.leases[l], now)|
  {
    var all := set l | l in s.leases && ActiveAt(s.leases[l], now);
    var a, b := ActiveUnder(s, now, Shared, s.resources.Keys), ActiveUnder(s, now, Exclusive, s.resources.Keys);
    assert all == a + b && a !! b;
  }
}
