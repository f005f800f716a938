/** Four queries count active leases in four ways; the catalog and the allocator read them alike. */
module Agreement {
  import opened Types
  import opened Ranks
  import opened Catalog
  import opened Leasing
  import opened Invariants

  // ----- Four ways to count -----

  /** Resources outer-joined to leases: a resource without leases keeps one row with a null lease. */
  function Joined(s: Store): set<(Id, Option<Id>)> {
    (set l | l in s.leases && s.leases[l].resource in s.resources :: (s.leases[l].resource, Some(l)))
    + (set r | r in s.resources && (forall l | l in s.leases :: s.leases[l].resource != r) :: (r, None))
  }

  /** The catalog projection: group by resource, count lease ids under the activity filter. */
  function FilteredCount(s: Store, r: Id, now: Time): nat {
    |set row | row in Joined(s) && row.0 == r && row.1.Some?
       && row.1.value in s.leases && ActiveAt(s.leases[row.1.value], now)|
  }

  /** The metrics query: activity is part of the join condition, and the join keeps every resource. */
  function JoinedActive(s: Store, now: Time): set<(Id, Option<Id>)> {
    (set l | l in s.leases && s.leases[l].resource in s.resources && ActiveAt(s.leases[l], now)
       :: (s.leases[l].resource, Some(l)))
    + (set r | r in s.resources
         && (forall l | l in s.leases :: s.leases[l].resource != r || !ActiveAt(s.leases[l], now)) :: (r, None))
  }

  function MetricsCount(s: Store, r: Id, now: Time): nat {
    |set row | row in JoinedActive(s, now) && row.0 == r && row.1.Some?|
  }

  /** The archive test: some active lease exists on the resource. */
  predicate Occupied(s: Store, r: Id, now: Time) {
    exists l | l in s.leases :: s.leases[l].resource == r && ActiveAt(s.leases[l], now)
  }

  function Tagged(ids: set<Id>, r: Id): set<(Id, Option<Id>)> {
    set l | l in ids :: (r, Some(l))
  }

  lemma {:induction false} TaggedSize(ids: set<Id>, r: Id)
    ensures |Tagged(ids, r)| == |ids|
  {
    if ids == {} {
      assert Tagged(ids, r) == {};
    } else {
      var k :| k in ids;
      TaggedSize(ids - {k}, r);
      assert Tagged(ids, r) == Tagged(ids - {k}, r) + {(r, Some(k))};
    }
  }

  /** For every store and resource the four agree with the correlated count of the allocator. */
  lemma CountsAgree(s: Store, r: Id, now: Time)
    requires r in s.resources
    ensures FilteredCount(s, r, now) == |ActiveLeases(s, r, now)|
    ensures MetricsCount(s, r, now) == |ActiveLeases(s, r, now)|
    ensures Occupied(s, r, now) <==> |ActiveLeases(s, r, now)| != 0
  {
    var active := ActiveLeases(s, r, now);
    var tagged := Tagged(active, r);
    TaggedSize(active, r);
    var filtered := set row | row in Joined(s) && row.0 == r && row.1.Some?
      && row.1.value in s.leases && ActiveAt(s.leases[row.1.value], now);
    forall row ensures row in filtered <==> row in tagged {
      if row in tagged {
        assert row == (s.leases[row.1.value].resource, Some(row.1.value));
      }
    }
    assert filtered == tagged;
    var metrics := set row | row in JoinedActive(s, now) && row.0 == r && row.1.Some?;
    forall row ensures row in metrics <==> row in tagged {
      if row in tagged {
        assert row == (s.leases[row.1.value].resource, Some(row.1.value));
      }
    }
    assert metrics == tagged;
    if |active| != 0 {
      var l :| l in active;
      assert Occupied(s, r, now);
    }
    if Occupied(s, r, now) {
      var l :| l in s.leases && s.leases[l].resource == r && ActiveAt(s.leases[l], now);
      assert active - {l} != active;
    }
  }

  // ----- What is listed as available is what can be acquired -----

  /** The listing a client would ask for before this acquisition. */
  function Matching(q: Request): Query {
    Query(Some(q.kind), Some(q.sharing), None, Some(true), q.labels, false)
  }

  /** Listed as available to the caller, with a policy compatible with the requested TTL. */
  predicate Offered(s: Store, now: Time, dir: Directory, q: Request, caller: Caller, r: Id) {
    r in Listing(s, now, dir, Matching(q), caller) && TtlCompatible(s.resources[r], q.ttl)
  }

  lemma OfferedIsEligible(s: Store, now: Time, dir: Directory, q: Request, caller: Caller, r: Id)
    requires r in s.resources
    ensures Offered(s, now, dir, q, caller, r) <==> Eligible(s, now, dir, q, caller, r)
  {
    CountsAgree(s, r, now);
  }

  /**
   * Completeness and choice. With an unused key in a reachable store, an acquisition succeeds
   * exactly when the available listing holds a TTL-compatible resource, and it is granted the
   * least of those by active count, last lease with nulls first, and id.
   */
  lemma AcquireMatchesListing(s: Store, clock: Time, now: Time, dir: Directory, q: Request, key: string,
                              caller: Caller, newId: Id)
    requires Sound(s, clock) && Holders(s, caller.id, key) == {} && newId !in s.leases
    ensures
      var (t, result) := Acquire(s, now, dir, q, key, caller, newId);
      && (result.Ok? <==> exists r :: Offered(s, now, dir, q, caller, r))
      && (result.Err? ==> result.error == NoMatch)
      && (result.Ok? ==>
            && result.value in t.leases
            && var c := t.leases[result.value].resource;
            && Offered(s, now, dir, q, caller, c)
            && (forall k | k in q.labels :: k in s.resources[c].labels && s.resources[c].labels[k] == q.labels[k])
            && forall r :: Offered(s, now, dir, q, caller, r) && r != c ==> Below(RankOf(s, now, c), RankOf(s, now, r)))
  {
    var candidates := Candidates(s, now, dir, q, caller);
    forall r | r in s.resources
      ensures Offered(s, now, dir, q, caller, r) <==> RankOf(s, now, r) in candidates
    {
      OfferedIsEligible(s, now, dir, q, caller, r);
      if RankOf(s, now, r) in candidates {
        assert RankOf(s, now, r).id == r;
      }
    }
    if candidates != {} {
      var c := First(candidates).id;
      CandidatesResolve(s.resources[c], q);
      assert Offered(s, now, dir, q, caller, c);
    }
  }
}
