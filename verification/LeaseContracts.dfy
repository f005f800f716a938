/**
 * What every lease operation answers and writes, said in the fields of rows and requests alone: no
 * clause here goes through the functions that the operations are made of.
 */
module LeaseContracts {
  import opened Types
  import opened Ranks
  import opened Catalog
  import opened CatalogContracts
  import opened Leasing
  import opened Draining
  import opened Invariants

  // ----- Acquisition -----

  /** The resource satisfies everything that the request asks of it, for this caller at this moment. */
  predicate Suits(s: Store, now: Time, dir: Directory, q: Request, caller: Caller, r: Id)
    requires r in s.resources
  {
    var x := s.resources[r];
    && x.archivedAt == None && x.status == Active && x.kind == q.kind && x.sharing == q.sharing
    && Carries(x.labels, q.labels)
    && (q.ttl == Explicit(None) ==> x.expiration == Optional)
    && (q.ttl.Explicit? && q.ttl.seconds.Some? && x.maxTtl.Some? ==> q.ttl.seconds.value <= x.maxTtl.value)
    && (q.ttl == Omitted && x.defaultTtl == None ==> x.expiration == Optional)
    && (caller.administrator || Reaches(s, dir, r, caller.id))
    && (q.sharing == Exclusive ==> forall l | l in s.leases && s.leases[l].resource == r :: !Runs(s.leases[l], now))
  }

  /** Fewer running leases first, then the one leased longest ago or never, then the smaller id. */
  predicate ComesBefore(s: Store, now: Time, a: Id, b: Id)
    requires a in s.resources && b in s.resources
  {
    var m, n := |RunningLeases(s, now, a)|, |RunningLeases(s, now, b)|;
    var d, e := s.resources[a].lastLeasedAt, s.resources[b].lastLeasedAt;
    m < n || (m == n && (if d == e then a < b else d == None || (e.Some? && d.value < e.value)))
  }

  lemma SuitsIsEligible(s: Store, now: Time, dir: Directory, q: Request, caller: Caller, r: Id)
    requires r in s.resources
    ensures Suits(s, now, dir, q, caller, r) <==> Eligible(s, now, dir, q, caller, r)
  {
    CountsRunning(s, now, r);
  }

  predicate KeyUnused(s: Store, principal: Id, key: string) {
    forall l | l in s.leases :: s.leases[l].owner != principal || s.leases[l].key != key
  }

  lemma UnusedHasNoHolders(s: Store, principal: Id, key: string)
    ensures KeyUnused(s, principal, key) <==> Holders(s, principal, key) == {}
  {
    forall l | l in s.leases && s.leases[l].owner == principal && s.leases[l].key == key
      ensures Rank(0, None, l) in Holders(s, principal, key) {}
  }

  lemma CandidatesSuit(s: Store, now: Time, dir: Directory, q: Request, caller: Caller)
    ensures forall r :: r in s.resources ==>
      (Suits(s, now, dir, q, caller, r) <==> RankOf(s, now, r) in Candidates(s, now, dir, q, caller))
    ensures forall x :: x in Candidates(s, now, dir, q, caller) ==> x.id in s.resources && x == RankOf(s, now, x.id)
  {
    forall r | r in s.resources
      ensures Suits(s, now, dir, q, caller, r) <==> RankOf(s, now, r) in Candidates(s, now, dir, q, caller)
    {
      SuitsIsEligible(s, now, dir, q, caller, r);
      assert RankOf(s, now, r).id == r;
    }
  }

  lemma BelowComesBefore(s: Store, now: Time, a: Id, b: Id)
    requires a in s.resources && b in s.resources
    ensures Below(RankOf(s, now, a), RankOf(s, now, b)) ==> ComesBefore(s, now, a, b)
  {
    CountsRunning(s, now, a);
    CountsRunning(s, now, b);
  }

  /** The first candidate is a suitable resource that comes before all others. */
  predicate Foremost(s: Store, now: Time, dir: Directory, q: Request, caller: Caller, c: Id) {
    && c in s.resources && Suits(s, now, dir, q, caller, c)
    && forall r | r in s.resources && Suits(s, now, dir, q, caller, r) && r != c :: ComesBefore(s, now, c, r)
  }

  lemma FirstIsForemost(s: Store, now: Time, dir: Directory, q: Request, caller: Caller)
    requires Candidates(s, now, dir, q, caller) != {}
    ensures Foremost(s, now, dir, q, caller, First(Candidates(s, now, dir, q, caller)).id)
  {
    CandidatesSuit(s, now, dir, q, caller);
    var c := First(Candidates(s, now, dir, q, caller)).id;
    forall r | r in s.resources && Suits(s, now, dir, q, caller, r) && r != c ensures ComesBefore(s, now, c, r) {
      assert RankOf(s, now, r) != RankOf(s, now, c);
      BelowComesBefore(s, now, c, r);
    }
  }

  /** With an unused key: success exactly when some resource suits, and then the foremost that does. */
  lemma AcquireChooses(s: Store, clock: Time, now: Time, dir: Directory, q: Request, key: string, caller: Caller,
                       newId: Id)
    requires Sound(s, clock) && KeyUnused(s, caller.id, key) && newId !in s.leases
    ensures
      var (t, o) := Acquire(s, now, dir, q, key, caller, newId);
      && (o == Ok(newId) || o == Err(NoMatch))
      && (o == Ok(newId) <==> exists r :: r in s.resources && Suits(s, now, dir, q, caller, r))
      && (o == Ok(newId) ==>
            newId in t.leases && Foremost(s, now, dir, q, caller, t.leases[newId].resource))
  {
    UnusedHasNoHolders(s, caller.id, key);
    CandidatesSuit(s, now, dir, q, caller);
    var candidates := Candidates(s, now, dir, q, caller);
    if candidates != {} {
      var c := First(candidates).id;
      FirstIsForemost(s, now, dir, q, caller);
      CandidatesResolve(s.resources[c], q);
    }
  }

  /** The expiry that a TTL field asks for, counted from `now`, on a resource with this default. */
  function Asked(now: Time, ttl: TtlIntent, default: Option<Ttl>): Option<Time> {
    var chosen := if ttl.Omitted? then default else ttl.seconds;
    if chosen == None then None
    else
      var seconds: int := chosen.value;
      Some(now + seconds * 1_000_000)
  }

  /** A fresh success writes exactly one lease, one stamp and one event. */
  lemma AcquireWrites(s: Store, now: Time, dir: Directory, q: Request, key: string, caller: Caller, newId: Id)
    requires KeyUnused(s, caller.id, key)
    ensures
      var (t, o) := Acquire(s, now, dir, q, key, caller, newId);
      && (o.Err? ==> t == s)
      && (o.Ok? ==>
            && o.value == newId && newId !in s.leases && newId in t.leases
            && var x := t.leases[newId];
            && x.resource in s.resources
            && x.owner == caller.id && x.key == key && x.hash == Canonical(q) && x.hash.sharing == q.sharing
            && x.acquiredAt == now
            && x.expiresAt == Asked(now, q.ttl, s.resources[x.resource].defaultTtl)
            && x.lastRenewedAt == None && x.endedAt == None && x.endReason == None
            && t.leases == s.leases[newId := x]
            && t.resources == s.resources[x.resource := s.resources[x.resource].(lastLeasedAt := Some(now))]
            && t.grants == s.grants
            && t.audit == s.audit + [Event(Some(caller.id), LeaseAcquired, newId)])
  {
    UnusedHasNoHolders(s, caller.id, key);
  }

  // ----- Renewal -----

  /** When a renewal is refused, and why, in the order of its tests. */
  lemma RenewRefuses(s: Store, now: Time, l: Id, intent: TtlIntent, principal: Id)
    requires Linked(s)
    ensures
      var (t, o) := Renew(s, now, l, intent, principal);
      && (o.Err? ==> t == s)
      && (o == Err(NotFound) <==> l !in s.leases || s.leases[l].owner != principal)
      && (l in s.leases && s.leases[l].owner == principal ==>
            var x := s.leases[l];
            var p := s.resources[x.resource];
            var over := !Runs(x, now);
            var seconds := if intent.Omitted? then p.defaultTtl else intent.seconds;
            && (o == Err(NotActive) <==> over)
            && (o == Err(RequiresExpiration) <==> !over && seconds == None && p.expiration == Required)
            && (o == Err(ExceedsMaximum) <==>
                  !over && seconds.Some? && p.maxTtl.Some? && seconds.value > p.maxTtl.value)
            && (o.Ok? <==> o !in {Err(NotActive), Err(RequiresExpiration), Err(ExceedsMaximum)}))
  {}

  /** A renewal counts the requested TTL, or the default, from now, whatever the lease had left. */
  lemma RenewWrites(s: Store, now: Time, l: Id, intent: TtlIntent, principal: Id)
    requires Linked(s) && Renew(s, now, l, intent, principal).1.Ok?
    ensures
      var (t, o) := Renew(s, now, l, intent, principal);
      var x := s.leases[l];
      var expiry := Asked(now, intent, s.resources[x.resource].defaultTtl);
      && o == Ok(expiry)
      && t == s.(leases := s.leases[l := x.(expiresAt := expiry, lastRenewedAt := Some(now))],
                 audit := s.audit + [Event(Some(principal), LeaseRenewed, l)])
  {}

  // ----- Release and revocation -----

  /** Only the owner releases; anyone the service lets revoke may; a lease ends once, now. */
  lemma EndWrites(s: Store, now: Time, l: Id, e: Ending, principal: Id)
    ensures
      var (t, o) := End(s, now, l, e, principal);
      && (o == Ok(()) || o == Err(NotFound))
      && (o == Err(NotFound) <==> l !in s.leases || (e == Release && s.leases[l].owner != principal))
      && (o.Err? || s.leases[l].endedAt.Some? ==> t == s)
      && (o.Ok? && s.leases[l].endedAt == None ==>
            var reason := if e == Release then Released else Revoked;
            var action := if e == Release then LeaseReleased else LeaseRevoked;
            t == s.(leases := s.leases[l := s.leases[l].(endedAt := Some(now), endReason := Some(reason))],
                    audit := s.audit + [Event(Some(principal), action, l)]))
  {}

  // ----- Expiration -----

  predicate Overdue(x: Lease, now: Time) {
    x.endedAt == None && x.expiresAt.Some? && x.expiresAt.value <= now
  }

  /** The leases that a batch changed. */
  function Taken(s: Store, t: Store): set<Id> {
    set l | l in s.leases && l in t.leases && t.leases[l] != s.leases[l]
  }

  /** A batch ends overdue leases at their own expiry, and touches nothing else but the log. */
  lemma BatchWrites(s: Store, now: Time, limit: nat)
    ensures
      var t := ExpireBatch(s, now, limit).0;
      && t.resources == s.resources && t.grants == s.grants && t.leases.Keys == s.leases.Keys
      && (forall l :: l in Taken(s, t) ==>
            && Overdue(s.leases[l], now)
            && t.leases[l] == s.leases[l].(endedAt := s.leases[l].expiresAt, endReason := Some(Expired)))
  {
    SweepTakesDue(s, now, limit);
  }

  lemma TakenAreSwept(s: Store, now: Time, limit: nat)
    ensures
      var t := ExpireBatch(s, now, limit).0;
      forall l :: l in Taken(s, t) <==> l in SweepIds(s, now, limit)
  {
    SweepTakesDue(s, now, limit);
  }

  /** It takes the earliest expiries, smaller ids first, and leaves some only when it took its fill. */
  lemma BatchTakesEarliest(s: Store, now: Time, limit: nat, l: Id, k: Id)
    requires l in Taken(s, ExpireBatch(s, now, limit).0)
    requires k in s.leases && Overdue(s.leases[k], now) && k !in Taken(s, ExpireBatch(s, now, limit).0)
    ensures s.leases[l].expiresAt.Some?
    ensures
      var d, e := s.leases[l].expiresAt.value, s.leases[k].expiresAt.value;
      d < e || (d == e && l < k)
    ensures ExpireBatch(s, now, limit).1 == limit
  {
    var due := DueLeases(s, now);
    var rows, ids := Leading(due, limit), SweepIds(s, now, limit);
    TakenAreSwept(s, now, limit);
    LeadingSize(due, limit);
    LeadingLeads(due, limit);
    var i :| 0 <= i < |ids| && ids[i] == l;
    assert rows[i] in due && rows[i].id == l && Rank(0, s.leases[k].expiresAt, k) in due;
    TakenByRank(s, now, rows, k);
    if |due| <= limit {
      UnfilledTakesAll(s, now, limit, k);
    }
  }

  lemma UnfilledTakesAll(s: Store, now: Time, limit: nat, k: Id)
    requires |DueLeases(s, now)| <= limit && k in s.leases && Overdue(s.leases[k], now)
    ensures k in SweepIds(s, now, limit)
  {
    var due := DueLeases(s, now);
    LeadingSize(due, limit);
    LeadingTakesAll(due, limit);
    TakenByRank(s, now, Leading(due, limit), k);
    assert Rank(0, s.leases[k].expiresAt, k) in Elements(Leading(due, limit));
  }

  /** The count is the number of leases taken, and the log names each of them once, in order. */
  lemma BatchCounts(s: Store, now: Time, limit: nat)
    ensures
      var (t, n) := ExpireBatch(s, now, limit);
      && n == |Taken(s, t)| && n <= limit
      && |t.audit| == |s.audit| + n && t.audit[..|s.audit|] == s.audit
      && (forall i :: |s.audit| <= i < |t.audit| ==>
            t.audit[i].actor == None && t.audit[i].action == LeaseExpired && t.audit[i].subject in Taken(s, t))
  {
    var ids, t := SweepIds(s, now, limit), ExpireBatch(s, now, limit).0;
    SweepTakesDue(s, now, limit);
    TakenAreSwept(s, now, limit);
    DistinctCount(ids);
    assert Taken(s, t) == Named(ids);
    forall i | |s.audit| <= i < |t.audit| ensures t.audit[i] == Event(None, LeaseExpired, ids[i - |s.audit|]) {}
  }

  function Named(ids: seq<Id>): set<Id> {
    set l | l in ids
  }

  lemma {:induction false} DistinctCount(ids: seq<Id>)
    requires forall i, j :: 0 <= i < j < |ids| ==> ids[i] != ids[j]
    ensures |Named(ids)| == |ids|
  {
    if ids != [] {
      var rest, l := ids[..|ids| - 1], ids[|ids| - 1];
      DistinctCount(rest);
      assert ids == rest + [l];
      assert Named(ids) == Named(rest) + {l};
    }
  }

  // ----- Disclosure through a lease -----

  /** Who passes the gate: an administrator through a running lease, its owner while he sees the resource. */
  lemma GateIsExact(s: Store, now: Time, dir: Directory, l: Id, caller: Caller)
    requires Linked(s)
    ensures MayDisclose(s, now, dir, l, caller) <==>
      && l in s.leases && Runs(s.leases[l], now)
      && (caller.administrator ||
          var r := s.leases[l].resource;
          s.leases[l].owner == caller.id && s.resources[r].archivedAt == None && Reaches(s, dir, r, caller.id))
  {}
}
