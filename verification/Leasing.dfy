/** Lease selection and lifecycle as functions from one committed store to the next. */
module Leasing {
  import opened Types
  import opened Ranks
  import opened Catalog

  // ----- Requests and policies -----

  /** The hashed payload keeps an omitted TTL apart from an explicit null. */
  function Canonical(q: Request): Payload {
    Payload(q.kind, q.sharing, q.labels,
            if q.ttl.Explicit? then q.ttl.seconds else None,
            if q.ttl.Omitted? then "omitted" else "explicit",
            q.consumer, q.metadata)
  }

  lemma CanonicalInjective(a: Request, b: Request)
    ensures Canonical(a) == Canonical(b) <==> a == b
  {
    assert "omitted"[0] != "explicit"[0];
  }

  function ResolveTtl(x: Resource, intent: TtlIntent): Result<Option<Ttl>> {
    var resolved := if intent.Explicit? then intent.seconds else x.defaultTtl;
    if resolved.None? && x.expiration == Required then Err(RequiresExpiration)
    else if resolved.Some? && x.maxTtl.Some? && resolved.value > x.maxTtl.value then Err(ExceedsMaximum)
    else Ok(resolved)
  }

  function ExpiryFrom(now: Time, ttl: Option<Ttl>): Option<Time> {
    if ttl.Some? then Some(now + ttl.value * SECOND) else None
  }

  // ----- Selection -----

  /** The acquisition query's TTL filter. */
  predicate TtlCompatible(x: Resource, intent: TtlIntent) {
    match intent
    case Explicit(None) => x.expiration == Optional
    case Explicit(Some(ttl)) => x.maxTtl.None? || x.maxTtl.value >= ttl
    case Omitted => x.defaultTtl.Some? || x.expiration == Optional
  }

  /** The filters of the acquisition query that read only the resource row. */
  predicate RowMatches(x: Resource, q: Request) {
    && x.archivedAt.None?
    && x.status == Active
    && x.kind == q.kind
    && x.sharing == q.sharing
    && Contains(x.labels, q.labels)
    && TtlCompatible(x, q.ttl)
  }

  predicate Eligible(s: Store, now: Time, dir: Directory, q: Request, caller: Caller, r: Id)
    requires r in s.resources
  {
    && RowMatches(s.resources[r], q)
    && (caller.administrator || Visible(s, dir, r, caller.id))
    && (q.sharing == Exclusive ==> |ActiveLeases(s, r, now)| == 0)
  }

  function RankOf(s: Store, now: Time, r: Id): Rank
    requires r in s.resources
  {
    Rank(|ActiveLeases(s, r, now)|, s.resources[r].lastLeasedAt, r)
  }

  /** Eligible rows with their sort keys: active count, last lease (nulls first), id. */
  function Candidates(s: Store, now: Time, dir: Directory, q: Request, caller: Caller): set<Rank> {
    set r | r in s.resources && Eligible(s, now, dir, q, caller, r) :: RankOf(s, now, r)
  }

  /** Leases stored under a principal's idempotency key; the unique constraint allows one. */
  function Holders(s: Store, principal: Id, key: string): set<Rank> {
    set l | l in s.leases && s.leases[l].owner == principal && s.leases[l].key == key :: Rank(0, None, l)
  }

  // ----- Row updates -----

  function NewLease(r: Id, owner: Id, key: string, q: Request, now: Time, ttl: Option<Ttl>): Lease {
    Lease(r, owner, key, Canonical(q), now, ExpiryFrom(now, ttl), None, None, None)
  }

  function RenewedRow(l: Lease, now: Time, ttl: Option<Ttl>): Lease {
    l.(expiresAt := ExpiryFrom(now, ttl), lastRenewedAt := Some(now))
  }

  function EndedRow(l: Lease, now: Time, reason: EndReason): Lease {
    l.(endedAt := Some(now), endReason := Some(reason))
  }

  function ExpiredRow(l: Lease): Lease {
    l.(endedAt := l.expiresAt, endReason := Some(Expired))
  }

  function PutLease(s: Store, l: Id, row: Lease): Store {
    s.(leases := s.leases[l := row])
  }

  function Granted(s: Store, r: Id, l: Id, row: Lease): Store
    requires r in s.resources
  {
    Log(PutResource(PutLease(s, l, row), r, s.resources[r].(lastLeasedAt := Some(row.acquiredAt))),
        Some(row.owner), LeaseAcquired, l)
  }

  // ----- Operations -----

  function Acquire(s: Store, now: Time, dir: Directory, q: Request, key: string, caller: Caller, newId: Id)
    : (Store, Result<Id>)
  {
    var holders := Holders(s, caller.id, key);
    if holders != {} then
      var l := First(holders).id;
      if s.leases[l].hash != Canonical(q) then (s, Err(KeyReused)) else (s, Ok(l))
    else
      var candidates := Candidates(s, now, dir, q, caller);
      if candidates == {} then (s, Err(NoMatch))
      else
        var r := First(candidates).id;
        var ttl := ResolveTtl(s.resources[r], q.ttl);
        if ttl.Err? then (s, Err(ttl.error))
        else if newId in s.leases then (s, Err(IdTaken))
        else (Granted(s, r, newId, NewLease(r, caller.id, key, q, now, ttl.value)), Ok(newId))
  }

  function Renew(s: Store, now: Time, l: Id, intent: TtlIntent, principal: Id): (Store, Result<Option<Time>>)
    requires Linked(s)
  {
    if l !in s.leases || s.leases[l].owner != principal then (s, Err(NotFound))
    else
      var row := s.leases[l];
      if !ActiveAt(row, now) then (s, Err(NotActive))
      else
        var ttl := ResolveTtl(s.resources[row.resource], intent);
        if ttl.Err? then (s, Err(ttl.error))
        else
          var renewed := RenewedRow(row, now, ttl.value);
          (Log(PutLease(s, l, renewed), Some(principal), LeaseRenewed, l), Ok(renewed.expiresAt))
  }

  /** Release by the owner, or revocation by an administrator. */
  datatype Ending = Release | Revoke

  function ReasonOf(e: Ending): EndReason {
    if e == Release then Released else Revoked
  }

  function ActionOf(e: Ending): Action {
    if e == Release then LeaseReleased else LeaseRevoked
  }

  function End(s: Store, now: Time, l: Id, e: Ending, principal: Id): (Store, Result<()>) {
    if l !in s.leases || (e == Release && s.leases[l].owner != principal) then (s, Err(NotFound))
    else if s.leases[l].endedAt.Some? then (s, Ok(()))
    else
      (Log(PutLease(s, l, EndedRow(s.leases[l], now, ReasonOf(e))), Some(principal), ActionOf(e), l), Ok(()))
  }

  // ----- Expiration -----

  /** Overdue leases in the order the worker takes them: expiry, then id. */
  function DueLeases(s: Store, now: Time): set<Rank> {
    set l | l in s.leases && DueAt(s.leases[l], now) :: Rank(0, s.leases[l].expiresAt, l)
  }

  /** The leases one batch selects, in selection order. */
  function SweepIds(s: Store, now: Time, limit: nat): seq<Id> {
    Ids(Leading(DueLeases(s, now), limit))
  }

  function ExpireLease(s: Store, l: Id): Store
    requires l in s.leases
  {
    Log(PutLease(s, l, ExpiredRow(s.leases[l])), None, LeaseExpired, l)
  }

  function Expirations(ids: seq<Id>): (events: seq<Event>)
    ensures |events| == |ids|
  {
    seq(|ids|, i requires 0 <= i < |ids| => Event(None, LeaseExpired, ids[i]))
  }

  /** Write down every lease of a batch as expired, in order. */
  function ExpireAll(s: Store, ids: seq<Id>): Store {
    s.(leases := map l | l in s.leases :: if l in ids then ExpiredRow(s.leases[l]) else s.leases[l],
       audit := s.audit + Expirations(ids))
  }

  /** At most `limit` overdue leases written down as expired, earliest first, and their number. */
  function ExpireBatch(s: Store, now: Time, limit: nat): (Store, nat) {
    var ids := SweepIds(s, now, limit);
    (ExpireAll(s, ids), |ids|)
  }

  lemma ExpireNext(s: Store, ids: seq<Id>, l: Id)
    requires l in s.leases
    ensures ExpireAll(s, ids + [l]) == ExpireLease(ExpireAll(s, ids), l)
  {
    var t, u := ExpireAll(s, ids + [l]), ExpireLease(ExpireAll(s, ids), l);
    assert Expirations(ids + [l]) == Expirations(ids) + [Event(None, LeaseExpired, l)];
    assert t.audit == u.audit;
    assert t.leases == u.leases;
  }

  /** A batch takes distinct overdue leases, as many as there are up to the limit. */
  lemma SweepTakesDue(s: Store, now: Time, limit: nat)
    ensures
      var ids := SweepIds(s, now, limit);
      && (forall l :: l in ids ==> l in s.leases && DueAt(s.leases[l], now))
      && (forall i, j :: 0 <= i < j < |ids| ==> ids[i] != ids[j])
      && |ids| == if limit <= |DueLeases(s, now)| then limit else |DueLeases(s, now)|
  {
    var due := DueLeases(s, now);
    var rows := Leading(due, limit);
    LeadingSize(due, limit);
    LeadingLeads(due, limit);
    forall i | 0 <= i < |rows|
      ensures rows[i].id in s.leases && DueAt(s.leases[rows[i].id], now)
        && rows[i] == Rank(0, s.leases[rows[i].id].expiresAt, rows[i].id)
    {
      assert rows[i] in due;
    }
  }

  // ----- Disclosure through a lease -----

  /** Who may read a resource's secrets through a lease, and when. */
  predicate MayDisclose(s: Store, now: Time, dir: Directory, l: Id, caller: Caller)
    requires Linked(s)
  {
    && l in s.leases
    && ActiveAt(s.leases[l], now)
    && (caller.administrator
        || (&& s.leases[l].owner == caller.id
            && s.resources[s.leases[l].resource].archivedAt.None?
            && Visible(s, dir, s.leases[l].resource, caller.id)))
  }
}
