/**
 * Leasing transactions interleaved statement by statement under PostgreSQL's Read Committed
 * (section 13.2.1 of the PostgreSQL documentation). A transaction is a program point; its writes
 * become visible when it commits; each statement reads what is committed when it starts.
 */
module Interleaving {
  import opened Types
  import opened Ranks
  import opened Catalog
  import opened Leasing

  type Tx = nat

  datatype Lock =
    | Advisory(slot: int)
    | LeaseRow(lease: Id)
    | ResourceRow(resource: Id)
    | SecretRow(secret: Id)

  /** The arguments of one acquisition; the directory is the one its statements see. */
  datatype Ask = Ask(request: Request, key: string, caller: Caller, dir: Directory)

  /** The statements that rewrite a resource or its grants under the resource row lock. */
  datatype Work =
    | Archiving
    | Patching(patch: Patch)
    | Transiting(transition: Transition)
    | Regranting(grantee: Grantee, granted: bool)

  /** Where a transaction stands. A point named with -ing may still have to wait for a lock. */
  datatype Point =
    // Acquisition
    | Keying(ask: Ask)
    | Keyed(ask: Ask)
    | Unheld(ask: Ask)
    | Choosing(ask: Ask, seen: Store)
    | Claiming(ask: Ask, seen: Store, row: Id)
    | Claimed(ask: Ask, row: Id)
    | Clear(ask: Ask, row: Id)
    | Inserted(ask: Ask, row: Id, id: Id, lease: Lease)
    // Renewal
    | Renewing(id: Id, intent: TtlIntent, owner: Id)
    | RenewLeased(id: Id, intent: TtlIntent, read: Lease)
    | RenewLocked(id: Id, intent: TtlIntent, read: Lease)
    | RenewChecked(id: Id, intent: TtlIntent, read: Lease)
    | RenewWritten(id: Id, read: Lease, at: Time, ttl: Option<Ttl>)
    // Release and revocation
    | Finishing(id: Id, ending: Ending, actor: Id)
    | EndLeased(id: Id, ending: Ending, read: Lease)
    | EndLocked(id: Id, ending: Ending, read: Lease)
    // Expiration
    | Scanning(limit: nat)
    | Sweeping(ids: seq<Id>, done: nat)
    // Creation and the other catalog writes
    | Creating(id: Id, draft: Draft)
    | Managing(row: Id, work: Work)
    | Managed(row: Id, work: Work)
    | Settled(row: Id, work: Work)
    // Secret management and disclosure: only the locks matter here
    | Disclosing(path: seq<Lock>)

  /** `start` is the transaction's frozen now(). */
  datatype Txn = Txn(start: Time, point: Point)

  /** What a client was told about an acquisition: the lease, or that the key is taken. */
  datatype Reply = Reply(principal: Id, key: string, request: Request, granted: Option<Id>)

  datatype Sys = Sys(
    db: Store,
    serial: map<Id, nat>,
    txns: map<Tx, Txn>,
    locks: map<Lock, Tx>,
    clock: Time,
    replies: seq<Reply>
  )

  /** hashtextextended of the key string: any function will do, collisions included. */
  type Hash = (Id, string) -> int

  /** One statement of a running transaction, with the choices the database makes for it. */
  datatype Act =
    | TakeKey
    | LookUp
    | TakeSnapshot
    | Await(row: Id)
    | Claim(row: Id)
    | Recheck
    | Insert(id: Id)
    | LockLease
    | LockParent
    | Check
    | Write
    | Scan(ids: seq<Id>)
    | Sweep
    | LockManaged
    | Settle
    | LockNext
    | Commit
    | Abort

  datatype Move =
    | Tick(to: Time)
    | Begin(tx: Tx, point: Point)
    | Run(tx: Tx, act: Act)

  // ----- Locks -----

  predicate Free(s: Sys, tx: Tx, lock: Lock) {
    lock !in s.locks || s.locks[lock] == tx
  }

  predicate Holds(s: Sys, tx: Tx, lock: Lock) {
    lock in s.locks && s.locks[lock] == tx
  }

  function At(s: Sys, tx: Tx, p: Point): Sys
    requires tx in s.txns
  {
    s.(txns := s.txns[tx := s.txns[tx].(point := p)])
  }

  function Locking(s: Sys, tx: Tx, lock: Lock): Sys {
    s.(locks := s.locks[lock := tx])
  }

  /** Commit or rollback releases everything the transaction held. */
  function Ended(s: Sys, tx: Tx): Sys {
    s.(txns := s.txns - {tx}, locks := map k | k in s.locks && s.locks[k] != tx :: s.locks[k])
  }

  function SlotOf(h: Hash, a: Ask): Lock {
    Advisory(h(a.caller.id, a.key))
  }

  // ----- Statements -----

  predicate Initial(p: Point) {
    || p.Keying? || p.Renewing? || p.Finishing? || p.Scanning? || p.Managing?
    || (p.Creating? && PolicyValid(p.draft.expiration, p.draft.defaultTtl, p.draft.maxTtl))
    || (p.Disclosing? && Ascending(p.path))
  }

  function Level(lock: Lock): nat {
    match lock
    case Advisory(_) => 0
    case LeaseRow(_) => 1
    case ResourceRow(_) => 2
    case SecretRow(_) => 3
  }

  /** The three secret paths lock lease, resource and secret rows, in this order, skipping some. */
  predicate Ascending(path: seq<Lock>) {
    forall i, j :: 0 <= i < j < |path| ==> Level(path[i]) < Level(path[j])
  }

  function Answer(s: Sys, a: Ask, granted: Option<Id>): Sys {
    s.(replies := s.replies + [Reply(a.caller.id, a.key, a.request, granted)])
  }

  /** The candidate statement's WHERE clause on the snapshot it started from. */
  predicate Offered(seen: Store, start: Time, a: Ask, row: Id) {
    row in seen.resources && Eligible(seen, start, a.dir, a.request, a.caller, row)
  }

  /**
   * The same clause re-evaluated once the row is locked: the newest version of the resource row,
   * while the correlated count and the grant subqueries still read the old snapshot.
   */
  predicate Requalifies(seen: Store, db: Store, start: Time, a: Ask, row: Id) {
    row in db.resources && Eligible(seen.(resources := db.resources), start, a.dir, a.request, a.caller, row)
  }

  function Rewritten(db: Store, start: Time, row: Id, w: Work): Store
    requires row in db.resources
  {
    var x := db.resources[row];
    match w
    case Archiving => PutResource(db, row, ArchivedRow(x, start))
    // An update that names no field is answered without a write.
    case Patching(p) => if IsEmpty(p) then db else PutResource(db, row, Patched(x, p))
    case Transiting(t) => PutResource(db, row, x.(status := Destination(t), version := x.version + 1))
    case Regranting(g, on) =>
      if on then db.(grants := db.grants + {(row, g)}) else db.(grants := db.grants - {(row, g)})
  }

  /** The checks a catalog write makes after locking its row. */
  predicate Permitted(db: Store, start: Time, row: Id, w: Work) {
    && row in db.resources && db.resources[row].archivedAt.None?
    && (match w
        case Archiving => ActiveLeases(db, row, start) == {}
        case Patching(p) =>
          p.version == db.resources[row].version && HasValidPolicy(Patched(db.resources[row], p))
        case Transiting(t) => db.resources[row].status in Sources(t)
        case Regranting(_, _) => true)
  }

  /** A name that another resource has is refused when the row is written. */
  predicate Storable(db: Store, row: Id, w: Work)
    requires row in db.resources
  {
    w.Patching? && !IsEmpty(w.patch) ==> NameFree(db, Patched(db.resources[row], w.patch).name, {row})
  }

  predicate Distinct(ids: seq<Id>) {
    forall i, j :: 0 <= i < j < |ids| ==> ids[i] != ids[j]
  }

  /** Row order of the batch statement. */
  predicate ByExpiry(db: Store, ids: seq<Id>)
    requires forall l :: l in ids ==> l in db.leases && db.leases[l].expiresAt.Some?
  {
    forall i, j :: 0 <= i < j < |ids| ==>
      db.leases[ids[i]].expiresAt.value < db.leases[ids[j]].expiresAt.value
      || (db.leases[ids[i]].expiresAt == db.leases[ids[j]].expiresAt && ids[i] < ids[j])
  }

  function LockAll(locks: map<Lock, Tx>, ids: seq<Id>, tx: Tx): map<Lock, Tx> {
    locks + (map l | l in ids :: LeaseRow(l) := tx)
  }

  /** What a committing transaction publishes; None when its point cannot commit. */
  function Published(s: Sys, tx: Tx): Option<Sys>
    requires tx in s.txns
  {
    var x := s.txns[tx];
    match x.point
    case Inserted(a, row, id, lease) =>
      if id in s.db.leases || row !in s.db.resources then None
      else
        var db := PutResource(PutLease(s.db, id, lease), row,
                              s.db.resources[row].(lastLeasedAt := Some(lease.acquiredAt)));
        Some(Answer(s.(db := db, serial := s.serial[id := |s.serial|]), a, Some(id)))
    case RenewWritten(id, _, at, ttl) =>
      if id !in s.db.leases then None
      else Some(s.(db := PutLease(s.db, id, RenewedRow(s.db.leases[id], at, ttl))))
    case EndLocked(id, e, read) =>
      if id !in s.db.leases then None
      else if read.endedAt.Some? then Some(s)
      else Some(s.(db := PutLease(s.db, id, EndedRow(s.db.leases[id], x.start, ReasonOf(e)))))
    case Sweeping(ids, done) =>
      if done != |ids| then None else Some(s.(db := ExpireAll(s.db, ids)))
    case Creating(id, draft) =>
      // The insert fails on a taken id or name.
      if id in s.db.resources || !NameFree(s.db, draft.name, {}) then None
      else Some(s.(db := PutResource(s.db, id, NewResource(draft))))
    case Settled(row, w) =>
      if row !in s.db.resources || !Storable(s.db, row, w) then None
      else Some(s.(db := Rewritten(s.db, x.start, row, w)))
    case Disclosing(path) => if path == [] then Some(s) else None
    case Keying(_) => None
    case Keyed(_) => None
    case Unheld(_) => None
    case Choosing(_, _) => None
    case Claiming(_, _, _) => None
    case Claimed(_, _) => None
    case Clear(_, _) => None
    case Renewing(_, _, _) => None
    case RenewLeased(_, _, _) => None
    case RenewLocked(_, _, _) => None
    case RenewChecked(_, _, _) => None
    case Finishing(_, _, _) => None
    case EndLeased(_, _, _) => None
    case Scanning(_) => None
    case Managing(_, _) => None
    case Managed(_, _) => None
  }

  /** The idempotency lookup: nothing stored, or an answer that ends the transaction. */
  function LookedUp(s: Sys, tx: Tx, a: Ask): Sys
    requires tx in s.txns
  {
    var holders := Holders(s.db, a.caller.id, a.key);
    if holders == {} then At(s, tx, Unheld(a))
    else
      var l := First(holders).id;
      var same := l in s.db.leases && s.db.leases[l].hash == Canonical(a.request);
      Ended(Answer(s, a, if same then Some(l) else None), tx)
  }

  /** The row is locked; it is returned, or kept locked and passed over, by the re-evaluation. */
  function Tried(s: Sys, tx: Tx, a: Ask, seen: Store, row: Id): Sys
    requires tx in s.txns
  {
    At(Locking(s, tx, ResourceRow(row)), tx,
       if Requalifies(seen, s.db, s.txns[tx].start, a, row) then Claimed(a, row) else Choosing(a, seen))
  }

  predicate Sweepable(s: Sys, tx: Tx, limit: nat, ids: seq<Id>)
    requires tx in s.txns
  {
    && |ids| <= limit && Distinct(ids)
    && (forall l | l in ids ::
          l in s.db.leases && DueAt(s.db.leases[l], s.txns[tx].start) && Free(s, tx, LeaseRow(l)))
    && ByExpiry(s.db, ids)
  }

  // The next statement of a running transaction; None when it has to wait, fails, or is not its turn.

  function NextAcquiring(h: Hash, s: Sys, tx: Tx, act: Act): Option<Sys>
    requires tx in s.txns && Acquiring(s.txns[tx].point)
  {
    var start := s.txns[tx].start;
    match s.txns[tx].point
    case Keying(a) =>
      if act == TakeKey && Free(s, tx, SlotOf(h, a)) then Some(At(Locking(s, tx, SlotOf(h, a)), tx, Keyed(a)))
      else None
    case Keyed(a) => if act == LookUp then Some(LookedUp(s, tx, a)) else None
    case Unheld(a) => if act == TakeSnapshot then Some(At(s, tx, Choosing(a, s.db))) else None
    case Choosing(a, seen) =>
      // A Shared request waits for the row it is about to lock; an Exclusive one skips locked rows.
      if act.Await? && a.request.sharing == Shared && Offered(seen, start, a, act.row)
      then Some(At(s, tx, Claiming(a, seen, act.row)))
      else if act.Claim? && a.request.sharing == Exclusive && Offered(seen, start, a, act.row)
        && Free(s, tx, ResourceRow(act.row))
      then Some(Tried(s, tx, a, seen, act.row))
      else None
    case Claiming(a, seen, row) =>
      if act == Claim(row) && Free(s, tx, ResourceRow(row)) then Some(Tried(s, tx, a, seen, row)) else None
    case Claimed(a, row) =>
      // The second activity read is a new statement with the same frozen now().
      if act == Recheck && (a.request.sharing == Exclusive ==> ActiveLeases(s.db, row, start) == {})
      then Some(At(s, tx, Clear(a, row)))
      else None
    case Clear(a, row) =>
      if act.Insert? && row in s.db.resources && ResolveTtl(s.db.resources[row], a.request.ttl).Ok?
      then
        var ttl := ResolveTtl(s.db.resources[row], a.request.ttl).value;
        var lease := NewLease(row, a.caller.id, a.key, a.request, s.clock, ttl);
        Some(At(s, tx, Inserted(a, row, act.id, lease)))
      else None
  }

  predicate Acquiring(p: Point) {
    p.Keying? || p.Keyed? || p.Unheld? || p.Choosing? || p.Claiming? || p.Claimed? || p.Clear?
  }

  function NextRenewing(s: Sys, tx: Tx, act: Act): Option<Sys>
    requires tx in s.txns && Renewal(s.txns[tx].point)
  {
    match s.txns[tx].point
    case Renewing(id, intent, owner) =>
      if act == LockLease && id in s.db.leases && s.db.leases[id].owner == owner && Free(s, tx, LeaseRow(id))
      then Some(At(Locking(s, tx, LeaseRow(id)), tx, RenewLeased(id, intent, s.db.leases[id])))
      else None
    case RenewLeased(id, intent, read) =>
      if act == LockParent && Free(s, tx, ResourceRow(read.resource))
      then Some(At(Locking(s, tx, ResourceRow(read.resource)), tx, RenewLocked(id, intent, read)))
      else None
    case RenewLocked(id, intent, read) =>
      // The overdue test reads the wall clock once both locks are held.
      if act == Check && ActiveAt(read, s.clock) then Some(At(s, tx, RenewChecked(id, intent, read))) else None
    case RenewChecked(id, intent, read) =>
      if act == Write && read.resource in s.db.resources
        && ResolveTtl(s.db.resources[read.resource], intent).Ok?
      then
        var ttl := ResolveTtl(s.db.resources[read.resource], intent).value;
        Some(At(s, tx, RenewWritten(id, read, s.clock, ttl)))
      else None
  }

  predicate Renewal(p: Point) {
    p.Renewing? || p.RenewLeased? || p.RenewLocked? || p.RenewChecked?
  }

  function NextEnding(s: Sys, tx: Tx, act: Act): Option<Sys>
    requires tx in s.txns && (s.txns[tx].point.Finishing? || s.txns[tx].point.EndLeased?)
  {
    match s.txns[tx].point
    case Finishing(id, e, actor) =>
      if act == LockLease && id in s.db.leases && (e == Release ==> s.db.leases[id].owner == actor)
        && Free(s, tx, LeaseRow(id))
      then Some(At(Locking(s, tx, LeaseRow(id)), tx, EndLeased(id, e, s.db.leases[id])))
      else None
    case EndLeased(id, e, read) =>
      if act == LockParent && Free(s, tx, ResourceRow(read.resource))
      then Some(At(Locking(s, tx, ResourceRow(read.resource)), tx, EndLocked(id, e, read)))
      else None
  }

  function NextScanning(s: Sys, tx: Tx, act: Act, limit: nat): Option<Sys>
    requires tx in s.txns
  {
    // SKIP LOCKED: leases locked by anyone else are simply not in the batch.
    if act.Scan? && Sweepable(s, tx, limit, act.ids)
    then Some(At(s.(locks := LockAll(s.locks, act.ids, tx)), tx, Sweeping(act.ids, 0)))
    else None
  }

  function NextSweeping(s: Sys, tx: Tx, act: Act, ids: seq<Id>, done: nat): Option<Sys>
    requires tx in s.txns
  {
    if act == Sweep && done < |ids| && ids[done] in s.db.leases
      && Free(s, tx, ResourceRow(s.db.leases[ids[done]].resource))
    then
      var lock := ResourceRow(s.db.leases[ids[done]].resource);
      Some(At(Locking(s, tx, lock), tx, Sweeping(ids, done + 1)))
    else None
  }

  function NextManaging(s: Sys, tx: Tx, act: Act): Option<Sys>
    requires tx in s.txns && (s.txns[tx].point.Managing? || s.txns[tx].point.Managed?)
  {
    match s.txns[tx].point
    case Managing(row, w) =>
      if act == LockManaged && Free(s, tx, ResourceRow(row))
      then Some(At(Locking(s, tx, ResourceRow(row)), tx, Managed(row, w)))
      else None
    case Managed(row, w) =>
      if act == Settle && Permitted(s.db, s.txns[tx].start, row, w) then Some(At(s, tx, Settled(row, w))) else None
  }

  function NextDisclosing(s: Sys, tx: Tx, act: Act, path: seq<Lock>): Option<Sys>
    requires tx in s.txns
  {
    if act == LockNext && path != [] && Free(s, tx, path[0])
    then Some(At(Locking(s, tx, path[0]), tx, Disclosing(path[1..])))
    else None
  }

  function Next(h: Hash, s: Sys, tx: Tx, act: Act): Option<Sys>
    requires tx in s.txns
  {
    var p := s.txns[tx].point;
    if Acquiring(p) then NextAcquiring(h, s, tx, act)
    else if Renewal(p) then NextRenewing(s, tx, act)
    else if p.Finishing? || p.EndLeased? then NextEnding(s, tx, act)
    else if p.Scanning? then NextScanning(s, tx, act, p.limit)
    else if p.Sweeping? then NextSweeping(s, tx, act, p.ids, p.done)
    else if p.Managing? || p.Managed? then NextManaging(s, tx, act)
    else if p.Disclosing? then NextDisclosing(s, tx, act, p.path)
    else None
  }

  /** One statement of one transaction, or the passage of time; None when it cannot happen now. */
  function Fire(h: Hash, s: Sys, m: Move): Option<Sys> {
    match m
    case Tick(to) => if to >= s.clock then Some(s.(clock := to)) else None
    case Begin(tx, p) =>
      if tx !in s.txns && Initial(p) then Some(s.(txns := s.txns[tx := Txn(s.clock, p)])) else None
    case Run(tx, act) =>
      if tx !in s.txns then None
      else if act == Abort then Some(Ended(s, tx))
      else if act == Commit then
        if Published(s, tx).Some? then Some(Ended(Published(s, tx).value, tx)) else None
      else Next(h, s, tx, act)
  }

  /** Every state some interleaving of moves leads to. */
  ghost predicate Reaches(h: Hash, s: Sys, moves: seq<Move>, t: Sys)
    decreases moves
  {
    if moves == [] then t == s
    else
      var next := Fire(h, s, moves[0]);
      next.Some? && Reaches(h, next.value, moves[1..], t)
  }

  // ----- What a statement leaves alone -----

  /** A statement changes no table and no clock, and only its own transaction's point and locks. */
  ghost predicate Private(s: Sys, t: Sys, tx: Tx) {
    && t.db == s.db && t.serial == s.serial && t.clock == s.clock
    && (forall u :: u in t.txns && u != tx ==> u in s.txns && t.txns[u] == s.txns[u])
    && (forall k :: k in t.locks && t.locks[k] != tx ==> k in s.locks && t.locks[k] == s.locks[k])
  }

  lemma MoveIsPrivate(s: Sys, tx: Tx, p: Point)
    requires tx in s.txns
    ensures Private(s, At(s, tx, p), tx) && At(s, tx, p).replies == s.replies
  {}

  lemma LockIsPrivate(s: Sys, tx: Tx, lock: Lock, p: Point)
    requires tx in s.txns
    ensures Private(s, At(Locking(s, tx, lock), tx, p), tx)
    ensures At(Locking(s, tx, lock), tx, p).replies == s.replies
  {}

  lemma LookUpIsPrivate(s: Sys, tx: Tx, a: Ask)
    requires tx in s.txns
    ensures Private(s, LookedUp(s, tx, a), tx)
  {}

  lemma AcquiringIsPrivate(h: Hash, s: Sys, tx: Tx, act: Act)
    requires tx in s.txns && Acquiring(s.txns[tx].point) && NextAcquiring(h, s, tx, act).Some?
    ensures Private(s, NextAcquiring(h, s, tx, act).value, tx)
    ensures !s.txns[tx].point.Keyed? ==> NextAcquiring(h, s, tx, act).value.replies == s.replies
  {
    var t := NextAcquiring(h, s, tx, act).value;
    match s.txns[tx].point
    case Keying(a) => LockIsPrivate(s, tx, SlotOf(h, a), Keyed(a));
    case Keyed(a) => LookUpIsPrivate(s, tx, a);
    case Unheld(_) => MoveIsPrivate(s, tx, t.txns[tx].point);
    case Choosing(_, _) =>
      if act.Await? {
        MoveIsPrivate(s, tx, t.txns[tx].point);
      } else {
        LockIsPrivate(s, tx, ResourceRow(act.row), t.txns[tx].point);
      }
    case Claiming(_, _, row) => LockIsPrivate(s, tx, ResourceRow(row), t.txns[tx].point);
    case Claimed(_, _) => MoveIsPrivate(s, tx, t.txns[tx].point);
    case Clear(_, _) => MoveIsPrivate(s, tx, t.txns[tx].point);
  }

  lemma RenewingIsPrivate(s: Sys, tx: Tx, act: Act)
    requires tx in s.txns && Renewal(s.txns[tx].point) && NextRenewing(s, tx, act).Some?
    ensures Private(s, NextRenewing(s, tx, act).value, tx) && NextRenewing(s, tx, act).value.replies == s.replies
  {}

  lemma EndingIsPrivate(s: Sys, tx: Tx, act: Act)
    requires tx in s.txns && (s.txns[tx].point.Finishing? || s.txns[tx].point.EndLeased?)
    requires NextEnding(s, tx, act).Some?
    ensures Private(s, NextEnding(s, tx, act).value, tx) && NextEnding(s, tx, act).value.replies == s.replies
  {}

  lemma ScanningIsPrivate(s: Sys, tx: Tx, act: Act, limit: nat)
    requires tx in s.txns && NextScanning(s, tx, act, limit).Some?
    ensures Private(s, NextScanning(s, tx, act, limit).value, tx)
    ensures NextScanning(s, tx, act, limit).value.replies == s.replies
  {}

  lemma LockingIsPrivate(h: Hash, s: Sys, tx: Tx, act: Act)
    requires tx in s.txns && Next(h, s, tx, act).Some?
    requires var p := s.txns[tx].point; p.Sweeping? || p.Managing? || p.Managed? || p.Disclosing?
    ensures Private(s, Next(h, s, tx, act).value, tx) && Next(h, s, tx, act).value.replies == s.replies
  {
    var q := Next(h, s, tx, act).value.txns[tx].point;
    match s.txns[tx].point
    case Sweeping(ids, done) => LockIsPrivate(s, tx, ResourceRow(s.db.leases[ids[done]].resource), q);
    case Managing(row, _) => LockIsPrivate(s, tx, ResourceRow(row), q);
    case Managed(_, _) => MoveIsPrivate(s, tx, q);
    case Disclosing(path) => LockIsPrivate(s, tx, path[0], q);
    case _ =>
  }

  lemma NextIsPrivate(h: Hash, s: Sys, tx: Tx, act: Act)
    requires tx in s.txns && Next(h, s, tx, act).Some?
    ensures Private(s, Next(h, s, tx, act).value, tx)
    ensures !s.txns[tx].point.Keyed? ==> Next(h, s, tx, act).value.replies == s.replies
  {
    var p := s.txns[tx].point;
    if Acquiring(p) {
      AcquiringIsPrivate(h, s, tx, act);
    } else if Renewal(p) {
      RenewingIsPrivate(s, tx, act);
    } else if p.Finishing? || p.EndLeased? {
      EndingIsPrivate(s, tx, act);
    } else if p.Scanning? {
      ScanningIsPrivate(s, tx, act, p.limit);
    } else {
      LockingIsPrivate(h, s, tx, act);
    }
  }
}
