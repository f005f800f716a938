/** Rows of the catalog, leasing and audit tables, and the values that requests carry. */
module Types {

  /** UUIDs are compared by value; the numeric order stands for PostgreSQL's uuid order. */
  type Id = nat

  /** Timestamps count microseconds on the one clock shared by Python and PostgreSQL. */
  type Time = int

  const SECOND: int := 1_000_000
  const MAX_TTL_SECONDS: int := 2_147_483_647

  /** A validated TTL: request models and column checks both keep it in this range. */
  type Ttl = t: int | 1 <= t <= MAX_TTL_SECONDS witness 1

  datatype Option<+T> = None | Some(value: T)

  datatype Result<+T> = Ok(value: T) | Err(error: Error)

  datatype Error =
    | NotFound
    | IdTaken
    | NameTaken
    | KeyReused
    | NoMatch
    | RequiresExpiration
    | ExceedsMaximum
    | NotActive
    | ArchivedTarget
    | StaleVersion
    | InvalidPolicy
    | HasActiveLeases
    | IllegalTransition

  datatype SharingMode = Exclusive | Shared
  datatype VisibilityMode = Public | Restricted
  datatype ExpirationMode = Required | Optional
  datatype Status = Active | Cleaning | Quarantined | Disabled
  datatype EndReason = Released | Expired | Revoked

  datatype Resource = Resource(
    name: string,
    kind: string,
    labels: map<string, string>,
    sharing: SharingMode,
    visibility: VisibilityMode,
    expiration: ExpirationMode,
    defaultTtl: Option<Ttl>,
    maxTtl: Option<Ttl>,
    status: Status,
    version: int,
    lastLeasedAt: Option<Time>,
    archivedAt: Option<Time>
  )

  /** The caller's TTL field: absent, or present and possibly null. */
  datatype TtlIntent = Omitted | Explicit(seconds: Option<Ttl>)

  datatype Request = Request(
    kind: string,
    sharing: SharingMode,
    labels: map<string, string>,
    ttl: TtlIntent,
    consumer: Option<string>,
    metadata: string
  )

  /**
   * The canonical payload that a request is reduced to before hashing. The digest is taken
   * to be injective, so a stored hash is represented by the payload itself.
   */
  datatype Payload = Payload(
    kind: string,
    sharing: SharingMode,
    labels: map<string, string>,
    ttlSeconds: Option<Ttl>,
    ttlIntent: string,
    consumer: Option<string>,
    metadata: string
  )

  datatype Lease = Lease(
    resource: Id,
    owner: Id,
    key: string,
    hash: Payload,
    acquiredAt: Time,
    expiresAt: Option<Time>,
    lastRenewedAt: Option<Time>,
    endedAt: Option<Time>,
    endReason: Option<EndReason>
  )

  datatype Action =
    | LeaseAcquired
    | LeaseRenewed
    | LeaseReleased
    | LeaseRevoked
    | LeaseExpired
    | ResourceCreated
    | ResourceUpdated
    | ResourceArchived
    | ResourceDisabled
    | ResourceEnabled
    | ResourceQuarantined
    | ResourceRecovered
    | AccessGranted(target: Grantee)
    | AccessRevoked(target: Grantee)

  datatype Grantee = ToPrincipal(id: Id) | ToGroup(id: Id)

  datatype Event = Event(actor: Option<Id>, action: Action, subject: Id)

  datatype Store = Store(
    resources: map<Id, Resource>,
    leases: map<Id, Lease>,
    grants: set<(Id, Grantee)>,
    audit: seq<Event>
  )

  /** Identity data that the catalog only reads: who is unarchived and who is in which group. */
  datatype Directory = Directory(principals: set<Id>, groups: set<Id>, members: set<(Id, Id)>)

  /** The authenticated caller: its principal id and whether its role is Admin. */
  datatype Caller = Caller(id: Id, administrator: bool)
}
