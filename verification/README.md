# Shepherd RM: allocator, lifecycle and guards

Shepherd RM leases resources to people and pipelines. This project models the parts of it that
promise something across several operations, and proves those promises. Check it with
`dafny verify dfyconfig.toml` (Dafny 4.11).

## What is modelled

**Leasing and the catalog, one transaction at a time.** `Types`, `Ranks`, `Catalog` and `Leasing`
hold the rows, the selection order (active count, last lease with nulls first, id) and every
operation as a function from one store to the next: acquire, renew, release, revoke, expire a
batch, create, update, archive, transition, grant. `Database.Tables` is the same service as a
class whose methods rewrite the tables in place; each method is proved equal to its function and
keeps the invariant of reachable stores. `Lifecycle` turns the operations into runs under one
nondecreasing clock. On runs are proved:

- `Invariants`: exclusivity of grants, archival, monotone death, TTL policies, idempotency,
  optimistic versions; `Occupancy`: when a resource's present mode bounds its leases;
- `Auditing`: the append-only log determines every lease's state and every resource's version;
- `Draining`: batches of any size, repeated until one is empty, against expiring everything at once;
- `Invisibility`: inserting the expiration worker anywhere in a run changes no answer;
- `Fairness`: bounded bypass of an exclusive resource, and evenly shared load;
- `Access`: what grants, transitions and partial updates mean to callers, and what undoes them;
- `Agreement` and `Metrics`: four ways of counting active leases agree, the gauges match the
  catalog, and an acquisition succeeds exactly when the available listing offers something.

`LeaseContracts`, `CatalogContracts` and `SecretContracts` say of every operation when it answers
what, and what it writes, in the fields of rows and requests alone. The results on runs are about
the functions; these say that the functions are the right ones.

**Leasing under concurrency.** `Interleaving` runs each transaction statement by statement under
PostgreSQL's Read Committed (section 13.2.1 of its documentation): a statement reads what was
committed when it started, `FOR UPDATE` re-evaluates its condition on the newest row while the
correlated lease count still reads the old snapshot, `SKIP LOCKED` never waits, and `now()` is
frozen at the start of the transaction while the service's own clock is read at the step.
Every operation's transaction run alone has its serial effect in this layer (`Realization`) and no
other (`Refinement`), and what a serial run leaves is a database at rest in it (`AtRest`). `Exclusivity`,
`Versions`, `Stamps`, `Answers`, `Disclosure`, `Deadlock` and `StableRows` hold for every interleaving
of any number of transactions;
`Revival` and `DeadlockWitnesses` construct the interleavings that set their limits. In them, a
lease's request hash records the mode it was asked for, since a resource's own mode may change.

**Three smaller cores.** `RateLimits` is the fixed-window limiter with its cleanup.
`Administrators` interleaves demotions, promotions, archivals and bootstraps around one advisory
lock; `Identity` has the same transactions in place, and `IdentityRefinement` ties the two. `Cipher`, `Secrets` and `SecretTable` are
resource secrets over an abstract authenticated cipher and a key ring that only grows.

Identifiers, nonces, the directory of principals and groups, and the current time are parameters.
Digests are injective: a stored request hash is the canonical payload itself. Timestamps count
microseconds. TTLs stay within 1 and 2^31 - 1 seconds, as the request models and columns require.

## Main results

`Exclusivity.ExclusiveInEveryInterleaving`, `Exclusivity.ArchivedInEveryInterleaving`,
`Versions.NoLostUpdateInEveryInterleaving`, `Stamps.StampsInEveryInterleaving`,
`Refinement.RunAloneIsSerial`, `Answers.IdempotentInEveryInterleaving`,
`Answers.RevivesExactlyWhen`, `Disclosure.NothingAfterDeath`, `StableRows.OnlyBatchesDeadlock`,
`Occupancy.KeepsOneExactlyWhen`,
`Auditing.LogDeterminesLease`, `Draining.WorkerRefinesOneShot`, `Invisibility.WorkerIsInvisible`,
`Fairness.ServedInTurn`, `Fairness.SharedLoadIsEven`, `Agreement.AcquireMatchesListing`,
`RateLimits.RateBound` with `RateLimits.RateBoundIsTight`, `Administrators.SurvivesExactlyWhen`,
`Administrators.FromEmptyAlwaysAdministered` and `Secrets.LeaseAccessIsExact`. The rest leads up to
these or ties methods to the functions they are about; `Access` in particular only says what the
catalog's functions mean to a caller.

## What the code does not give

- A resource that is Exclusive now may carry several active leases, because an update may change
  the mode under them (`Invariants.ModeChangesUnderLeases`). Exclusivity is therefore stated for
  leases granted to Exclusive requests. `Occupancy.KeepsOneExactlyWhen` says which single operation
  breaks the bound for the present mode, and that nothing else does.
- A lease that every reader sees as dead may come back, while a renewal that passed its overdue
  test has not committed (`Revival.DeadLeaseComesBack`). `Answers.RevivesExactlyWhen` says for which
  of those renewals it can.
- A secret may be read through a lease that has run out: the access compares the lease with its
  frozen now(), so one that began in time may disclose after the expiry
  (`Disclosure.AccessOutlivesLease`). One that begins after the lease is dead discloses nothing (`Disclosure.NothingAfterDeath`).
- Two updates of one resource may carry the same version when the earlier names no field, since such
  an update is answered without a write (`Versions.EmptyUpdatesShareVersions`).
- Two expiration batches can deadlock (`DeadlockWitnesses.TwoBatchesDeadlock`). So can a Shared
  acquisition, which keeps the lock on a row that failed its re-evaluation and then waits for the
  next one: with a single batch (`DeadlockWitnesses.OneBatchDeadlocks`), or with another such
  acquisition and no batch (`DeadlockWitnesses.NoBatchDeadlocks`). It takes an administrator who
  rewrites the passed-over row meanwhile. Where no resource row is rewritten only batches can
  deadlock (`StableRows.OnlyBatchesDeadlock`), and with one batch in flight nothing does
  (`StableRows.OneBatchNeverDeadlocks`).
- A demotion that reads an empty administrator list is not refused, and promotions take no
  advisory lock. In a database whose only administrators are services, a user can be promoted in
  between and then lose the role, which leaves none
  (`Administrators.ServicesMayLoseTheLast`). `Administrators.SurvivesExactlyWhen` gives the exact
  condition, and from an empty database the promise holds without any.
- The bound of twice the allowance per window length is not attained: the sharp one is
  2 * allowed - 1 (`RateLimits.RateBound`, `RateLimits.RateBoundIsTight`).

## Model

| member | source | states |
|---|---|---|
| Ranks.LeadingLeads | src/shepherd_rm/leasing/persistence.py:377-390 | An ordered read under a limit returns members in strictly increasing order and leaves out only larger ones |
| Ranks.LeadingSplits | src/shepherd_rm/leasing/persistence.py:377-390 | Two limited reads, the second without the rows of the first, are one longer read |
| Leasing.CanonicalInjective | src/shepherd_rm/leasing/persistence.py:27-35 | Requests have the same canonical payload only when they are equal; TTL omitted and TTL null differ |
| Leasing.SweepTakesDue | src/shepherd_rm/leasing/persistence.py:375-392 | A batch takes distinct overdue leases, as many as there are up to the limit |
| LeaseContracts.AcquireChooses | src/shepherd_rm/leasing/persistence.py:127-177 | With an unused key: success exactly when some unarchived Active resource of the kind and mode carries every requested label value, admits the TTL, reaches the caller and, if Exclusive, has no running lease; and then the one with fewest running leases, leased longest ago, with the least id |
| LeaseContracts.AcquireWrites | src/shepherd_rm/leasing/persistence.py:183-214 | A fresh success writes one lease, field by field, until the requested seconds or the default from now, one stamp and one event; a failure nothing |
| LeaseContracts.RenewRefuses | src/shepherd_rm/leasing/persistence.py:321-341 | Exactly when a renewal is not found, not active, lacks a required expiration or exceeds the maximum, in this order |
| LeaseContracts.RenewWrites | src/shepherd_rm/leasing/persistence.py:342-349 | A renewal sets the expiry to the requested seconds, or the default, from now, and the renewal instant, and nothing else of any row |
| LeaseContracts.EndWrites | src/shepherd_rm/leasing/persistence.py:352-372 | Only the owner releases; an unended row gets the present instant and the reason, an ended one keeps its own, and the log says who |
| LeaseContracts.BatchWrites | src/shepherd_rm/leasing/persistence.py:393-416 | A batch touches only overdue leases, and of those only the end: their own expiry, as Expired |
| LeaseContracts.BatchTakesEarliest | src/shepherd_rm/leasing/persistence.py:377-390 | Whatever it takes is due earlier, or equally early with a smaller id, than whatever overdue lease it leaves, and it leaves some only when full |
| LeaseContracts.BatchCounts | src/shepherd_rm/leasing/persistence.py:404-417 | Its answer is the number of leases it changed, and its events name only those, without an actor |
| Lifecycle.StepMoves | src/shepherd_rm/leasing/persistence.py:94-417 | Every operation moves leases and resources only in the listed legal ways, inserts at most one lease, and archives only resources without active leases |
| Lifecycle.ExpireMoves | src/shepherd_rm/leasing/persistence.py:393-416 | A batch leaves a lease alone or, if it was overdue, ends it at its expiry |
| CatalogContracts.CreateWrites | src/shepherd_rm/catalog/persistence.py:138-147 | Refused for an incoherent policy, a taken id or a taken name; otherwise the row has every field as drafted, Active, version 1, and one event |
| CatalogContracts.UpdateRefuses | src/shepherd_rm/catalog/persistence.py:298-328 | Exactly when an update is not found, archived, stale, incoherent or a name clash, in this order; an empty one is never refused for the last two |
| CatalogContracts.UpdateWrites | src/shepherd_rm/catalog/persistence.py:329-337 | Each field is the patch's or stays, the version grows by one, no other row changes, one event; an empty patch changes nothing |
| CatalogContracts.ArchiveWrites | src/shepherd_rm/catalog/persistence.py:340-369 | Refused exactly when unarchived with a lease unended and not past its expiry; otherwise stamped once with the present instant, the version grown by one, one event |
| CatalogContracts.TransitFollowsTable | src/shepherd_rm/catalog/persistence.py:372-421 | Each of the five legal pairs of status and transition leads to its status and event, version grown by one |
| CatalogContracts.TransitRefuses | src/shepherd_rm/catalog/persistence.py:379-405 | And every other pair is refused, an archived row first |
| CatalogContracts.SetGrantWrites | src/shepherd_rm/catalog/persistence.py:245-295 | Refusals by archival and unknown grantee; otherwise exactly this pair is in or out, and an event is logged exactly when that changed |
| CatalogContracts.ListsExactly | src/shepherd_rm/catalog/persistence.py:150-194 | A row is listed exactly when it reaches the caller and passes every given filter, labels by value, availability by its leases |
| Invariants.RunSound | src/shepherd_rm/leasing/persistence.py:94-417 | Every run keeps: references hold, policies are valid, ends and reasons pair up, an end lies between the last acquisition or renewal and the present, archived rows carry no active lease, keys and names are unique |
| Invariants.ArchivedNeverActive | src/shepherd_rm/catalog/persistence.py:340-369 | In every run no lease on an archived resource is active at any instant from the archival on, although renewal never looks at archival |
| Invariants.ArchivedIsFrozen | src/shepherd_rm/catalog/persistence.py:210-212 | After archival the resource row and its grants never change again |
| Invariants.DeadStaysDead | src/shepherd_rm/leasing/persistence.py:329-332 | A lease once inactive is inactive in every later store of the run |
| Invariants.EndedNeverChanges | src/shepherd_rm/leasing/persistence.py:365-372 | A row whose end is recorded is never written again |
| Invariants.DeadLeaseDisclosesNothing | src/shepherd_rm/resource_secrets/persistence.py:294-330 | Through a dead lease nobody passes the disclosure gate at any later time |
| LeaseContracts.GateIsExact | src/shepherd_rm/resource_secrets/persistence.py:294-330 | The gate opens exactly through an unended lease not past its expiry, to an administrator, or to its owner while the resource is unarchived and public or covered by a grant |
| Invariants.ExclusiveGrantIsAlone | src/shepherd_rm/leasing/persistence.py:155-177 | When an Exclusive request is granted, every other lease on that resource is dead and untouched |
| Invariants.ModeChangesUnderLeases | src/shepherd_rm/catalog/persistence.py:298-337 | A Shared resource can be made Exclusive with all its leases still active |
| Occupancy.KeepsOneExactlyWhen | src/shepherd_rm/catalog/persistence.py:298-337 | From a reachable store whose Exclusive resources carry at most one active lease each, a step keeps that exactly when it is not an accepted update making a resource with two or more Exclusive |
| Occupancy.RunKeepsOne | src/shepherd_rm/leasing/persistence.py:155-177 | In every run without such an update, Exclusive resources carry at most one active lease |
| Invariants.CandidatesResolve | src/shepherd_rm/leasing/persistence.py:143-154 | The selection filters leave no row on which resolving the TTL fails, given a valid policy |
| Invariants.AcquireNeverRefusesTtl | src/shepherd_rm/leasing/persistence.py:179-182 | In a reachable store an acquisition is never refused over its TTL |
| Invariants.ExpiryBounds | src/shepherd_rm/leasing/persistence.py:342-346 | In every run a finite expiry is a whole number of seconds, 1 to 2^31 - 1, after the last renewal or else the acquisition, hence after the acquisition |
| Invariants.ExpiryHasSource | src/shepherd_rm/leasing/persistence.py:76-91 | Every present expiry was set by one acquisition or renewal by the lease's owner: the requested seconds from that instant, or the default in force at that very step where none were requested, and within the policy of that step |
| Invariants.HolderPersists | src/shepherd_rm/database_models.py:269 | A lease keeps its owner, key and request hash for ever, so a key stays taken |
| Invariants.KeyReplays | src/shepherd_rm/leasing/persistence.py:105-125 | A stored key answers its own lease to the stored request and conflicts with any other, changing nothing |
| Invariants.AcquireIsIdempotent | src/shepherd_rm/leasing/persistence.py:102-125 | Whatever happens in between, repeating a key answers the same lease exactly when the request is the same |
| Invariants.FailureKeepsKeyFree | src/shepherd_rm/leasing/persistence.py:127-177 | A failed acquisition changes nothing and consumes no key |
| Invariants.VersionsGrow | src/shepherd_rm/catalog/persistence.py:329-335 | A resource's version never falls |
| Invariants.NoLostUpdate | src/shepherd_rm/catalog/persistence.py:316-319 | Of two applied non-empty updates the later carries the larger version, so never the same one |
| Invariants.CleaningUnreachable | src/shepherd_rm/catalog/persistence.py:379-408 | No run puts a resource into Cleaning |
| Auditing.RunAudited | src/shepherd_rm/leasing/persistence.py:404-416 | In every run folding the log rebuilds every lease's state, and no history is broken |
| Auditing.ReplayShapes | src/shepherd_rm/leasing/persistence.py:345-371 | An unbroken history is acquired, then renewals, then at most one ending that matches the recorded reason |
| Auditing.LogDeterminesLease | src/shepherd_rm/leasing/persistence.py:207-207 | From an empty database a lease's logged actions have that shape, end exactly when the row is ended and with its reason, and contain a renewal exactly when one is recorded |
| Auditing.VersionsCountChanges | src/shepherd_rm/catalog/persistence.py:329-408 | A resource's version is 1 plus its logged updates, transitions and archival; nothing else touches it |
| Draining.BatchesCompose | src/shepherd_rm/leasing/persistence.py:375-417 | A batch of m followed by one of n is a batch of m + n, in table, log and count |
| Draining.DrainIsOneBatch | src/shepherd_rm/leasing/worker.py:41-63 | Repeating batches until one is empty is one unbounded batch, after exactly D / B rounded up productive rounds |
| Draining.DrainRefinesOneShot | src/shepherd_rm/leasing/worker.py:41-63 | For every batch size the drained table is the one-shot table, backlog and lag are zero, and neither table nor log depends on the size |
| Draining.WorkerRefinesOneShot | src/shepherd_rm/leasing/worker.py:41-63 | With the clock moving on between batches, the drained table is the one-shot table at the last reading, nothing is overdue then, and there were no more batches than unended leases |
| Draining.StandingStill | src/shepherd_rm/leasing/worker.py:41-63 | Under a clock that stands still the worker is the drain at one instant, round for round |
| Database.Tables.constructor | src/shepherd_rm/database_models.py:253-300 | The empty tables satisfy the invariant |
| Database.Tables.AcquireLease | src/shepherd_rm/leasing/persistence.py:94-214 | Lookup by key, selection, recheck, insert, stamp and log are the acquisition function, and keep the invariant; a fresh lease is on a resource of the requested kind with every requested label value, until the requested expiry |
| Database.Tables.RenewLease | src/shepherd_rm/leasing/persistence.py:321-349 | The overdue test, the present policy and the update are the renewal function, and keep the invariant; the new expiry is the requested seconds, or the default, from now |
| Database.Tables.EndLease | src/shepherd_rm/leasing/persistence.py:352-372 | Idempotent release and revocation are the ending function, and keep the invariant; an unended row gets the present instant and its reason, nothing else |
| Database.Tables.ExpireDueLeases | src/shepherd_rm/leasing/persistence.py:375-417 | The loop over a selected batch writes down exactly that batch and counts it |
| Database.Tables.RunWorker | src/shepherd_rm/leasing/worker.py:41-63 | The loop, reading the clock anew for every batch, is the drain along those readings and keeps the invariant |
| Database.Tables.CreateResource | src/shepherd_rm/catalog/persistence.py:138-147 | Creation with policy and name checks is its function, and keeps the invariant |
| Database.Tables.UpdateResource | src/shepherd_rm/catalog/persistence.py:298-337 | The partial update with archival, version and policy checks is its function, and keeps the invariant |
| Database.Tables.ArchiveResource | src/shepherd_rm/catalog/persistence.py:340-369 | Archival is its function, and keeps the invariant; it is refused exactly when the row is unarchived and some lease on it is unended and not past its expiry |
| Database.Tables.TransitionResource | src/shepherd_rm/catalog/persistence.py:372-421 | The four transitions with their legal sources are their function, and keep the invariant |
| Database.Tables.SetResourceGrant | src/shepherd_rm/catalog/persistence.py:245-295 | Idempotent granting and revoking, logged only on change, is its function, and keeps the invariant |
| Invisibility.ClientStepAlike | src/shepherd_rm/leasing/persistence.py:94-372 | Stores that differ only in how dead leases ended answer every client operation alike and stay so |
| Invisibility.SameView | src/shepherd_rm/catalog/persistence.py:35-96 | They agree on active counts, availability, every listing and every disclosure, now and later |
| Invisibility.WorkerIsInvisible | src/shepherd_rm/leasing/persistence.py:375-417 | Inserting worker batches anywhere in a run changes no client's answer; the final stores differ only in the ends of leases dead in both |
| Invisibility.AnyTwoWorkersAgree | src/shepherd_rm/leasing/worker.py:41-63 | Two schedules of the worker around the same client operations give the same answers |
| Fairness.LastLeased | src/shepherd_rm/leasing/persistence.py:204-206 | In every step exactly the granted resource is stamped, with the time of the step |
| Fairness.ServedInTurn | src/shepherd_rm/leasing/persistence.py:155-164 | A rested resource that is eligible for as many exclusive grants from a pool as members precede it, plus one, is granted; at the latest at the n-th from a pool of n |
| Fairness.SharedLoadIsEven | src/shepherd_rm/leasing/persistence.py:127-164 | After n shared grants over k interchangeable resources, with nothing ending, every one holds n / k or one more, and exactly n mod k hold one more |
| Agreement.CountsAgree | src/shepherd_rm/catalog/persistence.py:62-96 | The filtered outer-join count, the metrics join, the archive's existence test and the correlated count agree for every store |
| Agreement.AcquireMatchesListing | src/shepherd_rm/catalog/persistence.py:164-182 | With an unused key in a reachable store, an acquisition succeeds exactly when the available listing offers a TTL-compatible resource, and takes the least in selection order |
| Metrics.CollectSharing | src/shepherd_rm/observability.py:194-217 | For each sharing mode that occurs, the grouped sums are the number of active leases, of utilized and of operational resources |
| Metrics.CollectExpiration | src/shepherd_rm/observability.py:220-251 | Backlog and lag are the number of overdue leases and the wait of the oldest |
| Metrics.GaugesMatchListing | src/shepherd_rm/observability.py:209-215 | The administrator's available listing has as many Shared rows as the total gauge, and as many Exclusive rows as total minus utilized |
| Metrics.EveryActiveLeaseIsCounted | src/shepherd_rm/observability.py:209-217 | The active gauges of the two modes add up to all active leases |
| Access.VisibleWhenCovered | src/shepherd_rm/catalog/persistence.py:41-59 | A resource is visible exactly when it is public or some grant covers the principal, directly or through an unarchived group |
| Access.GrantDecidesVisibility | src/shepherd_rm/catalog/persistence.py:245-295 | Granting shows a resource to exactly those covered and those who saw it before; revoking keeps exactly those whom something else lets in; other resources look the same |
| Access.GrantsUndo | src/shepherd_rm/catalog/persistence.py:272-295 | A repeated grant or revocation changes and logs nothing, and each undoes the other |
| Access.TransitionsUndo | src/shepherd_rm/catalog/persistence.py:379-408 | Disabling and quarantining an active resource close it to every acquisition and are undone by enabling and recovering |
| Access.UpdateCanBeReverted | src/shepherd_rm/catalog/persistence.py:298-337 | An applied update can be taken back, leaving only the version and the log different |
| Realization.AcquisitionIsRealized | src/shepherd_rm/leasing/persistence.py:94-214 | The serial effect of a fresh acquisition is reached by its transaction running alone, statement by statement |
| Realization.RenewalIsRealized | src/shepherd_rm/leasing/persistence.py:298-349 | The same for renewal |
| Realization.EndingIsRealized | src/shepherd_rm/leasing/persistence.py:352-372 | The same for release and revocation |
| Realization.BatchIsRealized | src/shepherd_rm/leasing/persistence.py:375-417 | The same for a batch |
| Realization.WriteIsRealized | src/shepherd_rm/catalog/persistence.py:298-421 | The same for archival, update, transition and grants |
| Realization.CreationIsRealized | src/shepherd_rm/catalog/persistence.py:138-147 | The same for creation |
| Refinement.RunAloneIsSerial | src/shepherd_rm/leasing/persistence.py:94-417 | A transaction started at rest and left alone changes no table before it is over, and then leaves exactly its serial result or no change; which eligible row and which overdue leases is open here |
| AtRest.SerialRunsEndAtRest | src/shepherd_rm/leasing/persistence.py:94-417 | Whatever a serial run from an empty database leaves is at rest under some numbering of its leases, so every interleaved result applies from there |
| Interleaving.NextIsPrivate | src/shepherd_rm/leasing/persistence.py:102-171 | A statement before commit changes no table and only its own transaction's position and locks |
| Exclusivity.CheckPasses | src/shepherd_rm/leasing/persistence.py:329-332 | A renewal that passes the overdue test under both locks has no later exclusive lease and no archival to overturn |
| Exclusivity.FireInv | src/shepherd_rm/leasing/persistence.py:94-417 | Every statement, commit and rollback of every transaction keeps the interleaved invariant |
| Exclusivity.ExclusiveInEveryInterleaving | src/shepherd_rm/leasing/persistence.py:127-177 | In every interleaving, from the acquisition of an Exclusive lease on, every lease granted earlier on its resource is inactive |
| Exclusivity.OneExclusiveAtATime | src/shepherd_rm/leasing/persistence.py:172-177 | Two leases granted to Exclusive requests are never active on one resource together |
| Exclusivity.ArchivedInEveryInterleaving | src/shepherd_rm/catalog/persistence.py:340-369 | In every interleaving an archived resource has no active lease from its archival on |
| Versions.NoLostUpdateInEveryInterleaving | src/shepherd_rm/catalog/persistence.py:306-335 | In every interleaving, of two committed updates of one resource the later never carries a smaller version, and carries a larger one whenever the earlier was non-empty |
| Versions.EmptyUpdatesShareVersions | src/shepherd_rm/catalog/persistence.py:316-322 | From every store at rest an empty update commits, and an update acceptable before it commits after it with the same version |
| Versions.NamesStayUniqueInEveryInterleaving | src/shepherd_rm/catalog/persistence.py:138-147 | In every interleaving of creations, renames and everything else resource names stay unique |
| Stamps.StampsInEveryInterleaving | src/shepherd_rm/leasing/persistence.py:183-207 | In every interleaving the last-leased stamp of each resource is its latest acquisition and never moves back, and grants on one resource follow each other in time |
| Answers.IdempotentInEveryInterleaving | src/shepherd_rm/leasing/persistence.py:102-125 | In every interleaving all answers to one principal's key agree: the same request always the same lease, any other a conflict |
| Answers.KeysComeFromGrants | src/shepherd_rm/leasing/persistence.py:183-207 | Every new lease was granted to a request with its owner, key and hash, so failures consume no key |
| Answers.DeathInEveryInterleaving | src/shepherd_rm/leasing/persistence.py:329-346 | Once dead, with no renewal under way that could still revive it, a lease is inactive in every later state |
| Answers.RevivesExactlyWhen | src/shepherd_rm/leasing/persistence.py:329-346 | An inactive lease can become active again exactly when a renewal of it passed the overdue test and either has a resolvable TTL still to write or has written an expiry ahead |
| Revival.DeadLeaseComesBack | src/shepherd_rm/leasing/persistence.py:329-346 | From every store at rest with an active finite lease and a resolvable TTL, some interleaving makes the lease inactive and then active again |
| Disclosure.NothingAfterDeath | src/shepherd_rm/resource_secrets/persistence.py:294-330 | In every interleaving, an access begun once the lease is dead, with no reviving renewal under way, is let through in no later state |
| Disclosure.PassesExactlyWhen | src/shepherd_rm/resource_secrets/persistence.py:301-309 | An access begun now can be let through only if the lease is active or a reviving renewal is under way, and for an administrator exactly then |
| Disclosure.AccessOutlivesLease | src/shepherd_rm/resource_secrets/persistence.py:301-309 | Whoever may read through a finite lease now can still be let through, by an access begun now, at its expiry |
| Deadlock.SharedWaitsExclusiveSkips | src/shepherd_rm/leasing/persistence.py:155-169 | At the row it chooses a Shared request queues without locking anything, and an Exclusive one takes a row nobody else has locked, at once |
| Deadlock.DeadlockShape | src/shepherd_rm/leasing/persistence.py:298-318 | In every reachable state each member of a waits-for cycle is a batch or a shared acquisition that keeps a passed-over row |
| StableRows.NothingIsPassedOver | src/shepherd_rm/leasing/persistence.py:155-164 | On rows unchanged since the snapshot, up to the stamp of the last lease, the re-evaluation under the lock never fails |
| StableRows.OnlyBatchesDeadlock | src/shepherd_rm/leasing/persistence.py:377-403 | In every run in which nobody rewrites a resource row, each member of a waits-for cycle is a batch |
| StableRows.OneBatchNeverDeadlocks | src/shepherd_rm/leasing/persistence.py:377-403 | In such a run, with at most one batch in flight, there is no cycle |
| DeadlockWitnesses.TwoBatchesDeadlock | src/shepherd_rm/leasing/persistence.py:393-403 | From every store at rest with four crossing overdue leases, two batches can reach a cycle |
| DeadlockWitnesses.OneBatchDeadlocks | src/shepherd_rm/leasing/persistence.py:155-169 | From every store at rest in which the first two choices of a Shared request are the resources of one batch in opposite order, disabling the first choice can leave request and batch waiting for each other |
| DeadlockWitnesses.NoBatchDeadlocks | src/shepherd_rm/leasing/persistence.py:155-169 | From every store at rest that two Shared requests, at two readings of the clock, see in opposite selection orders, disabling both first choices can leave the two waiting for each other |
| RateLimits.Limiter.Cleanup | src/shepherd_rm/rate_limits.py:42-53 | Deletes the oldest lapsed rows and nothing else, all of them or a hundred |
| RateLimits.Limiter.EnforceRateLimit | src/shepherd_rm/rate_limits.py:54-99 | Cleanup, upsert and answer are the attempt function; a rejected attempt is counted too |
| RateLimits.EnforceWrites | src/shepherd_rm/rate_limits.py:42-99 | A running window counts on and keeps its ends, anything else starts a window of the configured length; only lapsed rows go; the answer goes by the stored count |
| RateLimits.OthersAreInvisible | src/shepherd_rm/rate_limits.py:54-85 | Each subject is answered as if it were alone and nothing were ever deleted |
| RateLimits.CleanupIsTransparent | src/shepherd_rm/rate_limits.py:42-53 | Whatever lapsed rows calls delete, every answer is the same |
| RateLimits.RateBound | src/shepherd_rm/rate_limits.py:66-99 | At most 2 * allowed - 1 attempts of one subject are accepted in any half-open interval of one window length |
| RateLimits.RateBoundIsTight | src/shepherd_rm/rate_limits.py:66-99 | For every setting a trace attains that bound |
| RateLimits.CounterCountsAttempts | src/shepherd_rm/rate_limits.py:66-85 | The stored counter is the number of attempts since the window opened, rejected ones included, of which exactly min(counter, allowed) were accepted |
| RateLimits.AttemptsExtendNothing | src/shepherd_rm/rate_limits.py:71-85 | Attempts inside a window move neither of its ends |
| RateLimits.RetryAfterIsExact | src/shepherd_rm/rate_limits.py:98-99 | After a rejection the next attempt is accepted exactly once the window has lapsed; the advertised seconds reach that instant and one second less does not |
| RateLimits.WaitingIsRewarded | src/shepherd_rm/rate_limits.py:98-99 | On any trace a subject that stays away for the advertised time is accepted next |
| Administrators.AdministratorSurvives | src/shepherd_rm/identity/api/users.py:66-93 | From rest with an administrator, every interleaving keeps at least one |
| Administrators.SurvivesExactlyWhen | src/shepherd_rm/identity/api/users.py:67-93 | In any state with an administrator, every continuation keeps one exactly when no demotion that found none is aimed at the only one |
| Administrators.ServicesMayLoseTheLast | src/shepherd_rm/identity/api/users.py:88-93 | From every database at rest administered only by services and holding a member, some interleaving gains an administrator and loses the last |
| Administrators.BootstrapAtMostOnce | src/shepherd_rm/identity/bootstrap.py:24-55 | From any database at rest at most one bootstrap succeeds, and then an administrator stays |
| Administrators.FromEmptyAlwaysAdministered | src/shepherd_rm/identity/bootstrap.py:24-65 | From an empty database there is either no principal or an administrator, and once there is one there always is |
| IdentityRefinement.RunAloneIsSerial | src/shepherd_rm/identity/persistence.py:54-173 | An identity transaction left alone changes no row before it is over, and then leaves exactly the rows of its serial operation, refusals included |
| IdentityRefinement.SerialIsAttained | src/shepherd_rm/identity/persistence.py:54-173 | Every serial result is reached statement by statement |
| IdentityRefinement.SessionsWereAdministrators | src/shepherd_rm/identity/api/dependencies.py:34-43 | Whoever is accepted as a caller was an unarchived principal with the Admin role at some moment of the run |
| Identity.UpdateWrites | src/shepherd_rm/identity/persistence.py:101-122 | An update finds its principal by id and kind and sets the role it carries, nothing else |
| Identity.UserUpdateRefuses | src/shepherd_rm/identity/api/users.py:60-93 | The guard refuses exactly the demotion of the only unarchived user with Admin role and password |
| Identity.ArchiveWrites | src/shepherd_rm/identity/persistence.py:125-173 | Archival is refused exactly for that user, and otherwise marks its principal archived and changes nothing else |
| Identity.CreateWrites | src/shepherd_rm/identity/persistence.py:54-86 | A password exactly for users; the new row has the requested kind and role, unarchived |
| Identity.BootstrapWrites | src/shepherd_rm/identity/bootstrap.py:24-65 | Refused exactly when an unarchived user with Admin role and password exists; otherwise creates one |
| Identity.DemotionGuardIsExact | src/shepherd_rm/identity/api/users.py:67-92 | A demotion is refused exactly when carrying it out would leave no administrator |
| Identity.ArchivalGuardIsExact | src/shepherd_rm/identity/persistence.py:143-163 | An archival is refused exactly when carrying it out would leave no administrator |
| Identity.EveryUpdateKeepsOne | src/shepherd_rm/identity/persistence.py:101-173 | No update or archival removes the last administrator |
| Identity.Registry.Update | src/shepherd_rm/identity/persistence.py:101-122 | A service update leaves the administrators alone, a user update that does not demote removes none, a demotion removes exactly its target, and a promotion makes its target one exactly when it is unarchived with a password |
| Identity.Registry.UpdateAccount | src/shepherd_rm/identity/api/users.py:60-93 | The guarded update of a user is its function and leaves an administrator |
| Identity.Registry.Archive | src/shepherd_rm/identity/persistence.py:125-173 | The guarded archival is its function and leaves an administrator |
| Identity.Registry.Create | src/shepherd_rm/identity/persistence.py:54-86 | Creation with the password rule is its function and removes no administrator |
| Identity.Registry.BootstrapAdministrator | src/shepherd_rm/identity/bootstrap.py:24-65 | Refused exactly when an administrator exists; afterwards the new one is the only one |
| Cipher.DecryptAfterRotation | src/shepherd_rm/resource_secrets/crypto.py:58-106 | A value encrypted under one ring decrypts to itself under every ring that still has its key |
| Cipher.DecryptsExactlyWhen | src/shepherd_rm/resource_secrets/crypto.py:34-106 | Under any ring it decrypts exactly for its own resource and secret and with its own key |
| SecretContracts.MaterialIsStored | src/shepherd_rm/resource_secrets/persistence.py:77-100 | A managed value is stored sealed under the active key in the version 1 AES-256-GCM envelope, or not at all without that key; a reference is stored as it is |
| SecretContracts.DecryptRefuses | src/shepherd_rm/resource_secrets/crypto.py:77-106 | A value opens exactly with its key present, in that version and algorithm, when the cipher accepts it; the key is asked for first |
| SecretContracts.CreateRefuses | src/shepherd_rm/resource_secrets/persistence.py:103-130 | Exactly when creation is refused, in the order of its tests |
| SecretContracts.CreateWrites | src/shepherd_rm/resource_secrets/persistence.py:114-139 | The new row has every field as requested at version 1, and one event |
| SecretContracts.UpdateRefuses | src/shepherd_rm/resource_secrets/persistence.py:169-197 | Exactly when a change is refused, in the order of its tests; an empty one is never a name clash |
| SecretContracts.UpdateWrites | src/shepherd_rm/resource_secrets/persistence.py:182-207 | Name, description and material are the request's or stay, the version grows by one, one event; an empty change does nothing |
| SecretContracts.DeleteWrites | src/shepherd_rm/resource_secrets/persistence.py:210-231 | Removes exactly the secret of that id under that resource, logged only then; the answer does not tell |
| SecretContracts.AdministrationServes | src/shepherd_rm/resource_secrets/persistence.py:281-291 | Answered from the addressed row and logged as administration, or refused without a trace |
| SecretContracts.LeaseServes | src/shepherd_rm/resource_secrets/persistence.py:294-366 | Whoever is not admitted gets the one answer for every reason; otherwise answered from the row and logged with the lease |
| Secrets.RevealsWhatWasWritten | src/shepherd_rm/resource_secrets/persistence.py:77-100 | Writing material into the columns and revealing it, now or after rotations, is the identity |
| Secrets.RunKeeps | src/shepherd_rm/resource_secrets/persistence.py:103-231 | In every run mixing writes, deletions, leasing and rotations, each secret reveals exactly the material last written |
| Secrets.LeaseAccessIsExact | src/shepherd_rm/resource_secrets/persistence.py:294-366 | Access through a lease discloses exactly when the lease is unended and not past its expiry, the caller owns it and the resource is unarchived and reaches him (or he is an administrator), and the secret is that resource's; then the last material, logged |
| Secrets.AdminAccessIsExact | src/shepherd_rm/resource_secrets/persistence.py:281-291 | Administrator access discloses every existing secret of the addressed resource and never fails on stored material |
| Secrets.NothingThroughDeadLeases | src/shepherd_rm/resource_secrets/persistence.py:294-316 | Once a lease is dead, no later access through it discloses anything, in any mixed run |
| Secrets.NoLostSecretUpdate | src/shepherd_rm/resource_secrets/persistence.py:180-196 | Of two changes applied to one secret the later carries the larger version, in any mixed run |
| SecretTable.Table.Restarts | src/shepherd_rm/resource_secrets/crypto.py:38-46 | A restart with a larger key ring leaves every row readable as before |
| SecretTable.Table.CreateResourceSecret | src/shepherd_rm/resource_secrets/persistence.py:103-139 | Creation in place is its function and records the material it stores |
| SecretTable.Table.UpdateResourceSecret | src/shepherd_rm/resource_secrets/persistence.py:169-207 | The versioned update in place is its function and replaces the recorded material exactly when it carries some |
| SecretTable.Table.DeleteResourceSecret | src/shepherd_rm/resource_secrets/persistence.py:210-231 | Idempotent deletion in place is its function |
| SecretTable.Table.AccessLockedSecret | src/shepherd_rm/resource_secrets/persistence.py:234-278 | Reveals the last material written and logs the access without it |
| SecretTable.Table.AccessAsAdmin | src/shepherd_rm/resource_secrets/persistence.py:281-291 | The administrator path in place is its function |
| SecretTable.Table.AccessLeaseSecret | src/shepherd_rm/resource_secrets/persistence.py:355-366 | The lease path in place is its function and discloses exactly under its gate, said in the rows' fields: running, owned, unarchived, visible, or an administrator |

## Left out

- The order in which one acquisition statement visits its rows: the model allows any, which only adds behaviours; the witnesses follow the selection order.
- Foreign-key share locks and principal and group row locks in the lock order of leasing.
- Exclusivity.ExclusiveInEveryInterleaving: the interleaved layer keeps no audit log, and its grants omit the grantee check, which only rules fewer behaviours out.
- Refinement.RunAloneIsSerial: assumes that the grantee of a grant exists, and leaves the clock standing while the transaction runs.
- Disclosure.NothingAfterDeath: an access is judged on the committed tables of one state, while its statements may read several; the lease test alone already decides it.
- Realization.AcquisitionIsRealized: the converse does not hold, because a concurrent acquisition may take any row its statement offers and may be refused where the serial one succeeds.
- Fairness.ServedInTurn: assumes one transaction at a time and that the waiting resource's last lease began before the first counted grant.
- RateLimits.RateBound: attempts reach the counter in the order of their clock readings; the 32-bit overflow of the counter column, which would fail the statement, is not modelled.
- Administrators.AdministratorSurvives: rows returned by the administrator query are not locked in the model; with the advisory lock held this only adds behaviours.
- Identity: audit events, names, tokens and sessions of principals, and the group operations.
- Database.Tables.CreateResource: label and string bounds and other request validation.
- Database.Tables.RunWorker: the sleep between drains, the metrics file and the failure path of the worker.
- Metrics.CollectExpiration: the lag stays in whole microseconds; its conversion to a floating-point number of seconds is left out.
- SecretTable.Table.CreateResourceSecret: real cryptography and the JSON and base64 envelope; the cipher is a pair of functions with its round-trip and binding laws, and the envelope is a record.
- Listing secrets and their metadata, reading single resources and leases, paging and listing leases: single queries with easy claims.
- HTTP routing, authentication, request limits, logging, Prometheus rendering, configuration, migrations and deployment.
- Clock skew between the service and PostgreSQL: both read one nondecreasing clock.
