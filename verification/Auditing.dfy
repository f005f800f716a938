/** The audit log determines the state of every lease and the version of every resource. */
module Auditing {
  import opened Types
  import opened Catalog
  import opened Leasing
  import opened Lifecycle

  // ----- Reading a lease's life off the log -----

  /** What a log says about one lease; `Broken` marks a history no lease can have. */
  datatype Life =
    | Absent
    | Open(renewed: bool)
    | Closed(renewed: bool, reason: EndReason)
    | Broken

  predicate AboutLeases(a: Action) {
    a.LeaseAcquired? || a.LeaseRenewed? || a.LeaseReleased? || a.LeaseRevoked? || a.LeaseExpired?
  }

  function Advance(life: Life, a: Action): Life {
    match (life, a)
    case (Absent, LeaseAcquired) => Open(false)
    case (Open(_), LeaseRenewed) => Open(true)
    case (Open(renewed), LeaseReleased) => Closed(renewed, Released)
    case (Open(renewed), LeaseRevoked) => Closed(renewed, Revoked)
    case (Open(renewed), LeaseExpired) => Closed(renewed, Expired)
    case _ => Broken
  }

  /** Fold the whole log, oldest event first, keeping only the events about lease `l`. */
  function Replay(log: seq<Event>, l: Id): Life {
    if log == [] then Absent
    else
      var e := log[|log| - 1];
      var before := Replay(log[..|log| - 1], l);
      if AboutLeases(e.action) && e.subject == l then Advance(before, e.action) else before
  }

  /** The same life, read off the lease row. */
  function Stored(s: Store, l: Id): Life {
    if l !in s.leases then Absent
    else
      var x := s.leases[l];
      if x.endedAt.None? && x.endReason.None? then Open(x.lastRenewedAt.Some?)
      else if x.endedAt.Some? && x.endReason.Some? then Closed(x.lastRenewedAt.Some?, x.endReason.value)
      else Broken
  }

  ghost predicate Audited(s: Store) {
    forall l: Id :: Replay(s.audit, l) == Stored(s, l) && Stored(s, l) != Broken
  }

  lemma ReplayAppend(log: seq<Event>, e: Event, l: Id)
    ensures
      Replay(log + [e], l) ==
      if AboutLeases(e.action) && e.subject == l then Advance(Replay(log, l), e.action) else Replay(log, l)
  {
    assert (log + [e])[..|log|] == log;
  }

  /** One write to a lease row together with its event keeps log and table in agreement. */
  lemma LoggedWrite(s: Store, t: Store, e: Event, l: Id)
    requires Audited(s) && t.audit == s.audit + [e] && AboutLeases(e.action) && e.subject == l
    requires l in t.leases && forall k :: k != l ==> (k in t.leases <==> k in s.leases)
    requires forall k :: k in s.leases && k != l ==> t.leases[k] == s.leases[k]
    requires Stored(t, l) == Advance(Stored(s, l), e.action) && Stored(t, l) != Broken
    ensures Audited(t)
  {
    forall k: Id ensures Replay(t.audit, k) == Stored(t, k) && Stored(t, k) != Broken {
      ReplayAppend(s.audit, e, k);
      assert Replay(s.audit, k) == Stored(s, k) && Stored(s, k) != Broken;
    }
  }

  lemma UnloggedWrite(s: Store, t: Store)
    requires Audited(s) && t.leases == s.leases
    requires t.audit == s.audit || (|t.audit| == |s.audit| + 1 && t.audit[..|s.audit|] == s.audit
                                    && !AboutLeases(t.audit[|s.audit|].action))
    ensures Audited(t)
  {
    forall k: Id ensures Replay(t.audit, k) == Stored(t, k) && Stored(t, k) != Broken {
      if t.audit != s.audit {
        assert t.audit == s.audit + [t.audit[|s.audit|]];
        ReplayAppend(s.audit, t.audit[|s.audit|], k);
      }
      assert Replay(s.audit, k) == Stored(s, k) && Stored(s, k) != Broken;
    }
  }

  /** Expiring a batch one lease after the other logs each one exactly once. */
  lemma {:induction false} BatchAudited(s: Store, ids: seq<Id>)
    requires Audited(s)
    requires forall l :: l in ids ==> l in s.leases && s.leases[l].endedAt.None? && s.leases[l].expiresAt.Some?
    requires forall i, j :: 0 <= i < j < |ids| ==> ids[i] != ids[j]
    ensures Audited(ExpireAll(s, ids))
  {
    if ids == [] {
      assert ExpireAll(s, []) == s;
    } else {
      var rest, l := ids[..|ids| - 1], ids[|ids| - 1];
      var t := ExpireAll(s, rest);
      BatchAudited(s, rest);
      ExpireNext(s, rest, l);
      assert ids == rest + [l] && l !in rest;
      assert Replay(t.audit, l) == Stored(t, l) && Stored(t, l) != Broken;
      LoggedWrite(t, ExpireLease(t, l), Event(None, LeaseExpired, l), l);
    }
  }

  lemma AcquireAudited(s: Store, now: Time, dir: Directory, q: Request, key: string, caller: Caller, newId: Id)
    requires Audited(s)
    ensures Audited(Acquire(s, now, dir, q, key, caller, newId).0)
  {
    var t := Acquire(s, now, dir, q, key, caller, newId).0;
    if t != s {
      LoggedWrite(s, t, Event(Some(caller.id), LeaseAcquired, newId), newId);
    }
  }

  lemma RenewAudited(s: Store, now: Time, l: Id, intent: TtlIntent, principal: Id)
    requires Linked(s) && Audited(s)
    ensures Audited(Renew(s, now, l, intent, principal).0)
  {
    var t := Renew(s, now, l, intent, principal).0;
    if t != s {
      assert Replay(s.audit, l) == Stored(s, l) && Stored(s, l) != Broken;
      LoggedWrite(s, t, Event(Some(principal), LeaseRenewed, l), l);
    }
  }

  lemma EndAudited(s: Store, now: Time, l: Id, e: Ending, principal: Id)
    requires Audited(s)
    ensures Audited(End(s, now, l, e, principal).0)
  {
    var t := End(s, now, l, e, principal).0;
    if t != s {
      assert Replay(s.audit, l) == Stored(s, l) && Stored(s, l) != Broken;
      LoggedWrite(s, t, Event(Some(principal), ActionOf(e), l), l);
    }
  }

  lemma CatalogAudited(s: Store, now: Time, op: Op)
    requires Linked(s) && Audited(s)
    requires op.CreateOp? || op.UpdateOp? || op.ArchiveOp? || op.TransitionOp? || op.GrantOp?
    ensures Audited(Step(s, now, op).0)
  {
    UnloggedWrite(s, Step(s, now, op).0);
  }

  lemma StepAudited(s: Store, now: Time, op: Op)
    requires Linked(s) && Audited(s)
    ensures Audited(Step(s, now, op).0)
  {
    match op
    case AcquireOp(dir, q, key, caller, newId) => AcquireAudited(s, now, dir, q, key, caller, newId);
    case RenewOp(l, intent, principal) => RenewAudited(s, now, l, intent, principal);
    case EndOp(l, e, principal) => EndAudited(s, now, l, e, principal);
    case ExpireOp(limit) =>
      SweepTakesDue(s, now, limit);
      BatchAudited(s, SweepIds(s, now, limit));
    case _ => CatalogAudited(s, now, op);
  }

  /** In every run, folding the log rebuilds every lease's state, and no history is broken. */
  lemma {:induction false} RunAudited(s: Store, trace: seq<Timed>)
    requires Linked(s) && Audited(s)
    ensures Audited(Run(s, trace))
    decreases trace
  {
    if trace != [] {
      StepMoves(s, trace[0].now, trace[0].op);
      StepAudited(s, trace[0].now, trace[0].op);
      RunAudited(Step(s, trace[0].now, trace[0].op).0, trace[1..]);
    }
  }

  // ----- The shape of one lease's history -----

  /** The actions the log records about one lease, oldest first. */
  function ActionsOf(log: seq<Event>, l: Id): seq<Action> {
    if log == [] then []
    else
      var e := log[|log| - 1];
      ActionsOf(log[..|log| - 1], l) + (if AboutLeases(e.action) && e.subject == l then [e.action] else [])
  }

  function Terminal(reason: EndReason): Action {
    match reason
    case Released => LeaseReleased
    case Revoked => LeaseRevoked
    case Expired => LeaseExpired
  }

  /** An acquisition, then `renewals` renewals, and nothing else. */
  function Lived(renewals: nat): seq<Action> {
    if renewals == 0 then [LeaseAcquired] else Lived(renewals - 1) + [LeaseRenewed]
  }

  ghost predicate Shaped(actions: seq<Action>, life: Life) {
    match life
    case Absent => actions == []
    case Open(renewed) => exists n: nat :: actions == Lived(n) && renewed == (n > 0)
    case Closed(renewed, reason) => exists n: nat :: actions == Lived(n) + [Terminal(reason)] && renewed == (n > 0)
    case Broken => true
  }

  lemma {:induction false} ReplayShapes(log: seq<Event>, l: Id)
    ensures Shaped(ActionsOf(log, l), Replay(log, l))
  {
    if log != [] {
      var rest, e := log[..|log| - 1], log[|log| - 1];
      ReplayShapes(rest, l);
      if AboutLeases(e.action) && e.subject == l {
        var life := Replay(rest, l);
        if life.Absent? && e.action == LeaseAcquired {
          assert ActionsOf(log, l) == Lived(0);
        } else if life.Open? && !e.action.LeaseAcquired? {
          var n: nat :| ActionsOf(rest, l) == Lived(n) && life.renewed == (n > 0);
          if e.action == LeaseRenewed {
            assert ActionsOf(log, l) == Lived(n + 1);
          } else {
            assert ActionsOf(log, l) == Lived(n) + [e.action];
            assert e.action == Terminal(Replay(log, l).reason);
          }
        }
      } else {
        assert ActionsOf(log, l) == ActionsOf(rest, l);
      }
    }
  }

  /**
   * In every run from the empty store, a lease's events are one acquisition, its renewals, and a
   * terminal event exactly when it has ended, of the stored reason; `last_renewed_at` is set
   * exactly when there is a renewal; and no event names a lease that does not exist.
   */
  lemma LogDeterminesLease(trace: seq<Timed>, l: Id)
    ensures
      var s := Run(EMPTY_STORE, trace);
      if l !in s.leases then ActionsOf(s.audit, l) == []
      else
        var x := s.leases[l];
        exists n: nat ::
          && (x.lastRenewedAt.Some? <==> n > 0)
          && (x.endedAt.Some? <==> x.endReason.Some?)
          && ActionsOf(s.audit, l) == Lived(n) + (if x.endedAt.Some? then [Terminal(x.endReason.value)] else [])
  {
    var s := Run(EMPTY_STORE, trace);
    RunAudited(EMPTY_STORE, trace);
    ReplayShapes(s.audit, l);
    assert Replay(s.audit, l) == Stored(s, l) && Stored(s, l) != Broken;
    if l in s.leases {
      var x := s.leases[l];
      if x.endedAt.Some? {
        var n: nat :|
          ActionsOf(s.audit, l) == Lived(n) + [Terminal(x.endReason.value)] && x.lastRenewedAt.Some? == (n > 0);
      } else {
        var n: nat :| ActionsOf(s.audit, l) == Lived(n) && x.lastRenewedAt.Some? == (n > 0);
        assert ActionsOf(s.audit, l) == Lived(n) + [];
      }
    }
  }

  // ----- Versions count logged changes -----

  predicate Bumps(e: Event, r: Id) {
    && e.subject == r
    && (e.action.ResourceUpdated? || e.action.ResourceArchived? || e.action.ResourceDisabled?
        || e.action.ResourceEnabled? || e.action.ResourceQuarantined? || e.action.ResourceRecovered?)
  }

  /** Logged updates, transitions and archivals of resource `r`. */
  function Changes(log: seq<Event>, r: Id): nat {
    if log == [] then 0
    else Changes(log[..|log| - 1], r) + if Bumps(log[|log| - 1], r) then 1 else 0
  }

  ghost predicate Versioned(s: Store) {
    forall r: Id ::
      if r in s.resources then s.resources[r].version == 1 + Changes(s.audit, r) else Changes(s.audit, r) == 0
  }

  lemma ChangesAppend(log: seq<Event>, e: Event, r: Id)
    ensures Changes(log + [e], r) == Changes(log, r) + if Bumps(e, r) then 1 else 0
  {
    assert (log + [e])[..|log|] == log;
  }

  /** One event describes the whole change: its resource, if it bumps one, is one version further. */
  ghost predicate Logged(s: Store, t: Store, e: Event) {
    && t.audit == s.audit + [e]
    && s.resources.Keys <= t.resources.Keys
    && (forall r :: r in s.resources ==>
          t.resources[r].version == s.resources[r].version + if Bumps(e, r) then 1 else 0)
    && (forall r :: r in t.resources && r !in s.resources ==> t.resources[r].version == 1)
    && (forall r: Id :: Bumps(e, r) ==> r in s.resources)
  }

  lemma LoggedChange(s: Store, t: Store, e: Event)
    requires Versioned(s) && Logged(s, t, e)
    ensures Versioned(t)
  {
    forall r: Id
      ensures if r in t.resources then t.resources[r].version == 1 + Changes(t.audit, r) else Changes(t.audit, r) == 0
    {
      ChangesAppend(s.audit, e, r);
    }
  }

  lemma {:induction false} BatchVersioned(s: Store, ids: seq<Id>)
    requires Versioned(s) && forall l :: l in ids ==> l in s.leases
    ensures Versioned(ExpireAll(s, ids))
  {
    if ids == [] {
      assert ExpireAll(s, []) == s;
    } else {
      var rest, l := ids[..|ids| - 1], ids[|ids| - 1];
      BatchVersioned(s, rest);
      ExpireNext(s, rest, l);
      assert ids == rest + [l];
      LoggedChange(ExpireAll(s, rest), ExpireAll(s, ids), Event(None, LeaseExpired, l));
    }
  }

  lemma AcquireEvent(s: Store, now: Time, dir: Directory, q: Request, key: string, caller: Caller, newId: Id)
    requires Acquire(s, now, dir, q, key, caller, newId).0 != s
    ensures
      Logged(s, Acquire(s, now, dir, q, key, caller, newId).0, Event(Some(caller.id), LeaseAcquired, newId))
  {}

  lemma RenewEvent(s: Store, now: Time, l: Id, intent: TtlIntent, principal: Id)
    requires Linked(s) && Renew(s, now, l, intent, principal).0 != s
    ensures Logged(s, Renew(s, now, l, intent, principal).0, Event(Some(principal), LeaseRenewed, l))
  {}

  lemma EndEvent(s: Store, now: Time, l: Id, e: Ending, principal: Id)
    requires End(s, now, l, e, principal).0 != s
    ensures Logged(s, End(s, now, l, e, principal).0, Event(Some(principal), ActionOf(e), l))
  {}

  lemma CreateEvent(s: Store, r: Id, d: Draft, actor: Id)
    requires Create(s, r, d, actor).0 != s
    ensures Logged(s, Create(s, r, d, actor).0, Event(Some(actor), ResourceCreated, r))
  {}

  lemma UpdateEvent(s: Store, r: Id, p: Patch, actor: Id)
    requires Update(s, r, p, actor).0 != s
    ensures Logged(s, Update(s, r, p, actor).0, Event(Some(actor), ResourceUpdated, r))
  {}

  lemma ArchiveEvent(s: Store, now: Time, r: Id, actor: Id)
    requires Archive(s, now, r, actor).0 != s
    ensures Logged(s, Archive(s, now, r, actor).0, Event(Some(actor), ResourceArchived, r))
  {}

  lemma TransitEvent(s: Store, r: Id, t: Transition, actor: Id)
    requires Transit(s, r, t, actor).0 != s
    ensures Logged(s, Transit(s, r, t, actor).0, Event(Some(actor), TransitionAction(t), r))
  {}

  lemma GrantEvent(s: Store, dir: Directory, r: Id, g: Grantee, granted: bool, actor: Id)
    requires SetGrant(s, dir, r, g, granted, actor).0 != s
    ensures
      Logged(s, SetGrant(s, dir, r, g, granted, actor).0,
             Event(Some(actor), if granted then AccessGranted(g) else AccessRevoked(g), r))
  {}

  /** Every operation other than a batch that changes the store logs one event, matching its bump. */
  lemma LoggedEvent(s: Store, now: Time, op: Op) returns (e: Event)
    requires Linked(s) && !op.ExpireOp? && Step(s, now, op).0 != s
    ensures Logged(s, Step(s, now, op).0, e)
  {
    match op
    case AcquireOp(dir, q, key, caller, newId) =>
      AcquireEvent(s, now, dir, q, key, caller, newId);
      e := Event(Some(caller.id), LeaseAcquired, newId);
    case RenewOp(l, intent, principal) =>
      RenewEvent(s, now, l, intent, principal);
      e := Event(Some(principal), LeaseRenewed, l);
    case EndOp(l, ending, principal) =>
      EndEvent(s, now, l, ending, principal);
      e := Event(Some(principal), ActionOf(ending), l);
    case CreateOp(r, d, actor) =>
      CreateEvent(s, r, d, actor);
      e := Event(Some(actor), ResourceCreated, r);
    case UpdateOp(r, p, actor) =>
      UpdateEvent(s, r, p, actor);
      e := Event(Some(actor), ResourceUpdated, r);
    case ArchiveOp(r, actor) =>
      ArchiveEvent(s, now, r, actor);
      e := Event(Some(actor), ResourceArchived, r);
    case TransitionOp(r, t, actor) =>
      TransitEvent(s, r, t, actor);
      e := Event(Some(actor), TransitionAction(t), r);
    case GrantOp(dir, r, g, granted, actor) =>
      GrantEvent(s, dir, r, g, granted, actor);
      e := Event(Some(actor), if granted then AccessGranted(g) else AccessRevoked(g), r);
  }

  lemma StepVersioned(s: Store, now: Time, op: Op)
    requires Linked(s) && Versioned(s)
    ensures Versioned(Step(s, now, op).0)
  {
    var t := Step(s, now, op).0;
    if op.ExpireOp? {
      SweepTakesDue(s, now, op.limit);
      BatchVersioned(s, SweepIds(s, now, op.limit));
    } else if t != s {
      var e := LoggedEvent(s, now, op);
      LoggedChange(s, t, e);
    }
  }

  /** In every run, a resource's version is 1 plus its logged updates, transitions and archival. */
  lemma {:induction false} RunVersioned(s: Store, trace: seq<Timed>)
    requires Linked(s) && Versioned(s)
    ensures Versioned(Run(s, trace))
    decreases trace
  {
    if trace != [] {
      StepMoves(s, trace[0].now, trace[0].op);
      StepVersioned(s, trace[0].now, trace[0].op);
      RunVersioned(Step(s, trace[0].now, trace[0].op).0, trace[1..]);
    }
  }

  lemma VersionsCountChanges(trace: seq<Timed>, r: Id)
    ensures
      var s := Run(EMPTY_STORE, trace);
      if r in s.resources then s.resources[r].version == 1 + Changes(s.audit, r) else Changes(s.audit, r) == 0
  {
    RunVersioned(EMPTY_STORE, trace);
  }
}
