/** What clients may conclude from answers and from dead leases, in every interleaving. */
module Answers {
  import opened Types
  import opened Ranks
  import opened Catalog
  import opened Leasing
  import opened Interleaving
  import opened Exclusivity
  import opened Paths

  // ----- What no move changes -----

  /** Lease rows are never deleted and keep their origin; answers are never taken back. */
  ghost predicate Continues(s: Sys, t: Sys) {
    && (forall l :: l in s.db.leases ==> l in t.db.leases && SameOrigin(s.db.leases[l], t.db.leases[l]))
    && |s.replies| <= |t.replies|
    && (forall i :: 0 <= i < |s.replies| ==> t.replies[i] == s.replies[i])
  }

  ghost predicate Honest(db: Store, r: Reply) {
    if r.granted.Some? then
      var l := r.granted.value;
      l in db.leases && Under(db.leases[l], r) && db.leases[l].hash == Canonical(r.request)
    else
      exists l :: l in db.leases && Under(db.leases[l], r) && db.leases[l].hash != Canonical(r.request)
  }

  predicate Under(x: Lease, r: Reply) {
    x.owner == r.principal && x.key == r.key
  }

  /** Every answer still matches the table, and every lease beyond `initial` was granted to somebody. */
  ghost predicate Answered(s: Sys, initial: set<Id>) {
    && (forall i :: 0 <= i < |s.replies| ==> Honest(s.db, s.replies[i]))
    && (forall l :: l in s.db.leases && l !in initial ==> Some(l) in Grantees(s.replies))
  }

  function Grantees(replies: seq<Reply>): set<Option<Id>> {
    set i | 0 <= i < |replies| :: replies[i].granted
  }

  lemma HonestStays(s: Sys, t: Sys, r: Reply)
    requires Continues(s, t) && Honest(s.db, r)
    ensures Honest(t.db, r)
  {
    if r.granted.None? {
      var l :| l in s.db.leases && Under(s.db.leases[l], r) && s.db.leases[l].hash != Canonical(r.request);
      assert l in t.db.leases && SameOrigin(s.db.leases[l], t.db.leases[l]);
    }
  }

  /** The general step: at most one new answer, honest about the new table. */
  lemma AnsweredStep(s: Sys, t: Sys, initial: set<Id>)
    requires Answered(s, initial) && Continues(s, t)
    requires forall i :: |s.replies| <= i < |t.replies| ==> Honest(t.db, t.replies[i])
    requires forall l :: l in t.db.leases && l !in s.db.leases ==> Some(l) in Grantees(t.replies)
    ensures Answered(t, initial)
  {
    forall i | 0 <= i < |t.replies| ensures Honest(t.db, t.replies[i]) {
      if i < |s.replies| {
        assert Honest(s.db, s.replies[i]);
        HonestStays(s, t, s.replies[i]);
      }
    }
    forall l | l in t.db.leases && l !in initial ensures Some(l) in Grantees(t.replies) {
      if l in s.db.leases {
        var i :| 0 <= i < |s.replies| && s.replies[i].granted == Some(l);
        assert t.replies[i].granted == Some(l);
      }
    }
  }

  lemma SameTables(s: Sys, t: Sys, initial: set<Id>)
    requires Answered(s, initial) && t.db.leases == s.db.leases && t.replies == s.replies
    ensures Answered(t, initial) && Continues(s, t)
  {
    AnsweredStep(s, t, initial);
  }

  lemma LookUpAnswers(s: Sys, tx: Tx, a: Ask, initial: set<Id>)
    requires Answered(s, initial) && tx in s.txns && s.txns[tx].point == Keyed(a)
    ensures Answered(LookedUp(s, tx, a), initial) && Continues(s, LookedUp(s, tx, a))
  {
    var t := LookedUp(s, tx, a);
    var holders := Holders(s.db, a.caller.id, a.key);
    if holders != {} {
      var l := First(holders).id;
      assert l in s.db.leases && s.db.leases[l].owner == a.caller.id && s.db.leases[l].key == a.key;
      assert Under(s.db.leases[l], t.replies[|s.replies|]);
    }
    AnsweredStep(s, t, initial);
  }

  lemma NextAnswers(h: Hash, s: Sys, tx: Tx, act: Act, initial: set<Id>)
    requires Inv(h, s) && Answered(s, initial) && tx in s.txns && Next(h, s, tx, act).Some?
    ensures Answered(Next(h, s, tx, act).value, initial) && Continues(s, Next(h, s, tx, act).value)
  {
    if s.txns[tx].point.Keyed? {
      LookUpAnswers(s, tx, s.txns[tx].point.ask, initial);
    } else {
      NextIsPrivate(h, s, tx, act);
      SameTables(s, Next(h, s, tx, act).value, initial);
    }
  }

  /** The lease about to be inserted is the one its request asked for. */
  ghost predicate AsAsked(p: Point)
    requires p.Inserted?
  {
    p.lease.owner == p.ask.caller.id && p.lease.key == p.ask.key && p.lease.hash == Canonical(p.ask.request)
  }

  lemma GrantPublishes(s: Sys, tx: Tx, initial: set<Id>)
    requires Answered(s, initial) && tx in s.txns && s.txns[tx].point.Inserted? && Published(s, tx).Some?
    requires AsAsked(s.txns[tx].point)
    ensures Answered(Published(s, tx).value, initial) && Continues(s, Published(s, tx).value)
  {
    var t := Published(s, tx).value;
    assert t.replies[|s.replies|].granted == Some(s.txns[tx].point.id);
    assert Honest(t.db, t.replies[|s.replies|]);
    AnsweredStep(s, t, initial);
  }

  lemma GrantAnswers(h: Hash, s: Sys, tx: Tx, initial: set<Id>)
    requires Inv(h, s) && Answered(s, initial) && tx in s.txns && s.txns[tx].point.Inserted? && Published(s, tx).Some?
    ensures Answered(Published(s, tx).value, initial) && Continues(s, Published(s, tx).value)
  {
    assert Local(h, s, tx);
    GrantPublishes(s, tx, initial);
  }

  lemma RewriteAnswers(s: Sys, id: Id, row: Lease, initial: set<Id>)
    requires Answered(s, initial) && id in s.db.leases && SameOrigin(s.db.leases[id], row)
    ensures Answered(s.(db := PutLease(s.db, id, row)), initial)
    ensures Continues(s, s.(db := PutLease(s.db, id, row)))
  {
    AnsweredStep(s, s.(db := PutLease(s.db, id, row)), initial);
  }

  lemma SweepAnswers(s: Sys, ids: seq<Id>, initial: set<Id>)
    requires Answered(s, initial)
    ensures Answered(s.(db := ExpireAll(s.db, ids)), initial) && Continues(s, s.(db := ExpireAll(s.db, ids)))
  {
    AnsweredStep(s, s.(db := ExpireAll(s.db, ids)), initial);
  }

  lemma RowCommitAnswers(s: Sys, tx: Tx, initial: set<Id>)
    requires Answered(s, initial) && tx in s.txns && Published(s, tx).Some?
    requires s.txns[tx].point.RenewWritten? || s.txns[tx].point.EndLocked?
    ensures Answered(Published(s, tx).value, initial) && Continues(s, Published(s, tx).value)
  {
    var p := s.txns[tx].point;
    if p.RenewWritten? {
      RewriteAnswers(s, p.id, RenewedRow(s.db.leases[p.id], p.at, p.ttl), initial);
    } else if p.read.endedAt.Some? {
      SameTables(s, s, initial);
    } else {
      RewriteAnswers(s, p.id, EndedRow(s.db.leases[p.id], s.txns[tx].start, ReasonOf(p.ending)), initial);
    }
  }

  lemma OtherCommitAnswers(s: Sys, tx: Tx, initial: set<Id>)
    requires Answered(s, initial) && tx in s.txns && Published(s, tx).Some? && !s.txns[tx].point.Inserted?
    ensures Answered(Published(s, tx).value, initial) && Continues(s, Published(s, tx).value)
  {
    var p := s.txns[tx].point;
    if p.RenewWritten? || p.EndLocked? {
      RowCommitAnswers(s, tx, initial);
    } else if p.Sweeping? {
      SweepAnswers(s, p.ids, initial);
    } else {
      SameTables(s, Published(s, tx).value, initial);
    }
  }

  lemma CommitAnswers(h: Hash, s: Sys, tx: Tx, initial: set<Id>)
    requires Inv(h, s) && Answered(s, initial) && tx in s.txns && Published(s, tx).Some?
    ensures Answered(Published(s, tx).value, initial) && Continues(s, Published(s, tx).value)
  {
    if s.txns[tx].point.Inserted? {
      GrantAnswers(h, s, tx, initial);
    } else {
      OtherCommitAnswers(s, tx, initial);
    }
  }

  lemma FireAnswers(h: Hash, s: Sys, m: Move, initial: set<Id>)
    requires Inv(h, s) && Answered(s, initial) && Fire(h, s, m).Some?
    ensures Answered(Fire(h, s, m).value, initial) && Continues(s, Fire(h, s, m).value)
  {
    var t := Fire(h, s, m).value;
    if m.Run? && m.act == Commit {
      CommitAnswers(h, s, m.tx, initial);
      var u := Published(s, m.tx).value;
      SameTables(u, t, initial);
    } else if m.Run? && m.act != Abort {
      NextAnswers(h, s, m.tx, m.act, initial);
    } else {
      SameTables(s, t, initial);
    }
  }

  lemma {:induction false} ReachAnswers(h: Hash, s: Sys, moves: seq<Move>, t: Sys, initial: set<Id>)
    requires Inv(h, s) && Answered(s, initial) && Reaches(h, s, moves, t)
    ensures Inv(h, t) && Answered(t, initial)
    decreases moves
  {
    if moves != [] {
      FireInv(h, s, moves[0]);
      FireAnswers(h, s, moves[0], initial);
      ReachAnswers(h, Fire(h, s, moves[0]).value, moves[1..], t, initial);
    }
  }

  /**
   * Idempotency. In every interleaving, once a principal's key has been answered with a lease,
   * any two answers for that key agree: the same request always gets that lease, also after it
   * has ended, and any other request gets a conflict.
   */
  lemma IdempotentInEveryInterleaving(h: Hash, s: Sys, moves: seq<Move>, t: Sys, i: nat, j: nat)
    requires Idle(s) && Reaches(h, s, moves, t)
    requires i < |t.replies| && j < |t.replies|
    requires t.replies[i].principal == t.replies[j].principal && t.replies[i].key == t.replies[j].key
    requires t.replies[i].granted.Some?
    ensures
      t.replies[j].granted == if t.replies[j].request == t.replies[i].request then t.replies[i].granted else None
  {
    ReachAnswers(h, s, moves, t, s.db.leases.Keys);
    var l := t.replies[i].granted.value;
    assert Honest(t.db, t.replies[i]) && Honest(t.db, t.replies[j]);
    CanonicalInjective(t.replies[i].request, t.replies[j].request);
    if t.replies[j].granted.None? {
      var k :| k in t.db.leases && Under(t.db.leases[k], t.replies[j])
        && t.db.leases[k].hash != Canonical(t.replies[j].request);
      assert k == l;
    }
  }

  /** A key is held only through an answer: attempts that fail or roll back never consume it. */
  lemma KeysComeFromGrants(h: Hash, s: Sys, moves: seq<Move>, t: Sys, l: Id)
    requires Idle(s) && Reaches(h, s, moves, t) && l in t.db.leases && l !in s.db.leases
    ensures exists i ::
      && 0 <= i < |t.replies| && t.replies[i].granted == Some(l)
      && Under(t.db.leases[l], t.replies[i]) && t.db.leases[l].hash == Canonical(t.replies[i].request)
  {
    ReachAnswers(h, s, moves, t, s.db.leases.Keys);
    assert Some(l) in Grantees(t.replies);
    var i :| 0 <= i < |t.replies| && t.replies[i].granted == Some(l);
    var r := t.replies[i];
    assert Honest(t.db, r);
    assert Under(t.db.leases[l], r) && t.db.leases[l].hash == Canonical(r.request);
  }

  // ----- Death -----

  /** The write that is still to come will set an expiry. */
  predicate Resolvable(db: Store, read: Lease, intent: TtlIntent) {
    read.resource in db.resources && ResolveTtl(db.resources[read.resource], intent).Ok?
  }

  /** The expiry already written, but not yet committed, lies after `since`. */
  predicate Outlasts(at: Time, ttl: Option<Ttl>, since: Time) {
    ttl.None? || at + ttl.value * SECOND > since
  }

  /** A renewal of `l` past its overdue test whose commit would leave the lease active at `since`. */
  predicate Reviving(s: Sys, p: Point, l: Id, since: Time) {
    || (p.RenewChecked? && p.id == l && Resolvable(s.db, p.read, p.intent))
    || (p.RenewWritten? && p.id == l && Outlasts(p.at, p.ttl, since))
  }

  predicate RenewalPending(s: Sys, l: Id) {
    exists tx | tx in s.txns :: Reviving(s, s.txns[tx].point, l, s.clock)
  }

  /** Inactive at `since`, an instant not ahead, with no renewal under way that could change that. */
  predicate DeadSince(s: Sys, l: Id, since: Time) {
    && l in s.db.leases && since <= s.clock && !ActiveAt(s.db.leases[l], since)
    && forall tx | tx in s.txns :: !Reviving(s, s.txns[tx].point, l, since)
  }

  predicate Dead(s: Sys, l: Id) {
    DeadSince(s, l, s.clock)
  }

  lemma AcquiringNeverRenews(h: Hash, s: Sys, tx: Tx, act: Act, l: Id, since: Time)
    requires tx in s.txns && Acquiring(s.txns[tx].point) && NextAcquiring(h, s, tx, act).Some?
    requires tx in NextAcquiring(h, s, tx, act).value.txns
    ensures !Reviving(NextAcquiring(h, s, tx, act).value, NextAcquiring(h, s, tx, act).value.txns[tx].point, l, since)
  {}

  lemma RenewalsAdvance(s: Sys, tx: Tx, act: Act, l: Id, since: Time)
    requires tx in s.txns && Renewal(s.txns[tx].point) && NextRenewing(s, tx, act).Some?
    ensures
      var p, t := s.txns[tx].point, NextRenewing(s, tx, act).value;
      Reviving(t, t.txns[tx].point, l, since) ==>
        p.id == l && (Reviving(s, p, l, since) || (p.RenewLocked? && ActiveAt(p.read, s.clock)))
  {}

  lemma EndingNeverRenews(s: Sys, tx: Tx, act: Act, l: Id, since: Time)
    requires tx in s.txns && (s.txns[tx].point.Finishing? || s.txns[tx].point.EndLeased?)
    requires NextEnding(s, tx, act).Some?
    ensures !Reviving(NextEnding(s, tx, act).value, NextEnding(s, tx, act).value.txns[tx].point, l, since)
  {}

  lemma ManagingNeverRenews(s: Sys, tx: Tx, act: Act, l: Id, since: Time)
    requires tx in s.txns && (s.txns[tx].point.Managing? || s.txns[tx].point.Managed?)
    requires NextManaging(s, tx, act).Some?
    ensures !Reviving(NextManaging(s, tx, act).value, NextManaging(s, tx, act).value.txns[tx].point, l, since)
  {}

  lemma OthersNeverRenew(h: Hash, s: Sys, tx: Tx, act: Act, l: Id, since: Time)
    requires tx in s.txns && !Acquiring(s.txns[tx].point) && !Renewal(s.txns[tx].point)
    requires Next(h, s, tx, act).Some? && tx in Next(h, s, tx, act).value.txns
    ensures !Reviving(Next(h, s, tx, act).value, Next(h, s, tx, act).value.txns[tx].point, l, since)
  {
    var p := s.txns[tx].point;
    if p.Finishing? || p.EndLeased? {
      EndingNeverRenews(s, tx, act, l, since);
    } else if p.Managing? || p.Managed? {
      ManagingNeverRenews(s, tx, act, l, since);
    }
  }

  lemma OnlyRenewalsRevive(h: Hash, s: Sys, tx: Tx, act: Act, l: Id, since: Time)
    requires tx in s.txns && Next(h, s, tx, act).Some? && tx in Next(h, s, tx, act).value.txns
    ensures
      var p, t := s.txns[tx].point, Next(h, s, tx, act).value;
      Reviving(t, t.txns[tx].point, l, since) ==>
        Renewal(p) && p.id == l && (Reviving(s, p, l, since) || (p.RenewLocked? && ActiveAt(p.read, s.clock)))
  {
    if Acquiring(s.txns[tx].point) {
      AcquiringNeverRenews(h, s, tx, act, l, since);
    } else if Renewal(s.txns[tx].point) {
      RenewalsAdvance(s, tx, act, l, since);
    } else {
      OthersNeverRenew(h, s, tx, act, l, since);
    }
  }

  lemma NextKeepsDead(h: Hash, s: Sys, tx: Tx, act: Act, l: Id, since: Time)
    requires Inv(h, s) && DeadSince(s, l, since) && tx in s.txns && Next(h, s, tx, act).Some?
    ensures DeadSince(Next(h, s, tx, act).value, l, since)
  {
    var t := Next(h, s, tx, act).value;
    assert Local(h, s, tx);
    NextIsPrivate(h, s, tx, act);
    forall u | u in t.txns ensures !Reviving(t, t.txns[u].point, l, since) {
      if u == tx {
        OnlyRenewalsRevive(h, s, tx, act, l, since);
      } else {
        assert !Reviving(s, s.txns[u].point, l, since);
      }
    }
  }

  lemma SweepKeepsDead(h: Hash, s: Sys, tx: Tx, l: Id, since: Time)
    requires Inv(h, s) && DeadSince(s, l, since) && tx in s.txns && s.txns[tx].point.Sweeping? && Published(s, tx).Some?
    ensures DeadSince(Ended(Published(s, tx).value, tx), l, since)
  {
    assert Local(h, s, tx);
    var t := Ended(Published(s, tx).value, tx);
    forall u | u in t.txns ensures !Reviving(t, t.txns[u].point, l, since) {
      assert !Reviving(s, s.txns[u].point, l, since);
    }
  }

  /** A rewrite cannot make a pending renewal's TTL resolvable: that renewal has the row locked. */
  lemma RewritesElsewhere(h: Hash, s: Sys, tx: Tx, u: Tx)
    requires Inv(h, s) && tx in s.txns && s.txns[tx].point.Settled?
    requires u in s.txns && u != tx && s.txns[u].point.RenewChecked?
    ensures s.txns[u].point.read.resource != s.txns[tx].point.row
  {
    assert Local(h, s, tx) && Local(h, s, u);
  }

  lemma SettleStaysDead(s: Sys, tx: Tx, l: Id, since: Time)
    requires DeadSince(s, l, since) && tx in s.txns && s.txns[tx].point.Settled? && Published(s, tx).Some?
    requires forall u :: u in s.txns && u != tx && s.txns[u].point.RenewChecked? ==>
      s.txns[u].point.read.resource != s.txns[tx].point.row
    ensures DeadSince(Ended(Published(s, tx).value, tx), l, since)
  {
    var t := Ended(Published(s, tx).value, tx);
    forall u | u in t.txns ensures !Reviving(t, t.txns[u].point, l, since) {
      assert !Reviving(s, s.txns[u].point, l, since);
    }
  }

  lemma SettleKeepsDead(h: Hash, s: Sys, tx: Tx, l: Id, since: Time)
    requires Inv(h, s) && DeadSince(s, l, since) && tx in s.txns && s.txns[tx].point.Settled? && Published(s, tx).Some?
    ensures DeadSince(Ended(Published(s, tx).value, tx), l, since)
  {
    forall u | u in s.txns && u != tx && s.txns[u].point.RenewChecked?
      ensures s.txns[u].point.read.resource != s.txns[tx].point.row
    {
      RewritesElsewhere(h, s, tx, u);
    }
    SettleStaysDead(s, tx, l, since);
  }

  /** Nothing that stays as it was starts to revive the lease. */
  lemma StillDead(s: Sys, t: Sys, l: Id, since: Time)
    requires DeadSince(s, l, since) && l in t.db.leases && !ActiveAt(t.db.leases[l], since) && s.clock <= t.clock
    requires forall u :: u in t.txns && u in s.txns ==> t.txns[u].point == s.txns[u].point
    requires forall u :: u in t.txns && u !in s.txns ==> Initial(t.txns[u].point)
    requires forall read, intent :: Resolvable(t.db, read, intent) ==> Resolvable(s.db, read, intent)
    ensures DeadSince(t, l, since)
  {
    forall u | u in t.txns ensures !Reviving(t, t.txns[u].point, l, since) {
      if u in s.txns {
        assert !Reviving(s, s.txns[u].point, l, since);
      }
    }
  }

  lemma InsertKeepsDead(s: Sys, tx: Tx, l: Id, since: Time)
    requires DeadSince(s, l, since) && tx in s.txns && Published(s, tx).Some? && s.txns[tx].point.Inserted?
    ensures DeadSince(Ended(Published(s, tx).value, tx), l, since)
  {
    StillDead(s, Ended(Published(s, tx).value, tx), l, since);
  }

  lemma RowKeepsDead(s: Sys, tx: Tx, l: Id, since: Time)
    requires DeadSince(s, l, since) && tx in s.txns && Published(s, tx).Some?
    requires s.txns[tx].point.RenewWritten? || s.txns[tx].point.EndLocked?
    ensures DeadSince(Ended(Published(s, tx).value, tx), l, since)
  {
    assert !Reviving(s, s.txns[tx].point, l, since);
    StillDead(s, Ended(Published(s, tx).value, tx), l, since);
  }

  lemma CommitKeepsDead(h: Hash, s: Sys, tx: Tx, l: Id, since: Time)
    requires Inv(h, s) && DeadSince(s, l, since) && tx in s.txns && Published(s, tx).Some?
    ensures DeadSince(Ended(Published(s, tx).value, tx), l, since)
  {
    var p := s.txns[tx].point;
    if p.Inserted? {
      InsertKeepsDead(s, tx, l, since);
    } else if p.RenewWritten? || p.EndLocked? {
      RowKeepsDead(s, tx, l, since);
    } else if p.Sweeping? {
      SweepKeepsDead(h, s, tx, l, since);
    } else if p.Settled? {
      SettleKeepsDead(h, s, tx, l, since);
    } else if p.Creating? {
      CreateKeepsDead(h, s, tx, l, since);
    } else {
      DisclosureKeepsDead(s, tx, l, since);
    }
  }

  /** A new resource cannot make a pending renewal's TTL resolvable: its own resource existed before. */
  lemma RenewsExisting(h: Hash, s: Sys, u: Tx)
    requires Inv(h, s) && u in s.txns && s.txns[u].point.RenewChecked?
    ensures s.txns[u].point.read.resource in s.db.resources
  {
    assert Local(h, s, u);
  }

  lemma CreateStaysDead(s: Sys, tx: Tx, l: Id, since: Time)
    requires DeadSince(s, l, since) && tx in s.txns && s.txns[tx].point.Creating? && Published(s, tx).Some?
    requires forall u :: u in s.txns && s.txns[u].point.RenewChecked? ==>
      s.txns[u].point.read.resource in s.db.resources
    ensures DeadSince(Ended(Published(s, tx).value, tx), l, since)
  {
    var t := Ended(Published(s, tx).value, tx);
    forall u | u in t.txns ensures !Reviving(t, t.txns[u].point, l, since) {
      assert !Reviving(s, s.txns[u].point, l, since);
    }
  }

  lemma CreateKeepsDead(h: Hash, s: Sys, tx: Tx, l: Id, since: Time)
    requires Inv(h, s) && DeadSince(s, l, since) && tx in s.txns && s.txns[tx].point.Creating?
    requires Published(s, tx).Some?
    ensures DeadSince(Ended(Published(s, tx).value, tx), l, since)
  {
    forall u | u in s.txns && s.txns[u].point.RenewChecked?
      ensures s.txns[u].point.read.resource in s.db.resources
    {
      RenewsExisting(h, s, u);
    }
    CreateStaysDead(s, tx, l, since);
  }

  lemma DisclosureKeepsDead(s: Sys, tx: Tx, l: Id, since: Time)
    requires DeadSince(s, l, since) && tx in s.txns && Published(s, tx).Some? && s.txns[tx].point.Disclosing?
    ensures DeadSince(Ended(Published(s, tx).value, tx), l, since)
  {
    StillDead(s, Ended(Published(s, tx).value, tx), l, since);
  }

  lemma QuietKeepsDead(h: Hash, s: Sys, m: Move, l: Id, since: Time)
    requires DeadSince(s, l, since) && Fire(h, s, m).Some? && (m.Tick? || m.Begin? || m.act == Abort)
    ensures DeadSince(Fire(h, s, m).value, l, since)
  {
    StillDead(s, Fire(h, s, m).value, l, since);
  }

  lemma FireKeepsDead(h: Hash, s: Sys, m: Move, l: Id, since: Time)
    requires Inv(h, s) && DeadSince(s, l, since) && Fire(h, s, m).Some?
    ensures DeadSince(Fire(h, s, m).value, l, since)
  {
    if m.Run? && m.act == Commit {
      CommitKeepsDead(h, s, m.tx, l, since);
    } else if m.Run? && m.act != Abort {
      NextKeepsDead(h, s, m.tx, m.act, l, since);
    } else {
      QuietKeepsDead(h, s, m, l, since);
    }
  }

  /**
   * Once dead, with no reviving renewal under way, a lease is in every later state inactive at that
   * state's clock, and still at the instant it was dead at.
   */
  lemma {:induction false} DeathInEveryInterleaving(h: Hash, s: Sys, moves: seq<Move>, t: Sys, l: Id, since: Time)
    requires Inv(h, s) && DeadSince(s, l, since) && Reaches(h, s, moves, t)
    ensures DeadSince(t, l, since) && Dead(t, l) && !ActiveAt(t.db.leases[l], t.clock)
    decreases moves
  {
    if moves != [] {
      FireInv(h, s, moves[0]);
      FireKeepsDead(h, s, moves[0], l, since);
      DeathInEveryInterleaving(h, Fire(h, s, moves[0]).value, moves[1..], t, l, since);
    }
  }

  // ----- Revival -----

  ghost predicate ActiveIn(s: Sys, l: Id) {
    l in s.db.leases && ActiveAt(s.db.leases[l], s.clock)
  }

  ghost predicate MayRevive(h: Hash, s: Sys, l: Id) {
    exists moves, t :: Reaches(h, s, moves, t) && ActiveIn(t, l)
  }

  lemma CommitRevives(h: Hash, s: Sys, tx: Tx, l: Id)
    requires Inv(h, s) && tx in s.txns && s.txns[tx].point.RenewWritten? && Reviving(s, s.txns[tx].point, l, s.clock)
    ensures MayRevive(h, s, l)
  {
    assert Local(h, s, tx);
    var t := Ended(Published(s, tx).value, tx);
    assert Reaches(h, t, [], t);
    Prepend(h, s, Run(tx, Commit), [], t);
    assert ActiveIn(t, l);
  }

  lemma WriteFires(h: Hash, s: Sys, tx: Tx, l: Id) returns (t: Sys)
    requires tx in s.txns && s.txns[tx].point.RenewChecked? && Reviving(s, s.txns[tx].point, l, s.clock)
    ensures Fire(h, s, Run(tx, Write)) == Some(t) && t.clock == s.clock
    ensures tx in t.txns && t.txns[tx].point.RenewWritten? && Reviving(t, t.txns[tx].point, l, t.clock)
  {
    var p := s.txns[tx].point;
    var ttl := ResolveTtl(s.db.resources[p.read.resource], p.intent).value;
    t := At(s, tx, RenewWritten(l, p.read, s.clock, ttl));
  }

  lemma WriteRevives(h: Hash, s: Sys, tx: Tx, l: Id)
    requires Inv(h, s) && tx in s.txns && s.txns[tx].point.RenewChecked? && Reviving(s, s.txns[tx].point, l, s.clock)
    ensures MayRevive(h, s, l)
  {
    var t := WriteFires(h, s, tx, l);
    FireInv(h, s, Run(tx, Write));
    CommitRevives(h, t, tx, l);
    RevivesLater(h, s, Run(tx, Write), t, l);
  }

  lemma RevivesLater(h: Hash, s: Sys, m: Move, t: Sys, l: Id)
    requires Fire(h, s, m) == Some(t) && MayRevive(h, t, l)
    ensures MayRevive(h, s, l)
  {
    var moves, u :| Reaches(h, t, moves, u) && ActiveIn(u, l);
    Prepend(h, s, m, moves, u);
  }

  /**
   * A lease that is inactive now can become active again exactly when a renewal of it is past its
   * overdue test and either has a resolvable TTL still to write or has written an expiry ahead.
   */
  lemma RevivesExactlyWhen(h: Hash, s: Sys, l: Id)
    requires Inv(h, s) && l in s.db.leases && !ActiveAt(s.db.leases[l], s.clock)
    ensures MayRevive(h, s, l) <==> RenewalPending(s, l)
  {
    if RenewalPending(s, l) {
      var tx :| tx in s.txns && Reviving(s, s.txns[tx].point, l, s.clock);
      if s.txns[tx].point.RenewChecked? {
        WriteRevives(h, s, tx, l);
      } else {
        CommitRevives(h, s, tx, l);
      }
    } else {
      forall moves, t | Reaches(h, s, moves, t) ensures !ActiveIn(t, l) {
        DeathInEveryInterleaving(h, s, moves, t, l, s.clock);
      }
    }
  }
}
