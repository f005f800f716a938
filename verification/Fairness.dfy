/** What the selection order guarantees over a run: bounded waiting, and evenly shared load. */
module Fairness {
  import opened Sets
  import opened Types
  import opened Ranks
  import opened Catalog
  import opened Leasing
  import opened Lifecycle
  import opened Invariants

  /** The resource on which a step granted a lease that was not there before. */
  function Grant(s: Store, now: Time, op: Op): Option<Id>
    requires Linked(s)
  {
    var (t, o) := Step(s, now, op);
    if op.AcquireOp? && o.Acquired? && o.lease !in s.leases then Some(o.resource) else None
  }

  /** The rows an acquisition may choose from. */
  function Choices(s: Store, now: Time, op: Op): set<Id> {
    if op.AcquireOp? then set x | x in Candidates(s, now, op.dir, op.request, op.caller) :: x.id else {}
  }

  /** A fresh grant goes to the least candidate. */
  lemma GrantIsFirst(s: Store, now: Time, op: Op)
    requires Linked(s) && Grant(s, now, op).Some?
    ensures
      var c := Candidates(s, now, op.dir, op.request, op.caller);
      c != {} && Grant(s, now, op).value == First(c).id
  {}

  lemma ChoiceRank(s: Store, now: Time, op: Op, r: Id)
    requires op.AcquireOp? && r in Choices(s, now, op)
    ensures r in s.resources && Eligible(s, now, op.dir, op.request, op.caller, r)
    ensures RankOf(s, now, r) in Candidates(s, now, op.dir, op.request, op.caller)
  {}

  // ----- Bounded bypass -----

  predicate Precedes(a: Resource, i: Id, b: Resource, j: Id) {
    Below(Rank(0, a.lastLeasedAt, i), Rank(0, b.lastLeasedAt, j))
  }

  /** Members of the pool that the order still places before `x`. */
  function Ahead(s: Store, pool: set<Id>, x: Id): (rows: set<Id>)
    requires x in s.resources
    ensures rows <= pool - {x}
  {
    set r | r in pool && r in s.resources && Precedes(s.resources[r], r, s.resources[x], x)
  }

  /** An exclusive grant from the pool, at a moment when `x` could have been chosen. */
  predicate Turn(s: Store, now: Time, op: Op, pool: set<Id>, x: Id)
    requires Linked(s)
  {
    && Grant(s, now, op).Some? && op.request.sharing == Exclusive
    && x in Choices(s, now, op) && Choices(s, now, op) <= pool
  }

  function Turns(s: Store, trace: seq<Timed>, pool: set<Id>, x: Id): nat
    requires Linked(s)
    decreases trace
  {
    if trace == [] then 0
    else
      StepMoves(s, trace[0].now, trace[0].op);
      (if Turn(s, trace[0].now, trace[0].op, pool, x) then 1 else 0)
      + Turns(Step(s, trace[0].now, trace[0].op).0, trace[1..], pool, x)
  }

  predicate Served(s: Store, trace: seq<Timed>, x: Id)
    requires Linked(s)
    decreases trace
  {
    trace != [] && (
      StepMoves(s, trace[0].now, trace[0].op);
      || Grant(s, trace[0].now, trace[0].op) == Some(x)
      || Served(Step(s, trace[0].now, trace[0].op).0, trace[1..], x))
  }

  /** The last lease of a resource began before `at`. */
  predicate Rested(x: Resource, at: Time) {
    x.lastLeasedAt.None? || x.lastLeasedAt.value < at
  }

  /** A grant stamps its resource; nothing else changes when a resource was last leased. */
  lemma LastLeased(s: Store, now: Time, op: Op, r: Id)
    requires Linked(s) && r in s.resources
    ensures
      var t := Step(s, now, op).0;
      r in t.resources && t.resources[r].lastLeasedAt ==
        if Grant(s, now, op) == Some(r) then Some(now) else s.resources[r].lastLeasedAt
  {
    match op
    case ExpireOp(limit) => ExpireMoves(s, now, limit);
    case _ =>
  }

  lemma TurnTakesFromAhead(s: Store, now: Time, op: Op, pool: set<Id>, x: Id)
    requires Linked(s) && x in s.resources && Turn(s, now, op, pool, x) && Grant(s, now, op) != Some(x)
    ensures Grant(s, now, op).value in Ahead(s, pool, x)
  {
    var r := Grant(s, now, op).value;
    GrantIsFirst(s, now, op);
    ChoiceRank(s, now, op, x);
    assert r in Choices(s, now, op);
    ChoiceRank(s, now, op, r);
    assert Below(RankOf(s, now, r), RankOf(s, now, x));
  }

  lemma AheadShrinks(s: Store, clock: Time, now: Time, op: Op, pool: set<Id>, x: Id)
    requires Sound(s, clock) && clock <= now && x in s.resources && pool <= s.resources.Keys
    requires Rested(s.resources[x], now) && Grant(s, now, op) != Some(x)
    ensures
      var t := Step(s, now, op).0;
      && x in t.resources
      && Ahead(t, pool, x) <= Ahead(s, pool, x)
      && (Turn(s, now, op, pool, x) ==> |Ahead(t, pool, x)| < |Ahead(s, pool, x)|)
  {
    var t := Step(s, now, op).0;
    LastLeased(s, now, op, x);
    forall r | r in pool ensures r in Ahead(t, pool, x) ==> r in Ahead(s, pool, x) && Grant(s, now, op) != Some(r) {
      LastLeased(s, now, op, r);
    }
    if Turn(s, now, op, pool, x) {
      TurnTakesFromAhead(s, now, op, pool, x);
      Shrinks(Ahead(t, pool, x), Ahead(s, pool, x), Grant(s, now, op).value);
    }
  }

  lemma Shrinks(a: set<Id>, b: set<Id>, r: Id)
    requires a <= b && r in b && r !in a
    ensures |a| < |b|
  {
    SubsetSize(a, b - {r});
  }

  lemma {:induction false} TurnsBounded(s: Store, clock: Time, trace: seq<Timed>, pool: set<Id>, x: Id)
    requires Sound(s, clock) && Ordered(clock, trace) && x in s.resources && pool <= s.resources.Keys
    requires trace != [] ==> Rested(s.resources[x], trace[0].now)
    requires !Served(s, trace, x)
    ensures Turns(s, trace, pool, x) <= |Ahead(s, pool, x)|
    decreases trace
  {
    if trace != [] {
      var now, op := trace[0].now, trace[0].op;
      var t := Step(s, now, op).0;
      StepMoves(s, now, op);
      StepSound(s, clock, now, op);
      LastLeased(s, now, op, x);
      AheadShrinks(s, clock, now, op, pool, x);
      SubsetSize(Ahead(t, pool, x), Ahead(s, pool, x));
      TurnsBounded(t, now, trace[1..], pool, x);
    }
  }

  /**
   * Bounded bypass. Over any run, a resource that has rested is granted at the latest once it has
   * been eligible for as many exclusive grants from a pool as there are members before it, plus
   * one; so at the latest at the n-th grant from a pool of n.
   */
  lemma {:induction false} ServedInTurn(s: Store, clock: Time, trace: seq<Timed>, pool: set<Id>, x: Id)
    requires Sound(s, clock) && Ordered(clock, trace) && x in pool && pool <= s.resources.Keys
    requires trace != [] ==> Rested(s.resources[x], trace[0].now)
    ensures Turns(s, trace, pool, x) > |Ahead(s, pool, x)| ==> Served(s, trace, x)
    ensures Turns(s, trace, pool, x) >= |pool| ==> Served(s, trace, x)
  {
    SubsetSize(Ahead(s, pool, x), pool - {x});
    if !Served(s, trace, x) {
      TurnsBounded(s, clock, trace, pool, x);
    }
  }

  // ----- Shared load -----

  function Load(s: Store, now: Time, r: Id): nat {
    |ActiveLeases(s, r, now)|
  }

  /** Members of the pool that hold one lease more than `level`. */
  function Heavy(s: Store, now: Time, pool: set<Id>, level: nat): set<Id> {
    set r | r in pool && Load(s, now, r) == level + 1
  }

  /** Every member holds `level` leases or one more, and `extra` of them hold one more. */
  predicate Even(s: Store, now: Time, pool: set<Id>, level: nat, extra: nat) {
    && (forall r | r in pool :: Load(s, now, r) == level || Load(s, now, r) == level + 1)
    && |Heavy(s, now, pool, level)| == extra
  }

  /** A grant to a Shared request whose candidates are exactly the pool. */
  predicate Deal(s: Store, now: Time, op: Op, pool: set<Id>)
    requires Linked(s)
  {
    Grant(s, now, op).Some? && op.request.sharing == Shared && Choices(s, now, op) == pool
  }

  /** No lease on the pool starts, ends or expires. */
  ghost predicate Untouched(s: Store, before: Time, t: Store, after: Time, pool: set<Id>) {
    forall r :: r in pool ==> Load(t, after, r) == Load(s, before, r)
  }

  /** Nothing expires on the pool before the step, which deals one lease or touches none. */
  ghost predicate Calm(s: Store, clock: Time, at: Timed, pool: set<Id>)
    requires Linked(s)
  {
    && Untouched(s, clock, s, at.now, pool)
    && (Deal(s, at.now, at.op, pool) || Untouched(s, at.now, Step(s, at.now, at.op).0, at.now, pool))
  }

  ghost predicate Undisturbed(s: Store, clock: Time, trace: seq<Timed>, pool: set<Id>)
    requires Linked(s)
    decreases trace
  {
    trace != [] ==> (
      StepMoves(s, trace[0].now, trace[0].op);
      && Calm(s, clock, trace[0], pool)
      && Undisturbed(Step(s, trace[0].now, trace[0].op).0, trace[0].now, trace[1..], pool))
  }

  function Deals(s: Store, trace: seq<Timed>, pool: set<Id>): nat
    requires Linked(s)
    decreases trace
  {
    if trace == [] then 0
    else
      StepMoves(s, trace[0].now, trace[0].op);
      (if Deal(s, trace[0].now, trace[0].op, pool) then 1 else 0)
      + Deals(Step(s, trace[0].now, trace[0].op).0, trace[1..], pool)
  }

  lemma GrantInserts(s: Store, now: Time, op: Op) returns (l: Id)
    requires Linked(s) && Grant(s, now, op).Some?
    ensures
      var t := Step(s, now, op).0;
      && l !in s.leases && l in t.leases && t.leases == s.leases[l := t.leases[l]]
      && t.leases[l].resource == Grant(s, now, op).value && ActiveAt(t.leases[l], now)
  {
    l := Step(s, now, op).1.lease;
  }

  lemma InsertionAddsOne(s: Store, t: Store, now: Time, l: Id, r: Id)
    requires l !in s.leases && l in t.leases && t.leases == s.leases[l := t.leases[l]] && ActiveAt(t.leases[l], now)
    ensures Load(t, now, r) == Load(s, now, r) + if t.leases[l].resource == r then 1 else 0
  {
    if t.leases[l].resource == r {
      assert ActiveLeases(t, r, now) == ActiveLeases(s, r, now) + {l};
    } else {
      assert ActiveLeases(t, r, now) == ActiveLeases(s, r, now);
    }
  }

  lemma GrantAddsOne(s: Store, now: Time, op: Op, r: Id)
    requires Linked(s) && Grant(s, now, op).Some?
    ensures Load(Step(s, now, op).0, now, r) == Load(s, now, r) + if Grant(s, now, op) == Some(r) then 1 else 0
  {
    var l := GrantInserts(s, now, op);
    InsertionAddsOne(s, Step(s, now, op).0, now, l, r);
  }

  lemma DealTakesLightest(s: Store, now: Time, op: Op, pool: set<Id>, r: Id)
    requires Linked(s) && Deal(s, now, op, pool) && r in pool
    ensures Grant(s, now, op).value in pool
    ensures Load(s, now, Grant(s, now, op).value) <= Load(s, now, r)
  {
    GrantIsFirst(s, now, op);
    var g := Grant(s, now, op).value;
    assert g in Choices(s, now, op);
    ChoiceRank(s, now, op, r);
    ChoiceRank(s, now, op, g);
  }

  lemma SomeoneLight(s: Store, now: Time, pool: set<Id>, level: nat, extra: nat) returns (r: Id)
    requires Even(s, now, pool, level, extra) && extra < |pool|
    ensures r in pool && Load(s, now, r) == level
  {
    r := Outside(Heavy(s, now, pool, level), pool);
  }

  lemma Outside(a: set<Id>, b: set<Id>) returns (r: Id)
    requires |a| < |b|
    ensures r in b && r !in a
  {
    if b <= a {
      SubsetSize(b, a);
    }
    r :| r in b && r !in a;
  }

  lemma Multiples(d: int, k: int)
    requires k >= 0
    ensures d >= 1 ==> d * k >= k
    ensures d <= -1 ==> d * k <= -k
  {}

  lemma Division(n: nat, k: nat, q: nat, r: nat)
    requires k > 0 && n == k * q + r && r < k
    ensures n / k == q && n % k == r
  {
    var d := n / k - q;
    assert d * k == r - n % k;
    Multiples(d, k);
  }

  /** The grant goes to a member with the fewest leases, and to no other member. */
  lemma DealGains(s: Store, now: Time, op: Op, pool: set<Id>, level: nat, extra: nat, t: Store) returns (g: Id)
    requires Linked(s) && Even(s, now, pool, level, extra) && extra < |pool|
    requires Deal(s, now, op, pool) && t == Step(s, now, op).0
    ensures g in pool && Load(s, now, g) == level
    ensures forall r :: r in pool ==> Load(t, now, r) == Load(s, now, r) + if g == r then 1 else 0
  {
    g := Grant(s, now, op).value;
    var light := SomeoneLight(s, now, pool, level, extra);
    DealTakesLightest(s, now, op, pool, light);
    forall r | r in pool ensures Load(t, now, r) == Load(s, now, r) + if g == r then 1 else 0 {
      GrantAddsOne(s, now, op, r);
    }
  }

  lemma EvenGains(s: Store, t: Store, now: Time, pool: set<Id>, level: nat, extra: nat, g: Id)
    requires Even(s, now, pool, level, extra) && extra < |pool|
    requires g in pool && Load(s, now, g) == level
    requires forall r :: r in pool ==> Load(t, now, r) == Load(s, now, r) + if g == r then 1 else 0
    ensures if extra + 1 < |pool| then Even(t, now, pool, level, extra + 1) else Even(t, now, pool, level + 1, 0)
  {
    var heavy := Heavy(s, now, pool, level);
    assert Heavy(t, now, pool, level) == heavy + {g};
    if extra + 1 == |pool| {
      AllOf(heavy + {g}, pool);
      assert Heavy(t, now, pool, level + 1) == {};
    }
  }

  /** `level` and `extra` are how `n` leases divide over a pool of `k`. */
  predicate Shares(n: int, k: nat, level: nat, extra: nat) {
    n == level * k + extra && extra < k
  }

  lemma OneMore(n: int, k: nat, level: nat, extra: nat)
    requires Shares(n, k, level, extra)
    ensures if extra + 1 < k then Shares(n + 1, k, level, extra + 1) else Shares(n + 1, k, level + 1, 0)
  {
    assert (level + 1) * k == level * k + k;
  }

  lemma DealStep(s: Store, now: Time, op: Op, pool: set<Id>, level: nat, extra: nat, t: Store)
    requires Linked(s) && Even(s, now, pool, level, extra) && extra < |pool|
    requires Deal(s, now, op, pool) && t == Step(s, now, op).0
    ensures if extra + 1 < |pool| then Even(t, now, pool, level, extra + 1) else Even(t, now, pool, level + 1, 0)
  {
    var g := DealGains(s, now, op, pool, level, extra, t);
    EvenGains(s, t, now, pool, level, extra, g);
  }

  lemma CalmStep(s: Store, clock: Time, at: Timed, pool: set<Id>, n: nat, level: nat, extra: nat, t: Store)
    returns (level': nat, extra': nat)
    requires Linked(s) && Even(s, clock, pool, level, extra) && Shares(n, |pool|, level, extra)
    requires Calm(s, clock, at, pool) && t == Step(s, at.now, at.op).0
    ensures Even(t, at.now, pool, level', extra')
    ensures Shares(if Deal(s, at.now, at.op, pool) then n + 1 else n, |pool|, level', extra')
  {
    StaysEven(s, clock, s, at.now, pool, level, extra);
    if Deal(s, at.now, at.op, pool) {
      DealStep(s, at.now, at.op, pool, level, extra, t);
      OneMore(n, |pool|, level, extra);
      level', extra' := if extra + 1 < |pool| then level else level + 1, if extra + 1 < |pool| then extra + 1 else 0;
    } else {
      StaysEven(s, at.now, t, at.now, pool, level, extra);
      level', extra' := level, extra;
    }
  }

  lemma AllOf(a: set<Id>, b: set<Id>)
    requires a <= b && |a| == |b|
    ensures a == b
  {
    if r :| r in b && r !in a {
      Shrinks(a, b, r);
    }
  }

  lemma StaysEven(s: Store, before: Time, t: Store, after: Time, pool: set<Id>, level: nat, extra: nat)
    requires Even(s, before, pool, level, extra) && Untouched(s, before, t, after, pool)
    ensures Even(t, after, pool, level, extra)
  {
    assert Heavy(t, after, pool, level) == Heavy(s, before, pool, level);
  }

  lemma {:induction false} EvenAlong(s: Store, clock: Time, trace: seq<Timed>, pool: set<Id>, n: nat,
                                     level: nat, extra: nat)
    returns (level': nat, extra': nat)
    requires Linked(s) && Undisturbed(s, clock, trace, pool)
    requires Even(s, clock, pool, level, extra) && Shares(n, |pool|, level, extra)
    ensures Even(Run(s, trace), ClockAfter(clock, trace), pool, level', extra')
    ensures Shares(n + Deals(s, trace, pool), |pool|, level', extra')
    decreases trace
  {
    level', extra' := level, extra;
    if trace != [] {
      var at := trace[0];
      var t := Step(s, at.now, at.op).0;
      StepMoves(s, at.now, at.op);
      level', extra' := CalmStep(s, clock, at, pool, n, level, extra, t);
      var m := if Deal(s, at.now, at.op, pool) then n + 1 else n;
      level', extra' := EvenAlong(t, at.now, trace[1..], pool, m, level', extra');
    }
  }

  /**
   * Shared load. Starting from a pool without active leases, after n grants that could choose
   * anywhere in the pool, with nothing ending in between, every member holds n / k leases or one
   * more, and exactly n mod k of them hold one more.
   */
  lemma {:induction false} SharedLoadIsEven(s: Store, clock: Time, trace: seq<Timed>, pool: set<Id>)
    requires Linked(s) && pool != {} && Undisturbed(s, clock, trace, pool)
    requires forall r :: r in pool ==> ActiveLeases(s, r, clock) == {}
    ensures
      var n := Deals(s, trace, pool);
      Even(Run(s, trace), ClockAfter(clock, trace), pool, n / |pool|, n % |pool|)
  {
    assert Heavy(s, clock, pool, 0) == {};
    var level, extra := EvenAlong(s, clock, trace, pool, 0, 0, 0);
    Division(Deals(s, trace, pool), |pool|, level, extra);
  }
}
