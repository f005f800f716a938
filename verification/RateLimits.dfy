/** The fixed-window limiter: one counter row per scope and subject, and its bounded cleanup. */
module RateLimits {
  import opened Types

  /** The scope, and the digest of the login name or principal id. */
  type Subject = (string, string)

  datatype Window = Window(startedAt: Time, expiresAt: Time, attempts: nat)

  /** Settings keep both at least one. */
  datatype Limits = Limits(allowed: int, seconds: int)

  datatype Verdict = Accepted | Rejected(retryAfter: int)

  type Windows = map<Subject, Window>

  const CLEANUP_LIMIT: nat := 100

  predicate ValidLimits(l: Limits) {
    l.allowed >= 1 && l.seconds >= 1
  }

  function Length(l: Limits): Time {
    l.seconds * SECOND
  }

  // ----- One statement -----

  predicate Lapsed(w: Window, now: Time) {
    w.expiresAt <= now
  }

  /** The upsert: a first attempt and an attempt on a lapsed window both open a new one. */
  function Hit(l: Limits, w: Option<Window>, now: Time): Window {
    if w.None? || Lapsed(w.value, now) then Window(now, now + Length(l), 1)
    else w.value.(attempts := w.value.attempts + 1)
  }

  function CeilSeconds(t: Time): int {
    (t + SECOND - 1) / SECOND
  }

  function Judge(l: Limits, w: Window, now: Time): Verdict {
    if w.attempts > l.allowed then
      var wait := CeilSeconds(w.expiresAt - now);
      Rejected(if wait > 1 then wait else 1)
    else Accepted
  }

  function Row(ws: Windows, k: Subject): Option<Window> {
    if k in ws then Some(ws[k]) else None
  }

  function LapsedRows(ws: Windows, now: Time): set<Subject> {
    set k | k in ws && Lapsed(ws[k], now)
  }

  /** What one cleanup may delete: the oldest lapsed rows, up to the limit; ties are open. */
  predicate Deletable(ws: Windows, now: Time, gone: set<Subject>) {
    && gone <= LapsedRows(ws, now)
    && |gone| <= CLEANUP_LIMIT
    && (|gone| < CLEANUP_LIMIT ==> gone == LapsedRows(ws, now))
    && OldestFirst(ws, now, gone)
  }

  predicate OldestFirst(ws: Windows, now: Time, gone: set<Subject>)
    requires gone <= LapsedRows(ws, now)
  {
    forall j, k | j in gone && k in LapsedRows(ws, now) - gone :: ws[j].expiresAt <= ws[k].expiresAt
  }

  /** One call: its frozen now(), its subject, and the rows its cleanup names. */
  datatype Call = Call(now: Time, subject: Subject, gone: set<Subject>)

  /** Cleanup deletes a named row only if it has lapsed. */
  function Purged(ws: Windows, now: Time, gone: set<Subject>): Windows {
    map k | k in ws && !(k in gone && Lapsed(ws[k], now)) :: ws[k]
  }

  function Enforce(l: Limits, ws: Windows, c: Call): (Windows, Verdict) {
    var kept := Purged(ws, c.now, c.gone);
    var w := Hit(l, Row(kept, c.subject), c.now);
    (kept[c.subject := w], Judge(l, w, c.now))
  }

  lemma PurgedRows(ws: Windows, now: Time, gone: set<Subject>)
    ensures LapsedRows(Purged(ws, now, gone), now) == LapsedRows(ws, now) - gone
  {}

  lemma PurgeNext(ws: Windows, now: Time, gone: set<Subject>, k: Subject)
    requires gone <= LapsedRows(ws, now) && OldestFirst(ws, now, gone)
    requires k in LapsedRows(ws, now) - gone
    requires forall j :: j in LapsedRows(ws, now) - gone ==> ws[k].expiresAt <= ws[j].expiresAt
    ensures Purged(ws, now, gone + {k}) == Purged(ws, now, gone) - {k}
    ensures OldestFirst(ws, now, gone + {k})
  {}

  /**
   * One call in the fields of its row: a running window counts on and keeps its ends, any other subject
   * starts a window of the configured length. Only lapsed rows disappear, and the answer goes by the count.
   */
  lemma EnforceWrites(l: Limits, ws: Windows, c: Call)
    ensures
      var (ws', v) := Enforce(l, ws, c);
      var k, now := c.subject, c.now;
      && k in ws'
      && var w := ws'[k];
      && (k in ws && ws[k].expiresAt > now ==> w == Window(ws[k].startedAt, ws[k].expiresAt, ws[k].attempts + 1))
      && (k !in ws || ws[k].expiresAt <= now ==> w == Window(now, now + l.seconds * 1_000_000, 1))
      && (forall j :: j in ws && j != k ==> (j !in ws' <==> j in c.gone && ws[j].expiresAt <= now))
      && (forall j :: j in ws' && j != k ==> j in ws && ws'[j] == ws[j])
      && (v == Accepted <==> w.attempts <= l.allowed)
      && (v.Rejected? ==>
            && v.retryAfter >= 1 && w.expiresAt - now <= v.retryAfter * 1_000_000
            && (v.retryAfter > 1 ==> (v.retryAfter - 1) * 1_000_000 < w.expiresAt - now))
  {}

  // ----- The table in place -----

  class Limiter {
    var windows: Windows

    constructor ()
      ensures windows == map[]
    {
      windows := map[];
    }

    /** Delete lapsed rows, oldest first, up to the limit. */
    method Cleanup(now: Time) returns (gone: set<Subject>)
      modifies this
      ensures Deletable(old(windows), now, gone)
      ensures windows == Purged(old(windows), now, gone)
      ensures |gone| <= 100 && forall k :: k in gone ==> k in old(windows) && old(windows)[k].expiresAt <= now
      ensures |gone| < 100 ==> forall k :: k in windows ==> windows[k].expiresAt > now
    {
      ghost var before := windows;
      gone := {};
      while |gone| < CLEANUP_LIMIT && LapsedRows(windows, now) != {}
        invariant windows == Purged(before, now, gone)
        invariant gone <= LapsedRows(before, now) && |gone| <= CLEANUP_LIMIT
        invariant OldestFirst(before, now, gone)
        decreases CLEANUP_LIMIT - |gone|
      {
        PurgedRows(before, now, gone);
        var oldest := Oldest(windows, LapsedRows(windows, now));
        PurgeNext(before, now, gone, oldest);
        windows := windows - {oldest};
        gone := gone + {oldest};
      }
      PurgedRows(before, now, gone);
    }

    /** Count the attempt, whatever the answer will be, and answer from the stored row. */
    method EnforceRateLimit(l: Limits, now: Time, subject: Subject) returns (verdict: Verdict, gone: set<Subject>)
      modifies this
      ensures (windows, verdict) == Enforce(l, old(windows), Call(now, subject, gone))
      ensures Deletable(old(windows), now, gone)
    {
      gone := Cleanup(now);
      if subject !in windows || windows[subject].expiresAt <= now {
        windows := windows[subject := Window(now, now + l.seconds * SECOND, 1)];
      } else {
        windows := windows[subject := windows[subject].(attempts := windows[subject].attempts + 1)];
      }
      var row := windows[subject];
      if row.attempts > l.allowed {
        var wait := CeilSeconds(row.expiresAt - now);
        verdict := Rejected(if wait > 1 then wait else 1);
      } else {
        verdict := Accepted;
      }
    }
  }

  method Oldest(ws: Windows, rows: set<Subject>) returns (k: Subject)
    requires rows != {} && rows <= ws.Keys
    ensures k in rows && forall j :: j in rows ==> ws[k].expiresAt <= ws[j].expiresAt
  {
    k :| k in rows;
    var rest := rows - {k};
    while rest != {}
      invariant rest <= rows && k in rows
      invariant forall j :: j in rows - rest ==> ws[k].expiresAt <= ws[j].expiresAt
      decreases |rest|
    {
      var j :| j in rest;
      if ws[j].expiresAt < ws[k].expiresAt {
        k := j;
      }
      rest := rest - {j};
    }
  }

  // ----- Whole traces -----

  /** Every scope has its own settings, fixed while the service runs. */
  type Policy = string -> Limits

  predicate Ordered(from: Time, calls: seq<Call>)
    decreases calls
  {
    calls != [] ==> from <= calls[0].now && Ordered(calls[0].now, calls[1..])
  }

  function Verdicts(p: Policy, ws: Windows, calls: seq<Call>): (vs: seq<Verdict>)
    ensures |vs| == |calls|
    decreases calls
  {
    if calls == [] then []
    else
      var (ws', v) := Enforce(p(calls[0].subject.0), ws, calls[0]);
      [v] + Verdicts(p, ws', calls[1..])
  }

  /** The attempts and the answers of one subject. */
  function TimesOf(calls: seq<Call>, k: Subject): seq<Time>
    decreases calls
  {
    if calls == [] then []
    else (if calls[0].subject == k then [calls[0].now] else []) + TimesOf(calls[1..], k)
  }

  function AnswersOf(calls: seq<Call>, vs: seq<Verdict>, k: Subject): seq<Verdict>
    requires |vs| == |calls|
    decreases calls
  {
    if calls == [] then []
    else (if calls[0].subject == k then [vs[0]] else []) + AnswersOf(calls[1..], vs[1..], k)
  }

  // ----- One subject alone, and no cleanup -----

  function Solo(l: Limits, w: Option<Window>, times: seq<Time>): (vs: seq<Verdict>)
    ensures |vs| == |times|
    decreases times
  {
    if times == [] then []
    else
      var w' := Hit(l, w, times[0]);
      [Judge(l, w', times[0])] + Solo(l, Some(w'), times[1..])
  }

  function Final(l: Limits, w: Option<Window>, times: seq<Time>): Option<Window>
    decreases times
  {
    if times == [] then w else Final(l, Some(Hit(l, w, times[0])), times[1..])
  }

  predicate Rising(from: Time, times: seq<Time>)
    decreases times
  {
    times != [] ==> from <= times[0] && Rising(times[0], times[1..])
  }

  /** Two row states no statement from `now` on can tell apart. */
  predicate Same(a: Option<Window>, b: Option<Window>, now: Time) {
    a == b || ((a.None? || Lapsed(a.value, now)) && (b.None? || Lapsed(b.value, now)))
  }

  lemma SameSolo(l: Limits, a: Option<Window>, b: Option<Window>, now: Time, times: seq<Time>)
    requires Same(a, b, now) && Rising(now, times)
    ensures Solo(l, a, times) == Solo(l, b, times)
  {
    if times != [] {
      assert Hit(l, a, times[0]) == Hit(l, b, times[0]);
    }
  }

  lemma {:induction false} RisingLater(from: Time, calls: seq<Call>, k: Subject)
    requires Ordered(from, calls)
    ensures Rising(from, TimesOf(calls, k))
    decreases calls
  {
    if calls != [] {
      RisingLater(calls[0].now, calls[1..], k);
      var rest := TimesOf(calls[1..], k);
      if calls[0].subject == k {
        assert TimesOf(calls, k)[1..] == rest;
      } else {
        assert TimesOf(calls, k) == rest;
      }
    }
  }

  /**
   * Every subject is answered as if it were alone and nothing were ever deleted: the others'
   * attempts and every cleanup are invisible to it.
   */
  lemma {:induction false} OthersAreInvisible(p: Policy, ws: Windows, from: Time, calls: seq<Call>, k: Subject)
    requires Ordered(from, calls)
    ensures AnswersOf(calls, Verdicts(p, ws, calls), k) == Solo(p(k.0), Row(ws, k), TimesOf(calls, k))
    decreases calls
  {
    if calls != [] {
      var c, l := calls[0], p(k.0);
      var (ws', v) := Enforce(p(c.subject.0), ws, c);
      assert Verdicts(p, ws, calls)[1..] == Verdicts(p, ws', calls[1..]);
      OthersAreInvisible(p, ws', c.now, calls[1..], k);
      RisingLater(c.now, calls[1..], k);
      var rest := TimesOf(calls[1..], k);
      if c.subject == k {
        assert Row(ws', k) == Some(Hit(l, Row(ws, k), c.now));
        assert TimesOf(calls, k)[1..] == rest;
      } else {
        assert TimesOf(calls, k) == rest;
        SameSolo(l, Row(ws', k), Row(ws, k), c.now, rest);
      }
    }
  }

  /** Cleanup is transparent: whatever the calls delete, the answers are the same. */
  lemma {:induction false} CleanupIsTransparent(p: Policy, ws: Windows, from: Time, a: seq<Call>, b: seq<Call>,
                                                k: Subject)
    requires Ordered(from, a) && Ordered(from, b) && |a| == |b|
    requires forall i :: 0 <= i < |a| ==> a[i].now == b[i].now && a[i].subject == b[i].subject
    ensures AnswersOf(a, Verdicts(p, ws, a), k) == AnswersOf(b, Verdicts(p, ws, b), k)
  {
    OthersAreInvisible(p, ws, from, a, k);
    OthersAreInvisible(p, ws, from, b, k);
    SameTimes(a, b, k);
  }

  lemma {:induction false} SameTimes(a: seq<Call>, b: seq<Call>, k: Subject)
    requires |a| == |b|
    requires forall i :: 0 <= i < |a| ==> a[i].now == b[i].now && a[i].subject == b[i].subject
    ensures TimesOf(a, k) == TimesOf(b, k)
    decreases a
  {
    if a != [] {
      SameTimes(a[1..], b[1..], k);
    }
  }

  // ----- The rate bound -----

  /** Accepted attempts at times from `a` up to but excluding `b`. */
  function AcceptedIn(times: seq<Time>, vs: seq<Verdict>, a: Time, b: Time): nat
    requires |times| == |vs|
    decreases times
  {
    if times == [] then 0
    else (if a <= times[0] < b && vs[0].Accepted? then 1 else 0) + AcceptedIn(times[1..], vs[1..], a, b)
  }

  function Left(l: Limits, w: Window): nat {
    if w.attempts < l.allowed then l.allowed - w.attempts else 0
  }

  /** How many attempts may still be accepted in the interval of one window length from `a`. */
  function Budget(l: Limits, w: Option<Window>, a: Time): int {
    if w.None? || w.value.expiresAt <= a then 2 * l.allowed - 1
    else if w.value.expiresAt < a + Length(l) then Left(l, w.value) + l.allowed
    else Left(l, w.value)
  }

  lemma {:induction false} NoneAfter(times: seq<Time>, vs: seq<Verdict>, from: Time, a: Time, b: Time)
    requires |times| == |vs| && Rising(from, times) && b <= from
    ensures AcceptedIn(times, vs, a, b) == 0
    decreases times
  {
    if times != [] {
      NoneAfter(times[1..], vs[1..], times[0], a, b);
    }
  }

  lemma {:induction false} WithinBudget(l: Limits, w: Option<Window>, from: Time, times: seq<Time>, a: Time)
    requires ValidLimits(l) && Rising(from, times) && (w.Some? ==> w.value.attempts >= 1)
    ensures AcceptedIn(times, Solo(l, w, times), a, a + Length(l)) <= Budget(l, w, a)
    decreases times
  {
    if times != [] {
      var w' := Hit(l, w, times[0]);
      assert Solo(l, w, times)[1..] == Solo(l, Some(w'), times[1..]);
      if a + Length(l) <= times[0] {
        NoneAfter(times, Solo(l, w, times), times[0], a, a + Length(l));
      } else {
        WithinBudget(l, Some(w'), times[0], times[1..], a);
      }
    }
  }

  /**
   * Rate bound. Whatever else happens, one subject has at most 2 * allowed - 1 attempts accepted
   * in any half-open interval of one window length.
   */
  lemma RateBound(p: Policy, ws: Windows, from: Time, calls: seq<Call>, k: Subject, a: Time)
    requires Ordered(from, calls) && ValidLimits(p(k.0)) && (k in ws ==> ws[k].attempts >= 1)
    ensures
      var vs := AnswersOf(calls, Verdicts(p, ws, calls), k);
      && |vs| == |TimesOf(calls, k)|
      && AcceptedIn(TimesOf(calls, k), vs, a, a + Length(p(k.0))) <= 2 * p(k.0).allowed - 1
  {
    OthersAreInvisible(p, ws, from, calls, k);
    RisingLater(from, calls, k);
    WithinBudget(p(k.0), Row(ws, k), from, TimesOf(calls, k), a);
  }

  function Repeat(t: Time, n: nat): (ts: seq<Time>)
    ensures |ts| == n && forall i :: 0 <= i < n ==> ts[i] == t
  {
    seq(n, _ => t)
  }

  /** The worst case: an early first attempt, the rest of its window at its very end, then a new window. */
  function Worst(l: Limits): seq<Time>
    requires ValidLimits(l)
  {
    [0] + Repeat(Length(l) - 1, l.allowed - 1) + Repeat(Length(l), l.allowed)
  }

  /** A burst at one instant inside a window is accepted as far as the allowance reaches. */
  lemma {:induction false} Burst(l: Limits, w: Window, t: Time, n: nat, rest: seq<Time>, a: Time, b: Time)
    requires w.attempts + n <= l.allowed && t < w.expiresAt && a <= t < b
    ensures
      var times := Repeat(t, n) + rest;
      AcceptedIn(times, Solo(l, Some(w), times), a, b)
        == n + AcceptedIn(rest, Solo(l, Some(w.(attempts := w.attempts + n)), rest), a, b)
    decreases n
  {
    var times := Repeat(t, n) + rest;
    if n == 0 {
      assert times == rest;
    } else {
      var w' := Hit(l, Some(w), t);
      assert times[1..] == Repeat(t, n - 1) + rest;
      assert Solo(l, Some(w), times)[1..] == Solo(l, Some(w'), times[1..]);
      Burst(l, w', t, n - 1, rest, a, b);
    }
  }

  /** On a lapsed or missing row, a burst of exactly `allowed` attempts is accepted in full. */
  lemma OpeningBurst(l: Limits, w: Option<Window>, t: Time, a: Time, b: Time)
    requires ValidLimits(l) && (w.Some? ==> Lapsed(w.value, t)) && a <= t < b
    ensures AcceptedIn(Repeat(t, l.allowed), Solo(l, w, Repeat(t, l.allowed)), a, b) == l.allowed
  {
    var times, begun := Repeat(t, l.allowed), Window(t, t + Length(l), 1);
    assert times[1..] == Repeat(t, l.allowed - 1) + [];
    assert Solo(l, w, times)[1..] == Solo(l, Some(begun), times[1..]);
    Burst(l, begun, t, l.allowed - 1, [], a, b);
  }

  /** The bound is attained, for every setting: no smaller one holds. */
  lemma RateBoundIsTight(l: Limits)
    requires ValidLimits(l)
    ensures
      var a := Length(l) - 1;
      AcceptedIn(Worst(l), Solo(l, None, Worst(l)), a, a + Length(l)) == 2 * l.allowed - 1
  {
    var a, b := Length(l) - 1, Length(l) - 1 + Length(l);
    var last, begun := Repeat(Length(l), l.allowed), Window(0, Length(l), 1);
    var tail := Repeat(Length(l) - 1, l.allowed - 1) + last;
    assert Worst(l)[1..] == tail;
    assert Solo(l, None, Worst(l))[1..] == Solo(l, Some(begun), tail);
    Burst(l, begun, Length(l) - 1, l.allowed - 1, last, a, b);
    OpeningBurst(l, Some(begun.(attempts := l.allowed)), Length(l), a, b);
  }

  // ----- The stored counter -----

  function AttemptsIn(times: seq<Time>, a: Time, b: Time): nat
    decreases times
  {
    if times == [] then 0 else (if a <= times[0] < b then 1 else 0) + AttemptsIn(times[1..], a, b)
  }

  function Capped(l: Limits, attempts: nat): int {
    if attempts < l.allowed then attempts else l.allowed
  }

  /** From an open window, the last stored row counts its own attempts, on top of any it began with. */
  lemma {:induction false} StoredRow(l: Limits, w: Window, from: Time, times: seq<Time>)
    requires ValidLimits(l) && Rising(from, times) && w.startedAt <= from && w.startedAt < w.expiresAt
    ensures
      var vs, last := Solo(l, Some(w), times), Final(l, Some(w), times);
      && last.Some? && w.startedAt <= last.value.startedAt < last.value.expiresAt
      && var (a, b) := (last.value.startedAt, last.value.expiresAt);
      && (a == w.startedAt ==> b == w.expiresAt)
      && (a != w.startedAt ==> b == a + Length(l) && w.expiresAt <= a)
      && var before := if a == w.startedAt then w.attempts else 0;
      && last.value.attempts == before + AttemptsIn(times, a, b)
      && AcceptedIn(times, vs, a, b) == Capped(l, last.value.attempts) - Capped(l, before)
    decreases times
  {
    if times != [] {
      var w' := Hit(l, Some(w), times[0]);
      assert Solo(l, Some(w), times)[1..] == Solo(l, Some(w'), times[1..]);
      StoredRow(l, w', times[0], times[1..]);
    }
  }

  /**
   * The stored counter is the number of attempts since its window opened, rejected ones included,
   * and of those exactly the first `allowed` were accepted.
   */
  lemma CounterCountsAttempts(l: Limits, from: Time, times: seq<Time>)
    requires ValidLimits(l) && Rising(from, times) && times != []
    ensures
      var last := Final(l, None, times);
      && last.Some? && last.value.expiresAt == last.value.startedAt + Length(l)
      && var (a, b) := (last.value.startedAt, last.value.expiresAt);
      && last.value.attempts == AttemptsIn(times, a, b)
      && AcceptedIn(times, Solo(l, None, times), a, b) == Capped(l, last.value.attempts)
  {
    var w := Hit(l, None, times[0]);
    assert Solo(l, None, times)[1..] == Solo(l, Some(w), times[1..]);
    StoredRow(l, w, times[0], times[1..]);
  }

  /** Attempts inside a window, accepted or rejected, move neither of its ends. */
  lemma {:induction false} AttemptsExtendNothing(l: Limits, w: Window, times: seq<Time>)
    requires forall i :: 0 <= i < |times| ==> times[i] < w.expiresAt
    ensures Final(l, Some(w), times) == Some(w.(attempts := w.attempts + |times|))
    decreases times
  {
    if times != [] {
      AttemptsExtendNothing(l, w.(attempts := w.attempts + 1), times[1..]);
    }
  }

  // ----- Retry-After -----

  lemma CeilingOfSeconds(t: Time)
    requires t > 0
    ensures var n := CeilSeconds(t); n >= 1 && (n - 1) * SECOND < t <= n * SECOND
  {}

  /**
   * After a rejection the next attempt is accepted exactly when the window has lapsed; the
   * advertised seconds always reach that instant, and one second less never does.
   */
  lemma RetryAfterIsExact(l: Limits, w: Option<Window>, now: Time, later: Time)
    requires ValidLimits(l) && now <= later
    ensures
      var row := Hit(l, w, now);
      var v := Judge(l, row, now);
      v.Rejected? ==>
        && (Judge(l, Hit(l, Some(row), later), later).Accepted? <==> row.expiresAt <= later)
        && v.retryAfter >= 1
        && now + (v.retryAfter - 1) * SECOND < row.expiresAt <= now + v.retryAfter * SECOND
  {
    var row := Hit(l, w, now);
    if Judge(l, row, now).Rejected? {
      CeilingOfSeconds(row.expiresAt - now);
    }
  }

  lemma {:induction false} SoloRetry(l: Limits, w: Option<Window>, from: Time, times: seq<Time>, i: nat)
    requires ValidLimits(l) && Rising(from, times) && i + 1 < |times|
    requires Solo(l, w, times)[i].Rejected?
    requires times[i + 1] >= times[i] + Solo(l, w, times)[i].retryAfter * SECOND
    ensures Solo(l, w, times)[i + 1].Accepted?
    decreases times
  {
    var w' := Hit(l, w, times[0]);
    assert Solo(l, w, times)[1..] == Solo(l, Some(w'), times[1..]);
    if i == 0 {
      RetryAfterIsExact(l, w, times[0], times[1]);
      assert Solo(l, w, times)[1] == Judge(l, Hit(l, Some(w'), times[1]), times[1]);
    } else {
      SoloRetry(l, Some(w'), times[0], times[1..], i - 1);
    }
  }

  /** A subject that stays away for the advertised time is accepted next, whatever others do. */
  lemma WaitingIsRewarded(p: Policy, ws: Windows, from: Time, calls: seq<Call>, k: Subject, i: nat)
    requires Ordered(from, calls) && ValidLimits(p(k.0)) && i + 1 < |TimesOf(calls, k)|
    ensures
      var times, vs := TimesOf(calls, k), AnswersOf(calls, Verdicts(p, ws, calls), k);
      && |vs| == |times|
      && (vs[i].Rejected? && times[i + 1] >= times[i] + vs[i].retryAfter * SECOND ==> vs[i + 1].Accepted?)
  {
    OthersAreInvisible(p, ws, from, calls, k);
    RisingLater(from, calls, k);
    var l, times := p(k.0), TimesOf(calls, k);
    var vs := Solo(l, Row(ws, k), times);
    if vs[i].Rejected? && times[i + 1] >= times[i] + vs[i].retryAfter * SECOND {
      SoloRetry(l, Row(ws, k), from, times, i);
    }
  }
}
