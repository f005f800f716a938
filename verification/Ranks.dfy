/** The lexicographic order shared by resource selection and expiration batches. */
module Ranks {
  import opened Types

  /** A row under its sort key: a count, a nullable timestamp with nulls first, and the row id. */
  datatype Rank = Rank(count: nat, at: Option<Time>, id: Id)

  predicate Below(a: Rank, b: Rank) {
    a.count < b.count
    || (a.count == b.count && NullsFirst(a.at, b.at))
    || (a.count == b.count && a.at == b.at && a.id < b.id)
  }

  predicate NullsFirst(a: Option<Time>, b: Option<Time>) {
    b.Some? && (a.None? || a.value < b.value)
  }

  predicate IsFirst(ranks: set<Rank>, x: Rank) {
    x in ranks && forall y :: y in ranks && y != x ==> Below(x, y)
  }

  lemma {:induction false} FirstExists(ranks: set<Rank>)
    requires ranks != {}
    ensures exists x :: IsFirst(ranks, x)
    decreases |ranks|
  {
    var k :| k in ranks;
    var rest := ranks - {k};
    assert forall y :: y in ranks ==> y == k || y in rest;
    if rest == {} {
      assert IsFirst(ranks, k);
    } else {
      FirstExists(rest);
      var x :| IsFirst(rest, x);
      assert IsFirst(ranks, if Below(k, x) then k else x);
    }
  }

  /** The single row that an ascending ORDER BY with LIMIT 1 returns. */
  function First(ranks: set<Rank>): (x: Rank)
    requires ranks != {}
    ensures IsFirst(ranks, x)
  {
    FirstExists(ranks);
    var x :| x in ranks && forall y | y in ranks :: y == x || Below(x, y);
    x
  }

  /** The rows that the same ORDER BY returns under a LIMIT. */
  function Leading(ranks: set<Rank>, limit: nat): (rows: seq<Rank>)
    decreases limit
  {
    if limit == 0 || ranks == {} then []
    else [First(ranks)] + Leading(ranks - {First(ranks)}, limit - 1)
  }

  function Elements(rows: seq<Rank>): set<Rank> {
    set x | x in rows
  }

  lemma {:induction false} LeadingSize(ranks: set<Rank>, limit: nat)
    ensures |Leading(ranks, limit)| == if limit <= |ranks| then limit else |ranks|
    ensures forall x :: x in Leading(ranks, limit) ==> x in ranks
    decreases limit
  {
    if limit != 0 && ranks != {} {
      LeadingSize(ranks - {First(ranks)}, limit - 1);
    }
  }

  /** `rows` are members in strictly increasing order, and every other member comes after them. */
  ghost predicate Leads(ranks: set<Rank>, rows: seq<Rank>) {
    && (forall i :: 0 <= i < |rows| ==> rows[i] in ranks)
    && (forall i, j :: 0 <= i < j < |rows| ==> Below(rows[i], rows[j]))
    && (forall k, i :: k in ranks && k !in rows && 0 <= i < |rows| ==> Below(rows[i], k))
  }

  lemma {:induction false} LeadingLeads(ranks: set<Rank>, limit: nat)
    ensures Leads(ranks, Leading(ranks, limit))
    decreases limit
  {
    if limit != 0 && ranks != {} {
      LeadingLeads(ranks - {First(ranks)}, limit - 1);
    }
  }

  /** Two limited reads, the second without the first one's rows, are one longer read. */
  lemma {:induction false} LeadingSplits(ranks: set<Rank>, m: nat, n: nat)
    ensures
      var rows := Leading(ranks, m);
      Leading(ranks, m + n) == rows + Leading(ranks - Elements(rows), n)
    decreases m
  {
    if m == 0 || ranks == {} {
      assert ranks - Elements([]) == ranks;
    } else {
      var x := First(ranks);
      var tail := Leading(ranks - {x}, m - 1);
      LeadingSplits(ranks - {x}, m - 1, n);
      assert ranks - {x} - Elements(tail) == ranks - Elements([x] + tail);
    }
  }

  function Ids(rows: seq<Rank>): (ids: seq<Id>)
    ensures |ids| == |rows|
  {
    seq(|rows|, i requires 0 <= i < |rows| => rows[i].id)
  }

  lemma IdsSplit(ranks: set<Rank>, m: nat, n: nat)
    ensures
      var rows := Leading(ranks, m);
      Ids(Leading(ranks, m + n)) == Ids(rows) + Ids(Leading(ranks - Elements(rows), n))
  {
    LeadingSplits(ranks, m, n);
    var a := Leading(ranks, m);
    var b := Leading(ranks - Elements(a), n);
    assert Ids(a + b) == Ids(a) + Ids(b);
  }

  lemma LimitBeyond(ranks: set<Rank>, limit: nat)
    requires |ranks| <= limit
    ensures Leading(ranks, limit) == Leading(ranks, |ranks|)
  {
    LeadingSplits(ranks, |ranks|, limit - |ranks|);
    LeadingTakesAll(ranks, |ranks|);
  }

  lemma {:induction false} LeadingTakesAll(ranks: set<Rank>, limit: nat)
    requires |ranks| <= limit
    ensures Elements(Leading(ranks, limit)) == ranks
    decreases limit
  {
    if ranks != {} {
      var x := First(ranks);
      LeadingTakesAll(ranks - {x}, limit - 1);
      ElementsPush(x, Leading(ranks - {x}, limit - 1));
    }
  }

  lemma ElementsPush(x: Rank, rows: seq<Rank>)
    ensures Elements([x] + rows) == {x} + Elements(rows)
  {}

  lemma {:induction false} ElementsSize(rows: seq<Rank>)
    requires forall i, j :: 0 <= i < j < |rows| ==> Below(rows[i], rows[j])
    ensures |Elements(rows)| == |rows|
  {
    if rows != [] {
      var rest, x := rows[..|rows| - 1], rows[|rows| - 1];
      ElementsSize(rest);
      assert x !in rest;
      assert Elements(rows) == Elements(rest) + {x};
    }
  }
}
