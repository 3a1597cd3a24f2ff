/**
  The canonical form of ranked statistics.  The upstream ranking sorts a table by count only
  and keeps a hundred rows, so rows of equal count come in any order and the names tied at
  the cutoff are arbitrary.  The canonical form erases exactly that freedom.
 */
module RankedStatistics {
  import opened Wrappers
  import opened Sorting

  datatype Row = Row(name: string, value: real)

  // An element of a ranked list: an object of some number of members, or something else.
  datatype Item = Members(rows: seq<Row>) | NoObject

  datatype Value = List(items: seq<Item>) | Other(text: string)

  datatype Field = Kept(value: Value) | Full(rows: seq<Row>) | Cut(above: seq<Row>, cutoff: real, slots: nat)

  datatype Error = Missing | Unexpected | ExceedsLimit

  const LIMIT := 100

  const KEYS: seq<string> :=
    ["top_queried_domains", "top_clients", "top_blocked_domains", "top_upstreams_responses", "top_upstreams_avg_time"]

  // The order of the rows' JSON texts.
  type Order = (Row, Row) -> bool

  predicate Single(item: Item) {
    item.Members? && |item.rows| == 1
  }

  predicate AllSingle(value: Value) {
    value.List? && forall i :: 0 <= i < |value.items| ==> Single(value.items[i])
  }

  function Rows(value: Value): (r: seq<Row>)
    requires AllSingle(value)
    ensures |r| == |value.items| && forall i :: 0 <= i < |r| ==> value.items[i] == Members([r[i]])
  {
    seq(|value.items|, i requires 0 <= i < |value.items| => assert Single(value.items[i]); value.items[i].rows[0])
  }

  function Least(rows: seq<Row>): (c: real)
    requires rows != []
    ensures (exists i :: 0 <= i < |rows| && rows[i].value == c) && forall i :: 0 <= i < |rows| ==> c <= rows[i].value
  {
    if |rows| == 1 then rows[0].value
    else
      var c := Least(rows[1..]);
      assert forall i :: 0 < i < |rows| ==> rows[i] == rows[1..][i - 1];
      if rows[0].value < c then rows[0].value else c
  }

  function Above(rows: seq<Row>, cutoff: real): (r: seq<Row>)
    ensures |r| <= |rows|
  {
    if rows == [] then []
    else (if rows[0].value > cutoff then [rows[0]] else []) + Above(rows[1..], cutoff)
  }

  function Canonical(rows: seq<Row>, le: Order): Field
    requires TotalOrder(le) && |rows| <= LIMIT
  {
    if |rows| == LIMIT then
      var above := Above(Sort(rows, le), Least(rows));
      assert |rows| == |multiset(rows)| == |Sort(rows, le)|;
      Cut(above, Least(rows), |rows| - |above|)
    else Full(Sort(rows, le))
  }

  // ---------------------------------------------------------------------
  // The program.
  // ---------------------------------------------------------------------

  function KeyError(value: map<string, Value>, key: string): Option<Error> {
    if key !in value then Some(Missing)
    else if !AllSingle(value[key]) then Some(Unexpected)
    else if |Rows(value[key])| > LIMIT then Some(ExceedsLimit)
    else None
  }

  predicate Rankable(value: map<string, Value>) {
    forall key :: key in KEYS ==> KeyError(value, key).None?
  }

  // The five ranked lists in canonical form, everything else as it was.
  function Canonized(value: map<string, Value>, le: Order): map<string, Field>
    requires TotalOrder(le) && Rankable(value)
  {
    map key | key in value :: if key in KEYS then Canonical(Rows(value[key]), le) else Kept(value[key])
  }

  // The field of a key once the first n ranked keys are rewritten.
  function Done(value: map<string, Value>, le: Order, n: nat, key: string): Field
    requires TotalOrder(le) && n <= |KEYS| && key in value
  {
    if key in KEYS[..n] && KeyError(value, key).None? then Canonical(Rows(value[key]), le) else Kept(value[key])
  }

  predicate DoneUpTo(value: map<string, Value>, fields: map<string, Field>, le: Order, n: nat)
    requires TotalOrder(le) && n <= |KEYS|
  {
    && fields.Keys == value.Keys
    && (forall m :: 0 <= m < n ==> KeyError(value, KEYS[m]).None?)
    && forall key :: key in value ==> fields[key] == Done(value, le, n, key)
  }

  lemma OneMore(value: map<string, Value>, fields: map<string, Field>, le: Order, n: nat)
    requires TotalOrder(le) && n < |KEYS| && DoneUpTo(value, fields, le, n) && KeyError(value, KEYS[n]).None?
    ensures DoneUpTo(value, fields[KEYS[n] := Canonical(Rows(value[KEYS[n]]), le)], le, n + 1)
  {
    hide Canonical, Rows, AllSingle;
    assert KEYS[..n + 1] == KEYS[..n] + [KEYS[n]];
  }

  // ---------------------------------------------------------------------
  // What is accepted and what is returned, in so many words.
  // ---------------------------------------------------------------------

  predicate IsRanked(key: string) {
    || key == "top_queried_domains" || key == "top_clients" || key == "top_blocked_domains"
    || key == "top_upstreams_responses" || key == "top_upstreams_avg_time"
  }

  // The list shows these rows, each as an object of one member.
  ghost predicate ListsRows(value: Value, rows: seq<Row>) {
    && value.List? && |rows| == |value.items|
    && forall i :: 0 <= i < |rows| ==> value.items[i] == Members([rows[i]])
  }

  ghost predicate ListsSomeRows(value: Value) {
    exists rows :: ListsRows(value, rows)
  }

  /**
    Why a key is refused: it is not there, or is not a list of one-member objects, or has more
    than a hundred of them.  Every other list, the empty one included, is accepted.
   */
  lemma RefusedExactly(value: map<string, Value>, key: string)
    ensures KeyError(value, key) == Some(Missing) <==> key !in value
    ensures KeyError(value, key) == Some(Unexpected) <==> key in value && !ListsSomeRows(value[key])
    ensures KeyError(value, key) == Some(ExceedsLimit) <==>
              key in value && ListsSomeRows(value[key]) && |value[key].items| > 100
  {
    if key in value {
      if AllSingle(value[key]) {
        assert ListsRows(value[key], Rows(value[key]));
      }
      if ListsSomeRows(value[key]) {
        var rows :| ListsRows(value[key], rows);
        assert forall i :: 0 <= i < |rows| ==> value[key].items[i] == Members([rows[i]]);
      }
    }
  }

  // All five lists are there, of at most a hundred rows each.
  lemma RankableExactly(value: map<string, Value>)
    ensures Rankable(value) <==>
              forall key :: IsRanked(key) ==> key in value && ListsSomeRows(value[key]) && |value[key].items| <= 100
  {
    hide KeyError, ListsSomeRows;
    forall key
      ensures key in KEYS <==> IsRanked(key)
      ensures key in value && ListsSomeRows(value[key]) ==> value[key].List?
    {
      RankedKey(key);
      RefusedExactly(value, key);
      ListIsShown(value, key);
    }
    forall key
      ensures KeyError(value, key).None? <==>
              key in value && ListsSomeRows(value[key]) && |value[key].items| <= 100
    {
      RefusedExactly(value, key);
      ListIsShown(value, key);
      match KeyError(value, key) {
        case None =>
        case Some(Missing) =>
        case Some(Unexpected) =>
        case Some(ExceedsLimit) =>
      }
    }
  }

  lemma ListIsShown(value: map<string, Value>, key: string)
    ensures key in value && ListsSomeRows(value[key]) ==> value[key].List?
  {
  }

  lemma RankedKey(key: string)
    ensures key in KEYS <==> IsRanked(key)
  {
    assert KEYS[0] == "top_queried_domains" && KEYS[1] == "top_clients" && KEYS[2] == "top_blocked_domains";
    assert KEYS[3] == "top_upstreams_responses" && KEYS[4] == "top_upstreams_avg_time";
  }

  /**
    The canonical form of a list: all its rows in order when it has less than a hundred;
    otherwise its least count, exactly the rows above it in order, and how many are not above.
   */
  ghost predicate IsCanonical(rows: seq<Row>, field: Field, le: Order) {
    match field
    case Kept(_) => false
    case Full(all) => |rows| != 100 && SortedBy(all, le) && multiset(all) == multiset(rows)
    case Cut(above, cutoff, slots) =>
      && |rows| == 100 && slots == 100 - |above|
      && (exists i :: 0 <= i < 100 && rows[i].value == cutoff)
      && (forall i :: 0 <= i < 100 ==> cutoff <= rows[i].value)
      && SortedBy(above, le)
      && forall x: Row :: multiset(above)[x] == if x.value > cutoff then multiset(rows)[x] else 0
  }

  lemma CanonicalIsCanonical(rows: seq<Row>, le: Order)
    requires TotalOrder(le) && |rows| <= LIMIT
    ensures IsCanonical(rows, Canonical(rows, le), le)
  {
    hide Canonical, Above, Sort, TotalOrder;
    CanonicalForm(rows, le);
    if |rows| == LIMIT {
      var cutoff := Least(rows);
      SortedAboveItems(rows, cutoff, le);
      forall x
        ensures multiset(Above(Sort(rows, le), cutoff))[x] == if x.value > cutoff then multiset(rows)[x] else 0
      {
        AboveItems(rows, cutoff, x);
      }
    } else {
      SortDependsOnItems(rows, rows, le);
    }
  }

  // Each ranked list is answered in canonical form, everything else as it was.
  ghost predicate IsCanonized(value: map<string, Value>, fields: map<string, Field>, le: Order) {
    && fields.Keys == value.Keys
    && (forall key :: key in value && IsRanked(key) ==> ShowsCanonical(value[key], fields[key], le))
    && forall key :: key in value && !IsRanked(key) ==> fields[key] == Kept(value[key])
  }

  ghost predicate ShowsCanonical(value: Value, field: Field, le: Order) {
    exists rows :: ListsRows(value, rows) && IsCanonical(rows, field, le)
  }

  lemma CanonizedIsCanonized(value: map<string, Value>, le: Order)
    requires TotalOrder(le) && Rankable(value)
    ensures IsCanonized(value, Canonized(value, le), le)
  {
    hide Canonical, IsCanonical, ListsRows, TotalOrder, IsRanked;
    forall key | key in value
      ensures key in KEYS <==> IsRanked(key)
      ensures IsRanked(key) ==> ShowsCanonical(value[key], Canonized(value, le)[key], le)
    {
      RankedKey(key);
      if key in KEYS {
        assert KeyError(value, key).None?;
        ShowsRows(value[key]);
        CanonicalIsCanonical(Rows(value[key]), le);
      }
    }
  }

  lemma ShowsRows(value: Value)
    requires AllSingle(value)
    ensures ListsRows(value, Rows(value))
  {
  }

  method StatisticsData(value: map<string, Value>, le: Order) returns (result: Result<map<string, Field>, Error>)
    requires TotalOrder(le)
    ensures result.Success? <==> Rankable(value)
    ensures result.Success? ==> result.value == Canonized(value, le) && IsCanonized(value, result.value, le)
    ensures result.Failure? ==>
              exists n :: 0 <= n < |KEYS| && KeyError(value, KEYS[n]) == Some(result.error)
                          && forall m :: 0 <= m < n ==> KeyError(value, KEYS[m]).None?
  {
    hide Canonical, DoneUpTo, Rows, AllSingle, Canonized, Above, Least, Sort;
    var fields := map key | key in value :: Kept(value[key]);
    NothingDone(value, le);
    for n := 0 to |KEYS|
      invariant DoneUpTo(value, fields, le, n)
    {
      var key := KEYS[n];
      assert key in KEYS;
      DoneSoFar(value, fields, le, n);
      if key !in value {
        return Failure(Missing);
      }
      if !AllSingle(value[key]) {
        return Failure(Unexpected);
      }
      var rows := Rows(value[key]);
      var ordered := Sort(rows, le);
      if |rows| > LIMIT {
        return Failure(ExceedsLimit);
      }
      CanonicalForm(rows, le);
      OneMore(value, fields, le, n);
      if |rows| == LIMIT {
        var cutoff := Least(rows);
        var above := Above(ordered, cutoff);
        fields := fields[key := Cut(above, cutoff, |rows| - |above|)];
      } else {
        fields := fields[key := Full(ordered)];
      }
    }
    DoneSoFar(value, fields, le, |KEYS|);
    CanonizedIsCanonized(value, le);
    result := Success(fields);
  }

  lemma NothingDone(value: map<string, Value>, le: Order)
    requires TotalOrder(le)
    ensures DoneUpTo(value, map key | key in value :: Kept(value[key]), le, 0)
  {
  }

  lemma DoneSoFar(value: map<string, Value>, fields: map<string, Field>, le: Order, n: nat)
    requires TotalOrder(le) && n <= |KEYS| && DoneUpTo(value, fields, le, n)
    ensures forall m :: 0 <= m < n ==> KeyError(value, KEYS[m]).None?
    ensures n == |KEYS| ==> Rankable(value) && fields == Canonized(value, le)
  {
    hide Canonical, KeyError;
    assert KEYS[..|KEYS|] == KEYS;
  }

  lemma CanonicalForm(rows: seq<Row>, le: Order)
    requires TotalOrder(le) && |rows| <= LIMIT
    ensures |rows| < LIMIT ==> Canonical(rows, le) == Full(Sort(rows, le))
    ensures |rows| == LIMIT ==>
              var above := Above(Sort(rows, le), Least(rows));
              |above| <= |rows| && Canonical(rows, le) == Cut(above, Least(rows), |rows| - |above|)
  {
    assert |rows| == |multiset(rows)| == |Sort(rows, le)|;
  }

  // ---------------------------------------------------------------------
  // What two lists with one canonical form share.
  // ---------------------------------------------------------------------

  lemma {:induction false} AboveItems(rows: seq<Row>, cutoff: real, x: Row)
    ensures multiset(Above(rows, cutoff))[x] == if x.value > cutoff then multiset(rows)[x] else 0
    decreases |rows|
  {
    if rows != [] {
      assert rows == [rows[0]] + rows[1..];
      AboveItems(rows[1..], cutoff, x);
    }
  }

  lemma {:induction false} AboveSorted(rows: seq<Row>, cutoff: real, le: Order)
    requires TotalOrder(le) && SortedBy(rows, le)
    ensures SortedBy(Above(rows, cutoff), le)
    decreases |rows|
  {
    if rows != [] {
      AboveSorted(rows[1..], cutoff, le);
      forall x | x in Above(rows[1..], cutoff)
        ensures le(rows[0], x)
      {
        AboveItems(rows[1..], cutoff, x);
        assert x in multiset(rows[1..]);
      }
    }
  }

  // The rows above the least count, or all rows of a list that was not cut.
  ghost predicate SameStable(a: seq<Row>, b: seq<Row>) {
    && (|a| == LIMIT <==> |b| == LIMIT)
    && if |a| == LIMIT then Least(a) == Least(b) && multiset(Above(a, Least(a))) == multiset(Above(b, Least(b)))
       else multiset(a) == multiset(b)
  }

  lemma SortedAboveItems(rows: seq<Row>, cutoff: real, le: Order)
    requires TotalOrder(le)
    ensures multiset(Above(Sort(rows, le), cutoff)) == multiset(Above(rows, cutoff))
    ensures SortedBy(Above(Sort(rows, le), cutoff), le)
  {
    forall x
      ensures multiset(Above(Sort(rows, le), cutoff))[x] == multiset(Above(rows, cutoff))[x]
    {
      AboveItems(Sort(rows, le), cutoff, x);
      AboveItems(rows, cutoff, x);
    }
    AboveSorted(Sort(rows, le), cutoff, le);
  }

  lemma CanonicalMeansSameStable(a: seq<Row>, b: seq<Row>, le: Order)
    requires TotalOrder(le) && |a| <= LIMIT && |b| <= LIMIT
    ensures Canonical(a, le) == Canonical(b, le) <==> SameStable(a, b)
  {
    hide Canonical, Above, Least, Sort, TotalOrder;
    CanonicalForm(a, le);
    CanonicalForm(b, le);
    if |a| == LIMIT && |b| == LIMIT {
      if Least(a) == Least(b) {
        SameAbove(a, b, Least(a), le);
      }
    } else if |a| < LIMIT && |b| < LIMIT {
      SortDependsOnItems(a, b, le);
    }
  }

  lemma SameAbove(a: seq<Row>, b: seq<Row>, cutoff: real, le: Order)
    requires TotalOrder(le)
    ensures Above(Sort(a, le), cutoff) == Above(Sort(b, le), cutoff) <==>
              multiset(Above(a, cutoff)) == multiset(Above(b, cutoff))
  {
    hide Above, Sort, TotalOrder;
    SortedAboveItems(a, cutoff, le);
    SortedAboveItems(b, cutoff, le);
    if multiset(Above(a, cutoff)) == multiset(Above(b, cutoff)) {
      SortedIsUnique(Above(Sort(a, le), cutoff), Above(Sort(b, le), cutoff), le);
    }
  }

  // ---------------------------------------------------------------------
  // The freedom of the upstream ranking, erased exactly.
  // ---------------------------------------------------------------------

  // One row a name, sorted by count only.
  ghost predicate Descending(rows: seq<Row>) {
    forall i, j :: 0 <= i < j < |rows| ==> rows[i].name != rows[j].name && rows[i].value >= rows[j].value
  }

  // Every row of a table once, by count only: rows of equal count come in any order.
  ghost predicate Ranking(rows: seq<Row>, table: map<string, real>) {
    && Descending(rows)
    && (forall i :: 0 <= i < |rows| ==> rows[i].name in table && table[rows[i].name] == rows[i].value)
    && (forall name :: name in table ==> Row(name, table[name]) in rows)
  }

  function Shown(ranking: seq<Row>): seq<Row> {
    if |ranking| <= LIMIT then ranking else ranking[..LIMIT]
  }

  // Two boots of the server may show these two lists for one table.
  ghost predicate OneTable(a: seq<Row>, b: seq<Row>) {
    exists table, ra, rb :: Ranking(ra, table) && Ranking(rb, table) && Shown(ra) == a && Shown(rb) == b
  }

  lemma RankingsShareRows(a: seq<Row>, b: seq<Row>, table: map<string, real>)
    requires Ranking(a, table) && Ranking(b, table)
    ensures multiset(a) == multiset(b)
  {
    forall x
      ensures x in a <==> x in b
    {
      RankedRow(a, table, x);
      RankedRow(b, table, x);
    }
    SameElementsSameItems(a, b);
  }

  lemma RankedRow(a: seq<Row>, table: map<string, real>, x: Row)
    requires Ranking(a, table)
    ensures x in a <==> x.name in table && table[x.name] == x.value
  {
  }

  function Counts(rows: seq<Row>): (r: seq<real>)
    ensures |r| == |rows| && forall i :: 0 <= i < |r| ==> r[i] == rows[i].value
  {
    seq(|rows|, i requires 0 <= i < |rows| => rows[i].value)
  }

  lemma {:induction false} CountsOfItems(a: seq<Row>, b: seq<Row>)
    requires multiset(a) == multiset(b)
    ensures multiset(Counts(a)) == multiset(Counts(b))
    decreases |a|
  {
    hide Counts;
    assert |a| == |multiset(a)| == |b|;
    if a == [] {
      assert b == [];
    } else {
      assert a[0] in multiset(b);
      var k :| 0 <= k < |b| && b[k] == a[0];
      RowsWithout(a, 0);
      RowsWithout(b, k);
      CountsOfItems(Without(a, 0), Without(b, k));
      CountsWithout(a, 0);
      CountsWithout(b, k);
    }
  }

  function Without<T>(s: seq<T>, k: nat): (r: seq<T>)
    requires k < |s|
    ensures |r| == |s| - 1
  {
    s[..k] + s[k + 1..]
  }

  lemma RowsWithout<T>(s: seq<T>, k: nat)
    requires k < |s|
    ensures multiset(s) == multiset(Without(s, k)) + multiset{s[k]}
    ensures multiset(Without(s, k)) == multiset(s) - multiset{s[k]}
  {
    assert s == s[..k] + [s[k]] + s[k + 1..];
  }

  lemma CountsWithout(b: seq<Row>, k: nat)
    requires k < |b|
    ensures multiset(Counts(b)) == multiset(Counts(Without(b, k))) + multiset{b[k].value}
  {
    RowsWithout(Counts(b), k);
    assert Counts(Without(b, k)) == Without(Counts(b), k);
  }

  lemma SameCounts(a: seq<Row>, b: seq<Row>, table: map<string, real>)
    requires Ranking(a, table) && Ranking(b, table)
    ensures |a| == |b| && forall i :: 0 <= i < |a| ==> a[i].value == b[i].value
  {
    hide Ranking;
    RankingsShareRows(a, b, table);
    CountsOfItems(a, b);
    var down := (x: real, y: real) => x >= y;
    CountsDown(a, table, down);
    CountsDown(b, table, down);
    SortedIsUnique(Counts(a), Counts(b), down);
    assert |a| == |Counts(a)|;
    forall i | 0 <= i < |a|
      ensures a[i].value == b[i].value
    {
      assert Counts(a)[i] == Counts(b)[i];
    }
  }

  lemma CountsDown(a: seq<Row>, table: map<string, real>, down: (real, real) -> bool)
    requires Ranking(a, table) && forall x, y :: down(x, y) <==> x >= y
    ensures SortedBy(Counts(a), down)
  {
  }

  // The least count shown is the last, and every row above it is shown.
  lemma ShownAbove(ranking: seq<Row>, table: map<string, real>, x: Row)
    requires Ranking(ranking, table) && |ranking| >= LIMIT
    ensures Least(Shown(ranking)) == ranking[LIMIT - 1].value
    ensures multiset(Above(Shown(ranking), ranking[LIMIT - 1].value))[x] ==
            if x.value > ranking[LIMIT - 1].value && x.name in table && table[x.name] == x.value then 1 else 0
  {
    var a := Shown(ranking);
    assert a[LIMIT - 1] == ranking[LIMIT - 1];
    AboveItems(a, ranking[LIMIT - 1].value, x);
    RankedRow(ranking, table, x);
    DistinctCount(a, x);
    if x in ranking && x.value > ranking[LIMIT - 1].value {
      var k :| 0 <= k < |ranking| && ranking[k] == x;
      assert k < LIMIT;
      assert a[k] == x;
    }
  }

  lemma CutIsErased(ra: seq<Row>, rb: seq<Row>, table: map<string, real>)
    requires Ranking(ra, table) && Ranking(rb, table) && |ra| >= LIMIT && |rb| >= LIMIT
    requires ra[LIMIT - 1].value == rb[LIMIT - 1].value
    ensures SameStable(Shown(ra), Shown(rb))
  {
    hide Ranking, Above, Least;
    var c := ra[LIMIT - 1].value;
    forall x
      ensures multiset(Above(Shown(ra), c))[x] == multiset(Above(Shown(rb), c))[x]
    {
      ShownAbove(ra, table, x);
      ShownAbove(rb, table, x);
    }
    ShownAbove(ra, table, ra[0]);
    ShownAbove(rb, table, rb[0]);
  }

  lemma OneTableIsErased(ra: seq<Row>, rb: seq<Row>, table: map<string, real>)
    requires Ranking(ra, table) && Ranking(rb, table)
    ensures SameStable(Shown(ra), Shown(rb))
  {
    hide Ranking, SameStable;
    SameCounts(ra, rb, table);
    if |ra| >= LIMIT {
      CutIsErased(ra, rb, table);
    } else {
      UncutIsErased(ra, rb, table);
    }
  }

  lemma UncutIsErased(ra: seq<Row>, rb: seq<Row>, table: map<string, real>)
    requires Ranking(ra, table) && Ranking(rb, table) && |ra| < LIMIT && |rb| < LIMIT
    ensures SameStable(Shown(ra), Shown(rb))
  {
    RankingsShareRows(ra, rb, table);
  }

  // ---------------------------------------------------------------------
  // Conversely, lists with one canonical form are rankings of one table.
  // ---------------------------------------------------------------------

  // What a list shown by the server looks like.
  ghost predicate Ranked(rows: seq<Row>) {
    |rows| <= LIMIT && Descending(rows)
  }

  // The rows of b that a lacks.
  function Lacking(a: seq<Row>, b: seq<Row>): (r: seq<Row>)
    ensures |r| <= |b| && forall x :: x in r <==> x in b && x !in a
  {
    if b == [] then []
    else
      assert b == [b[0]] + b[1..];
      (if b[0] in a then [] else [b[0]]) + Lacking(a, b[1..])
  }

  lemma {:induction false} LackingIsRanked(a: seq<Row>, b: seq<Row>)
    requires Ranked(b)
    ensures Ranked(Lacking(a, b))
    decreases |b|
  {
    if b != [] {
      RankedTail(b);
      hide Ranked;
      LackingIsRanked(a, b[1..]);
      RankedAfterFirst(b, Lacking(a, b[1..]));
    }
  }

  lemma RankedTail(b: seq<Row>)
    requires Ranked(b) && b != []
    ensures Ranked(b[1..])
  {
  }

  lemma RankedAfterFirst(b: seq<Row>, rest: seq<Row>)
    requires Ranked(b) && b != [] && Ranked(rest) && |rest| < |b| && forall x :: x in rest ==> x in b[1..]
    ensures Ranked([b[0]] + rest)
    ensures [] + rest == rest
  {
    forall i | 0 <= i < |rest|
      ensures b[0].name != rest[i].name && b[0].value >= rest[i].value
    {
      FirstIsAbove(b, rest[i]);
    }
    OnTop(b[0], rest);
  }

  lemma FirstIsAbove(b: seq<Row>, x: Row)
    requires Ranked(b) && b != [] && x in b[1..]
    ensures b[0].name != x.name && b[0].value >= x.value
  {
    var k :| 0 <= k < |b[1..]| && b[1..][k] == x;
    assert b[k + 1] == x;
  }

  lemma OnTop(x: Row, rest: seq<Row>)
    requires Descending(rest) && forall i :: 0 <= i < |rest| ==> x.name != rest[i].name && x.value >= rest[i].value
    ensures Descending([x] + rest)
  {
  }

  // A row that only one list shows is tied at the cutoff.
  lemma OnlyTiesDiffer(a: seq<Row>, b: seq<Row>, x: Row)
    requires Ranked(a) && Ranked(b) && SameStable(a, b) && |a| == LIMIT
    ensures x in a && x !in b ==> x.value == Least(a)
    ensures x in b && x !in a ==> x.value == Least(a)
    ensures x in a || x in b ==> x.value >= Least(a)
  {
    AboveItems(a, Least(a), x);
    AboveItems(b, Least(a), x);
    assert x in multiset(a) <==> x in a;
    assert x in multiset(b) <==> x in b;
  }

  lemma SameNameSameRow(a: seq<Row>, b: seq<Row>, x: Row, y: Row)
    requires Ranked(a) && Ranked(b) && SameStable(a, b) && |a| == LIMIT
    requires x in a && y in b && x.name == y.name
    ensures x == y
  {
    hide SameStable, Least;
    OnlyTiesDiffer(a, b, x);
    OnlyTiesDiffer(a, b, y);
    if x in b {
      OneRowPerName(b, x, y);
    } else if y in a {
      OneRowPerName(a, x, y);
    }
  }

  lemma OneRowPerName(a: seq<Row>, x: Row, y: Row)
    requires Ranked(a) && x in a && y in a && x.name == y.name
    ensures x == y
  {
  }

  lemma CompletedDescends(a: seq<Row>, b: seq<Row>)
    requires Ranked(a) && Ranked(b) && SameStable(a, b) && |a| == LIMIT
    ensures Descending(a + Lacking(a, b))
  {
    hide SameStable, Least;
    LackingIsRanked(a, b);
    var rest := Lacking(a, b);
    forall i, j | 0 <= i < |a| && 0 <= j < |rest|
      ensures a[i].name != rest[j].name && a[i].value >= rest[j].value
    {
      assert rest[j] in rest && a[i] in a;
      OnlyTiesDiffer(a, b, rest[j]);
      OnlyTiesDiffer(a, b, a[i]);
      if a[i].name == rest[j].name {
        SameNameSameRow(a, b, a[i], rest[j]);
      }
    }
  }

  function TableOf(rows: seq<Row>): map<string, real> {
    if rows == [] then map[] else TableOf(rows[1..])[rows[0].name := rows[0].value]
  }

  lemma {:induction false} TableHoldsRows(rows: seq<Row>, x: Row)
    requires Descending(rows)
    ensures x in rows <==> x.name in TableOf(rows) && TableOf(rows)[x.name] == x.value
    decreases |rows|
  {
    if rows != [] {
      assert rows == [rows[0]] + rows[1..];
      TableHoldsRows(rows[1..], x);
      forall k | 0 <= k < |rows[1..]|
        ensures rows[1..][k].name != rows[0].name
      {
        assert rows[k + 1] == rows[1..][k];
      }
    }
  }

  lemma DescendingIsRanking(rows: seq<Row>, table: map<string, real>)
    requires Descending(rows)
    requires forall x :: x in rows <==> x.name in table && table[x.name] == x.value
    ensures Ranking(rows, table)
  {
    forall name | name in table
      ensures Row(name, table[name]) in rows
    {
      assert Row(name, table[name]).value == table[name];
    }
    forall i | 0 <= i < |rows|
      ensures rows[i].name in table && table[rows[i].name] == rows[i].value
    {
      assert rows[i] in rows;
    }
  }

  lemma SameRowsOneTable(ra: seq<Row>, rb: seq<Row>)
    requires Descending(ra) && Descending(rb) && forall x :: x in ra <==> x in rb
    ensures OneTable(Shown(ra), Shown(rb))
  {
    hide Ranking, Descending;
    var table := TableOf(ra);
    forall x
      ensures x in ra <==> x.name in table && table[x.name] == x.value
    {
      TableHoldsRows(ra, x);
    }
    DescendingIsRanking(ra, table);
    DescendingIsRanking(rb, table);
  }

  lemma StableIsOneTable(a: seq<Row>, b: seq<Row>)
    requires Ranked(a) && Ranked(b) && SameStable(a, b)
    ensures OneTable(a, b)
  {
    hide OneTable, Least, Above;
    if |a| == LIMIT {
      SameStableSwaps(a, b);
      CompletedDescends(a, b);
      CompletedDescends(b, a);
      var ra, rb := a + Lacking(a, b), b + Lacking(b, a);
      SameRowsOneTable(ra, rb);
      assert Shown(ra) == a && Shown(rb) == b;
    } else {
      forall x
        ensures x in a <==> x in b
      {
        assert x in multiset(a) <==> x in multiset(b);
      }
      SameRowsOneTable(a, b);
    }
  }

  lemma SameStableSwaps(a: seq<Row>, b: seq<Row>)
    requires SameStable(a, b)
    ensures SameStable(b, a)
  {
  }

  /**
    Two shown lists have one canonical form exactly when they may show one table: the form
    erases the order of ties and the choice of names at the cutoff, and nothing else.
   */
  lemma ErasesExactlyTheFreedom(a: seq<Row>, b: seq<Row>, le: Order)
    requires TotalOrder(le) && Ranked(a) && Ranked(b)
    ensures Canonical(a, le) == Canonical(b, le) <==> OneTable(a, b)
  {
    hide Canonical, SameStable, Ranking;
    CanonicalMeansSameStable(a, b, le);
    if SameStable(a, b) {
      StableIsOneTable(a, b);
    }
    if OneTable(a, b) {
      var table, ra, rb :| Ranking(ra, table) && Ranking(rb, table) && Shown(ra) == a && Shown(rb) == b;
      OneTableIsErased(ra, rb, table);
    }
  }

  // Every list a server may show looks ranked.
  lemma ShownIsRanked(ranking: seq<Row>, table: map<string, real>)
    requires Ranking(ranking, table)
    ensures Ranked(Shown(ranking))
  {
  }

  // Each ranked list of an answer is what the server shows of a ranking of its table.
  ghost predicate ShowsTables(v: map<string, Value>, tables: map<string, map<string, real>>) {
    forall key :: key in KEYS ==> key in v && key in tables && AllSingle(v[key]) && ShownFor(Rows(v[key]), tables[key])
  }

  ghost predicate ShownFor(rows: seq<Row>, table: map<string, real>) {
    exists ranking :: Ranking(ranking, table) && rows == Shown(ranking)
  }

  lemma ShownForIsRanked(rows: seq<Row>, table: map<string, real>)
    requires ShownFor(rows, table)
    ensures Ranked(rows)
  {
    var ranking :| Ranking(ranking, table) && rows == Shown(ranking);
    ShownIsRanked(ranking, table);
  }

  lemma ShownAreRankable(v: map<string, Value>, tables: map<string, map<string, real>>)
    requires ShowsTables(v, tables)
    ensures Rankable(v) && forall key :: key in KEYS ==> Ranked(Rows(v[key]))
  {
    hide AllSingle, Rows, ShownFor;
    forall key | key in KEYS
      ensures KeyError(v, key).None? && Ranked(Rows(v[key]))
    {
      ShownForIsRanked(Rows(v[key]), tables[key]);
    }
  }

  lemma OneTableShown(a: seq<Row>, b: seq<Row>, table: map<string, real>)
    requires ShownFor(a, table) && ShownFor(b, table)
    ensures OneTable(a, b)
  {
  }

  /**
    Two answers of a server with the same tables are rewritten to the same result, however
    ties fell on each boot.
   */
  lemma BootsAgree(v: map<string, Value>, w: map<string, Value>, tables: map<string, map<string, real>>, le: Order)
    requires TotalOrder(le) && ShowsTables(v, tables) && ShowsTables(w, tables)
    requires v.Keys == w.Keys && forall key :: key in v && key !in KEYS ==> v[key] == w[key]
    ensures Rankable(v) && Rankable(w) && Canonized(v, le) == Canonized(w, le)
  {
    hide AllSingle, Rows, ShownFor, OneTable, Canonized, Ranked;
    ShownAreRankable(v, tables);
    ShownAreRankable(w, tables);
    forall key | key in KEYS
      ensures OneTable(Rows(v[key]), Rows(w[key]))
    {
      OneTableShown(Rows(v[key]), Rows(w[key]), tables[key]);
    }
    StatisticsAgree(v, w, le);
  }

  /**
    The whole answer: two statistics agree after rewriting exactly when they have the same
    keys, agree outside the ranked lists, and each ranked list may show one table in both.
   */
  lemma StatisticsAgree(v: map<string, Value>, w: map<string, Value>, le: Order)
    requires TotalOrder(le) && Rankable(v) && Rankable(w)
    requires forall key :: key in KEYS ==> Ranked(Rows(v[key])) && Ranked(Rows(w[key]))
    ensures Canonized(v, le) == Canonized(w, le) <==>
            && v.Keys == w.Keys
            && (forall key :: key in v && key !in KEYS ==> key in w && v[key] == w[key])
            && (forall key :: key in KEYS ==> OneTable(Rows(v[key]), Rows(w[key])))
  {
    hide Canonical, OneTable, Ranked, Rows, AllSingle;
    forall key | key in KEYS
      ensures Canonical(Rows(v[key]), le) == Canonical(Rows(w[key]), le) <==> OneTable(Rows(v[key]), Rows(w[key]))
    {
      ErasesExactlyTheFreedom(Rows(v[key]), Rows(w[key]), le);
    }
    var cv, cw := Canonized(v, le), Canonized(w, le);
    assert cv.Keys == v.Keys && cw.Keys == w.Keys;
    if cv == cw {
      forall key | key in KEYS
        ensures OneTable(Rows(v[key]), Rows(w[key]))
      {
        assert KeyError(v, key).None?;
        assert cv[key] == cw[key];
      }
      forall key | key in v && key !in KEYS
        ensures key in w && v[key] == w[key]
      {
        assert cv[key] == cw[key];
      }
    } else if v.Keys == w.Keys && forall key :: key in KEYS ==> OneTable(Rows(v[key]), Rows(w[key])) {
      var key :| key in v && cv[key] != cw[key];
      assert key !in KEYS;
    }
  }
}
