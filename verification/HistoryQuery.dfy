/** Answering a history query: grouping rows into series, and ranking the series. */
module HistoryQuery {
  import opened Wrappers
  import opened MarketCatalog

  datatype Point = Point(at: int, itemCount: int, average: Option<int>)

  datatype SeriesKey = SeriesKey(location: int, item: string, quality: int)

  datatype Row = Row(key: SeriesKey, point: Point)

  datatype Series = Series(marketKey: string, key: SeriesKey, history: seq<Point>)

  // ---------- Grouping ----------

  /** Rows of one series stand together, as any ORDER BY that starts with the key makes them. */
  ghost predicate Contiguous(rows: seq<Row>) {
    forall i, j, k | 0 <= i <= j <= k < |rows| && rows[i].key == rows[k].key :: rows[j].key == rows[i].key
  }

  function RowsOf(s: Series): (rows: seq<Row>)
    ensures |rows| == |s.history|
  {
    seq(|s.history|, i requires 0 <= i < |s.history| => Row(s.key, s.history[i]))
  }

  function Ungrouped(series: seq<Series>): seq<Row> {
    if |series| == 0 then [] else Ungrouped(series[..|series| - 1]) + RowsOf(series[|series| - 1])
  }

  function PointCount(series: seq<Series>): nat {
    if |series| == 0 then 0 else PointCount(series[..|series| - 1]) + |series[|series| - 1].history|
  }

  ghost predicate DistinctKeys(series: seq<Series>) {
    forall i, j | 0 <= i < j < |series| :: series[i].key != series[j].key
  }

  ghost predicate NonEmpty(series: seq<Series>) {
    forall i | 0 <= i < |series| :: series[i].history != []
  }

  lemma {:induction false} KeysOccur(series: seq<Series>, i: nat)
    requires i < |series| && NonEmpty(series)
    ensures exists n :: 0 <= n < |Ungrouped(series)| && Ungrouped(series)[n].key == series[i].key
  {
    var last := |series| - 1;
    var before := Ungrouped(series[..last]);
    if i < last {
      KeysOccur(series[..last], i);
      var n :| 0 <= n < |before| && before[n].key == series[i].key;
      assert Ungrouped(series)[n] == before[n];
    } else {
      assert Ungrouped(series)[|before|] == RowsOf(series[last])[0];
    }
  }

  lemma UngroupedAppend(series: seq<Series>, s: Series)
    ensures Ungrouped(series + [s]) == Ungrouped(series) + RowsOf(s)
  {
    assert (series + [s])[..|series|] == series;
  }

  /** Adding a row to the last series, or to a new one, adds it to the ungrouped rows. */
  lemma {:induction false} AddedRow(series: seq<Series>, row: Row)
    requires NonEmpty(series)
    ensures |series| > 0 && series[|series| - 1].key == row.key ==>
              var last := series[|series| - 1];
              Ungrouped(series[..|series| - 1] + [last.(history := last.history + [row.point])]) == Ungrouped(series) + [row]
    ensures Ungrouped(series + [Series("", row.key, [row.point])]) == Ungrouped(series) + [row]
  {
    UngroupedAppend(series, Series("", row.key, [row.point]));
    assert RowsOf(Series("", row.key, [row.point])) == [row];
    if |series| > 0 && series[|series| - 1].key == row.key {
      var last := series[|series| - 1];
      var longer := last.(history := last.history + [row.point]);
      UngroupedAppend(series[..|series| - 1], longer);
      assert RowsOf(longer) == RowsOf(last) + [row];
    }
  }

  lemma {:induction false} NewKeyIsDistinct(series: seq<Series>, rows: seq<Row>, n: nat)
    requires n < |rows| && Contiguous(rows) && NonEmpty(series) && Ungrouped(series) == rows[..n]
    requires |series| > 0 ==> series[|series| - 1].key != rows[n].key
    ensures forall i | 0 <= i < |series| :: series[i].key != rows[n].key
  {
    if |series| > 0 {
      var last := series[|series| - 1];
      assert RowsOf(last)[|last.history| - 1].key == last.key;
      assert rows[n - 1].key == rows[..n][n - 1].key == last.key;
      forall j | 0 <= j < n ensures rows[j].key != rows[n].key {
        assert rows[n - 1].key != rows[n].key;
      }
    }
    forall i | 0 <= i < |series| ensures series[i].key != rows[n].key {
      KeysOccur(series, i);
      var j :| 0 <= j < |rows[..n]| && rows[..n][j].key == series[i].key;
    }
  }

  /** Groups the rows of a query into series, without losing, adding or reordering a point. */
  method GroupRows(rows: seq<Row>) returns (series: seq<Series>)
    requires Contiguous(rows)
    ensures Ungrouped(series) == rows && DistinctKeys(series) && NonEmpty(series)
  {
    series := [];
    for n := 0 to |rows|
      invariant Ungrouped(series) == rows[..n] && DistinctKeys(series) && NonEmpty(series)
    {
      var row := rows[n];
      var last := |series| - 1;
      AddedRow(series, row);
      assert rows[..n + 1] == rows[..n] + [row];
      if last < 0 || series[last].key != row.key {
        NewKeyIsDistinct(series, rows, n);
        series := series + [Series("", row.key, [row.point])];
      } else {
        var longer := series[last].(history := series[last].history + [row.point]);
        assert series[last := longer] == series[..last] + [longer];
        series := series[last := longer];
      }
    }
    assert rows[..|rows|] == rows;
  }

  lemma {:induction false} UngroupedCount(series: seq<Series>)
    ensures |Ungrouped(series)| == PointCount(series)
  {
    if |series| > 0 {
      UngroupedCount(series[..|series| - 1]);
    }
  }

  // ---------- Ranks ----------

  /** The rank of each requested market: its first occurrence. */
  method MarketOrder(keys: seq<string>) returns (order: map<string, nat>)
    ensures var distinct := FirstOccurrences(keys);
            && (forall i | 0 <= i < |distinct| :: distinct[i] in order && order[distinct[i]] == i)
            && (forall k | k in order :: k in distinct)
  {
    order := map[];
    var seen: set<string> := {};
    for n := 0 to |keys|
      invariant var distinct := FirstOccurrences(keys[..n]);
        && |order| == |distinct|
        && (forall k :: k in seen <==> k in distinct)
        && (forall i | 0 <= i < |distinct| :: distinct[i] in order && order[distinct[i]] == i)
        && (forall k | k in order :: k in distinct)
    {
      var key := NormalizeKey(keys[n]);
      assert keys[..n + 1][..n] == keys[..n];
      if key !in seen {
        seen := seen + {key};
        order := order[key := |order|];
      }
    }
    assert keys[..|keys|] == keys;
  }

  // ---------- The order of the answer ----------

  /** Bytewise order of text. */
  predicate TextLess(a: string, b: string) {
    b != [] && (a == [] || a[0] < b[0] || (a[0] == b[0] && TextLess(a[1..], b[1..])))
  }

  /** One text comes before the other iff, where they first differ, it has ended or has the smaller byte. */
  lemma {:induction false} TextLessIff(a: string, b: string)
    ensures TextLess(a, b) <==>
              exists n: nat :: n <= |a| && n < |b| && a[..n] == b[..n] && (n == |a| || a[n] < b[n])
  {
    if a != [] && b != [] && a[0] == b[0] {
      TextLessIff(a[1..], b[1..]);
      if n: nat :| n <= |a[1..]| && n < |b[1..]| && a[1..][..n] == b[1..][..n] && (n == |a[1..]| || a[1..][n] < b[1..][n]) {
        assert a[..n + 1] == [a[0]] + a[1..][..n] && b[..n + 1] == [b[0]] + b[1..][..n];
      }
      if n: nat :| n <= |a| && n < |b| && a[..n] == b[..n] && (n == |a| || a[n] < b[n]) {
        assert n > 0 && a[1..][..n - 1] == a[..n][1..] && b[1..][..n - 1] == b[..n][1..];
      }
    } else if b != [] && (a == [] || a[0] < b[0]) {
      assert a[..0] == b[..0];
    } else {
      forall n: nat | 0 < n <= |a| && n < |b| ensures a[..n] != b[..n] {
        assert a[..n][0] == a[0] && b[..n][0] == b[0];
      }
    }
  }

  lemma {:induction false} TextLessIsTransitive(a: string, b: string, c: string)
    requires TextLess(a, b) && TextLess(b, c)
    ensures TextLess(a, c)
  {
    if a != [] && a[0] == b[0] && b[0] == c[0] {
      TextLessIsTransitive(a[1..], b[1..], c[1..]);
    }
  }

  lemma {:induction false} TextLessIsTotal(a: string, b: string)
    ensures TextLess(a, b) || TextLess(b, a) || a == b
    ensures !(TextLess(a, b) && TextLess(b, a))
  {
    if a != [] && b != [] && a[0] == b[0] {
      TextLessIsTotal(a[1..], b[1..]);
      assert a == [a[0]] + a[1..] && b == [b[0]] + b[1..];
    }
  }

  /** A market without a rank would read as rank 0. */
  function Rank(order: map<string, nat>, s: Series): nat {
    if s.marketKey in order then order[s.marketKey] else 0
  }

  /** By market rank, then item, then quality. */
  predicate Precedes(order: map<string, nat>, s: Series, t: Series) {
    if Rank(order, s) != Rank(order, t) then Rank(order, s) < Rank(order, t)
    else if s.key.item != t.key.item then TextLess(s.key.item, t.key.item)
    else s.key.quality < t.key.quality
  }

  lemma PrecedesIsTransitive(order: map<string, nat>, s: Series, t: Series, u: Series)
    requires Precedes(order, s, t) && Precedes(order, t, u)
    ensures Precedes(order, s, u)
  {
    if s.key.item != t.key.item && t.key.item != u.key.item && Rank(order, s) == Rank(order, t) == Rank(order, u) {
      TextLessIsTransitive(s.key.item, t.key.item, u.key.item);
      TextLessIsTotal(s.key.item, t.key.item);
    }
  }

  ghost predicate Sorted(order: map<string, nat>, series: seq<Series>) {
    forall i, j | 0 <= i < j < |series| :: !Precedes(order, series[j], series[i])
  }

  /** Neither comes before the other. */
  predicate Ties(order: map<string, nat>, s: Series, t: Series) {
    !Precedes(order, s, t) && !Precedes(order, t, s)
  }

  /** The series that tie with s, as they follow each other. */
  function TiesWith(order: map<string, nat>, s: Series, series: seq<Series>): seq<Series> {
    if |series| == 0 then []
    else
      var (before, last) := (TiesWith(order, s, series[..|series| - 1]), series[|series| - 1]);
      if Ties(order, s, last) then before + [last] else before
  }

  /** Series that tie keep their order. */
  ghost predicate SameOrderOfTies(order: map<string, nat>, series: seq<Series>, sorted: seq<Series>) {
    forall s :: TiesWith(order, s, sorted) == TiesWith(order, s, series)
  }

  lemma {:induction false} TiesOfConcat(order: map<string, nat>, s: Series, first: seq<Series>, second: seq<Series>)
    ensures TiesWith(order, s, first + second) == TiesWith(order, s, first) + TiesWith(order, s, second)
  {
    if |second| == 0 {
      assert first + second == first;
    } else {
      var n := |second| - 1;
      TiesOfConcat(order, s, first, second[..n]);
      assert (first + second)[..|first| + n] == first + second[..n];
    }
  }

  lemma {:induction false} NoTiesBehind(order: map<string, nat>, s: Series, x: Series, behind: seq<Series>)
    requires Ties(order, x, s) && forall i | 0 <= i < |behind| :: Precedes(order, s, behind[i])
    ensures TiesWith(order, x, behind) == []
  {
    if |behind| > 0 {
      var n := |behind| - 1;
      NoTiesBehind(order, s, x, behind[..n]);
      if Ties(order, x, behind[n]) {
        NotPrecedesIsTransitive(order, behind[n], x, s);
      }
    }
  }

  /** The stable sort, by insertion behind everything that does not come later. */
  method StableSort(order: map<string, nat>, series: seq<Series>) returns (sorted: seq<Series>)
    ensures multiset(sorted) == multiset(series) && Sorted(order, sorted) && SameOrderOfTies(order, series, sorted)
  {
    sorted := [];
    for n := 0 to |series|
      invariant multiset(sorted) == multiset(series[..n]) && Sorted(order, sorted)
      invariant SameOrderOfTies(order, series[..n], sorted)
    {
      sorted := Insert(order, sorted, series[n]);
      assert series[..n + 1] == series[..n] + [series[n]] && series[..n + 1][..n] == series[..n];
    }
    assert series[..|series|] == series;
  }

  method Insert(order: map<string, nat>, sorted: seq<Series>, s: Series) returns (longer: seq<Series>)
    requires Sorted(order, sorted)
    ensures multiset(longer) == multiset(sorted) + multiset{s} && Sorted(order, longer)
    ensures forall x :: TiesWith(order, x, longer) == TiesWith(order, x, sorted) + if Ties(order, x, s) then [s] else []
  {
    var at := |sorted|;
    while at > 0 && Precedes(order, s, sorted[at - 1])
      invariant 0 <= at <= |sorted|
      invariant forall i | at <= i < |sorted| :: Precedes(order, s, sorted[i])
    {
      at := at - 1;
    }
    longer := sorted[..at] + [s] + sorted[at..];
    assert sorted == sorted[..at] + sorted[at..];
    assert multiset(sorted) == multiset(sorted[..at]) + multiset(sorted[at..]);
    assert multiset(longer) == multiset(sorted[..at]) + multiset{s} + multiset(sorted[at..]);
    InsertedIsSorted(order, sorted, s, at);
    forall x ensures TiesWith(order, x, longer) == TiesWith(order, x, sorted) + if Ties(order, x, s) then [s] else [] {
      InsertedIsBehindTies(order, sorted, s, at, x);
    }
  }

  lemma InsertedIsBehindTies(order: map<string, nat>, sorted: seq<Series>, s: Series, at: nat, x: Series)
    requires at <= |sorted| && forall i | at <= i < |sorted| :: Precedes(order, s, sorted[i])
    ensures TiesWith(order, x, sorted[..at] + [s] + sorted[at..])
         == TiesWith(order, x, sorted) + if Ties(order, x, s) then [s] else []
  {
    TiesOfConcat(order, x, sorted[..at] + [s], sorted[at..]);
    TiesOfConcat(order, x, sorted[..at], [s]);
    TiesOfConcat(order, x, sorted[..at], sorted[at..]);
    assert sorted[..at] + sorted[at..] == sorted && [s][..0] == [];
    assert TiesWith(order, x, [s]) == if Ties(order, x, s) then [s] else [];
    if Ties(order, x, s) {
      NoTiesBehind(order, s, x, sorted[at..]);
    }
  }

  lemma InsertedIsSorted(order: map<string, nat>, sorted: seq<Series>, s: Series, at: nat)
    requires Sorted(order, sorted) && at <= |sorted|
    requires at > 0 ==> !Precedes(order, s, sorted[at - 1])
    requires forall i | at <= i < |sorted| :: Precedes(order, s, sorted[i])
    ensures Sorted(order, sorted[..at] + [s] + sorted[at..])
  {
    var longer := sorted[..at] + [s] + sorted[at..];
    forall i | 0 <= i < at ensures !Precedes(order, s, sorted[i]) {
      if i < at - 1 && Precedes(order, s, sorted[i]) {
        NotPrecedesIsTransitive(order, sorted[i], sorted[at - 1], s);
      }
    }
    forall i | at <= i < |sorted| ensures !Precedes(order, sorted[i], s) {
      TextLessIsTotal(s.key.item, sorted[i].key.item);
    }
    forall i, j | 0 <= i < j < |longer| ensures !Precedes(order, longer[j], longer[i]) {
      if i < at && j > at {
        assert longer[i] == sorted[i] && longer[j] == sorted[j - 1];
      }
    }
  }

  lemma NotPrecedesIsTransitive(order: map<string, nat>, s: Series, t: Series, u: Series)
    requires !Precedes(order, t, s) && !Precedes(order, u, t)
    ensures !Precedes(order, u, s)
  {
    if Precedes(order, u, s) {
      TextLessIsTotal(s.key.item, t.key.item);
      TextLessIsTotal(t.key.item, u.key.item);
      TextLessIsTotal(u.key.item, s.key.item);
      if Precedes(order, s, t) {
        PrecedesIsTransitive(order, u, s, t);
      }
      if Precedes(order, t, u) {
        PrecedesIsTransitive(order, t, u, s);
      }
    }
  }

  // ---------- The answer ----------

  datatype Answer = Answer(count: nat, bucketCount: nat, data: seq<Series>)

  ghost predicate Relabelled(series: seq<Series>, keysByLocation: map<int, string>, labelled: seq<Series>) {
    && |labelled| == |series|
    && (forall i | 0 <= i < |series| ::
          series[i].key.location in keysByLocation &&
          labelled[i] == series[i].(marketKey := keysByLocation[series[i].key.location]))
  }

  /** Labels, counts and sorts the series; an unmapped location is an error. */
  method Arrange(series: seq<Series>, order: map<string, nat>, keysByLocation: map<int, string>)
    returns (result: Result<Answer, int>, ghost labelled: seq<Series>)
    ensures result.Ok? <==> forall i | 0 <= i < |series| :: series[i].key.location in keysByLocation
    ensures result.Ok? ==>
              && Relabelled(series, keysByLocation, labelled)
              && multiset(result.value.data) == multiset(labelled)
              && Sorted(order, result.value.data)
              && result.value.count == |series|
              && result.value.bucketCount == PointCount(series)
  {
    var current: seq<Series> := series;
    var bucketCount := 0;
    labelled := [];
    for n := 0 to |series|
      invariant |current| == |series|
      invariant Relabelled(series[..n], keysByLocation, current[..n]) && current[n..] == series[n..]
      invariant bucketCount == PointCount(series[..n])
    {
      assert current[n] == series[n];
      assert series[..n + 1][..n] == series[..n];
      if current[n].key.location !in keysByLocation {
        return Err(current[n].key.location), [];
      }
      current := current[n := current[n].(marketKey := keysByLocation[current[n].key.location])];
      bucketCount := bucketCount + |current[n].history|;
    }
    assert series[..|series|] == series && current[..|series|] == current;
    labelled := current;
    var sorted := StableSort(order, current);
    assert |sorted| == |multiset(sorted)| == |multiset(current)| == |current|;
    return Ok(Answer(|sorted|, bucketCount, sorted)), labelled;
  }

  // ---------- A query from end to end ----------

  /** Every series of the answer carries the market of its location, and series of earlier
      requested markets come first; within a market they are strictly ordered. */
  ghost predicate Ranked(keys: seq<string>, byKey: map<string, Market>, data: seq<Series>) {
    var distinct := FirstOccurrences(keys);
    && (forall i | 0 <= i < |data| ::
          data[i].marketKey in distinct && data[i].marketKey in byKey &&
          byKey[data[i].marketKey].location == Some(data[i].key.location))
    && (forall i, j, m, n | 0 <= i < j < |data| && 0 <= m < |distinct| && 0 <= n < |distinct| &&
            data[i].marketKey == distinct[m] && data[j].marketKey == distinct[n] ::
          m < n || (m == n && (TextLess(data[i].key.item, data[j].key.item) ||
                               (data[i].key.item == data[j].key.item && data[i].key.quality < data[j].key.quality))))
  }

  /** The rows are those the database returns for the resolved locations. */
  method QueryHistory(catalog: Catalog, keys: seq<string>, rows: seq<Row>) returns (result: Result<Answer, CatalogError>)
    requires LocationsAreDistinct(catalog.byKey) && Contiguous(rows)
    requires forall i | 0 <= i < |rows| :: FromRequestedMarket(catalog.byKey, keys, rows[i].key.location)
    ensures result.Ok? <==> ProblemFree(catalog.byKey, keys)
    ensures result.Ok? ==>
              && Ranked(keys, catalog.byKey, result.value.data)
              && result.value.count == |result.value.data|
              && result.value.bucketCount == |rows|
              && exists series :: SameSeries(series, result.value.data) && Ungrouped(series) == rows && DistinctKeys(series)
  {
    var resolved := catalog.ResolveEnabled(keys);
    if resolved.Err? {
      return Err(resolved.error);
    }
    var order := MarketOrder(keys);
    var series := GroupRows(rows);
    UngroupedCount(series);
    ghost var distinct := FirstOccurrences(keys);
    forall i | 0 <= i < |series| ensures series[i].key.location in resolved.value.keysByLocation {
      KeysOccur(series, i);
      RequestedIsMapped(catalog.byKey, keys, resolved.value, series[i].key.location);
    }
    var arranged, labelled := Arrange(series, order, resolved.value.keysByLocation);
    AnswerIsRanked(catalog.byKey, keys, resolved.value, order, series, labelled, arranged.value.data);
    LabellingKeepsSeries(series, resolved.value.keysByLocation, labelled, arranged.value.data);
    return Ok(arranged.value);
  }

  /** The location belongs to a requested market, as the query's filter demands. */
  ghost predicate FromRequestedMarket(byKey: map<string, Market>, keys: seq<string>, location: int) {
    exists i :: 0 <= i < |keys| && NormalizeKey(keys[i]) in byKey && byKey[NormalizeKey(keys[i])].location == Some(location)
  }

  /** The same series up to their order and market label. */
  ghost predicate SameSeries(series: seq<Series>, data: seq<Series>) {
    exists labelled: seq<Series> ::
      && |labelled| == |series|
      && (forall i | 0 <= i < |series| :: labelled[i].key == series[i].key && labelled[i].history == series[i].history)
      && multiset(labelled) == multiset(data)
  }

  lemma LabellingKeepsSeries(series: seq<Series>, keysByLocation: map<int, string>, labelled: seq<Series>, data: seq<Series>)
    requires Relabelled(series, keysByLocation, labelled) && multiset(labelled) == multiset(data)
    ensures SameSeries(series, data)
  {}

  lemma RequestedIsMapped(byKey: map<string, Market>, keys: seq<string>, r: Resolution, location: int)
    requires Resolves(byKey, FirstOccurrences(keys), r) && FromRequestedMarket(byKey, keys, location)
    ensures location in r.keysByLocation
  {
    var distinct := FirstOccurrences(keys);
    var i :| 0 <= i < |keys| && NormalizeKey(keys[i]) in byKey && byKey[NormalizeKey(keys[i])].location == Some(location);
    assert NormalizeKey(keys[i]) in distinct;
    var m :| 0 <= m < |distinct| && distinct[m] == NormalizeKey(keys[i]);
    assert r.locations[m] == location;
  }

  lemma MappedLocation(byKey: map<string, Market>, distinct: seq<string>, r: Resolution, location: int)
    requires Resolves(byKey, distinct, r) && location in r.keysByLocation
    ensures var key := r.keysByLocation[location];
            key in distinct && key in byKey && byKey[key].location == Some(location)
  {
    var m :| 0 <= m < |r.locations| && r.locations[m] == location;
    assert distinct[m] in distinct;
  }

  lemma {:induction false} DistinctOccurOnce(series: seq<Series>, s: Series)
    requires DistinctKeys(series)
    ensures multiset(series)[s] <= 1
  {
    if |series| > 0 {
      var n := |series| - 1;
      DistinctOccurOnce(series[..n], s);
      assert series == series[..n] + [series[n]];
      if series[n] == s {
        assert s !in series[..n];
        assert s !in multiset(series[..n]);
      }
    }
  }

  lemma PermutationKeepsDistinct(series: seq<Series>, data: seq<Series>, i: nat, j: nat)
    requires DistinctKeys(series) && multiset(data) == multiset(series) && i < j < |data|
    ensures data[i].key != data[j].key
  {
    var (s, t) := (data[i], data[j]);
    assert s in multiset(data) && t in multiset(data);
    var x :| 0 <= x < |series| && series[x] == s;
    var y :| 0 <= y < |series| && series[y] == t;
    DistinctOccurOnce(series, s);
    assert data == data[..j] + [t] + data[j + 1..];
    assert data[..j][i] == s;
    assert s in multiset(data[..j]);
    assert multiset(data) == multiset(data[..j]) + multiset{t} + multiset(data[j + 1..]);
  }

  lemma AnswerIsMapped(byKey: map<string, Market>, distinct: seq<string>, r: Resolution,
                       series: seq<Series>, labelled: seq<Series>, data: seq<Series>)
    requires Resolves(byKey, distinct, r)
    requires Relabelled(series, r.keysByLocation, labelled) && multiset(data) == multiset(labelled)
    ensures forall i | 0 <= i < |data| ::
              data[i].marketKey in distinct && data[i].marketKey in byKey &&
              byKey[data[i].marketKey].location == Some(data[i].key.location)
  {
    forall i | 0 <= i < |data|
      ensures data[i].marketKey in distinct && data[i].marketKey in byKey
      ensures byKey[data[i].marketKey].location == Some(data[i].key.location)
    {
      assert data[i] in multiset(data);
      var x :| 0 <= x < |labelled| && labelled[x] == data[i];
      MappedLocation(byKey, distinct, r, series[x].key.location);
    }
  }

  lemma AnswerIsRanked(byKey: map<string, Market>, keys: seq<string>, r: Resolution, order: map<string, nat>,
                       series: seq<Series>, labelled: seq<Series>, data: seq<Series>)
    requires Resolves(byKey, FirstOccurrences(keys), r) && DistinctKeys(series)
    requires forall i | 0 <= i < |FirstOccurrences(keys)| ::
               FirstOccurrences(keys)[i] in order && order[FirstOccurrences(keys)[i]] == i
    requires Relabelled(series, r.keysByLocation, labelled)
    requires multiset(data) == multiset(labelled) && Sorted(order, data)
    ensures Ranked(keys, byKey, data)
  {
    var distinct := FirstOccurrences(keys);
    AnswerIsMapped(byKey, distinct, r, series, labelled, data);
    forall i, j, m, n | 0 <= i < j < |data| && 0 <= m < |distinct| && 0 <= n < |distinct| &&
                        data[i].marketKey == distinct[m] && data[j].marketKey == distinct[n]
      ensures m < n || (m == n && (TextLess(data[i].key.item, data[j].key.item) ||
                        (data[i].key.item == data[j].key.item && data[i].key.quality < data[j].key.quality)))
    {
      PermutationKeepsDistinct(labelled, data, i, j);
      TextLessIsTotal(data[i].key.item, data[j].key.item);
      assert !Precedes(order, data[j], data[i]);
    }
  }
}
