/** The summary of a market history: extrema and the weighted average price. */
module HistoryAverages {
  import opened Wrappers
  import opened Arithmetic
  import opened Int64

  datatype Point = Point(at: int, itemCount: int, average: Option<int>)

  datatype Row = Row(point: Point, observedAt: int)

  datatype Summary = Summary(
    bucketCount: nat, soldUnits: int, weightedAverage: Option<int>, lowest: Option<int>, highest: Option<int>,
    lastObservedAt: Option<int>, points: seq<Point>)

  /** What the table's constraints and column types guarantee. */
  predicate Stored(row: Row) {
    && 0 <= row.point.itemCount <= MAX_INT64
    && (row.point.average.Some? ==> 0 < row.point.average.value <= MAX_INT64)
  }

  predicate Priced(p: Point) {
    p.average.Some? && p.average.value > 0
  }

  /** Whether the bucket enters the weighted average: its own product must fit. */
  predicate Weighs(p: Point) {
    Priced(p) && p.itemCount > 0 && p.average.value <= MAX_INT64 / p.itemCount
  }

  /** A bucket weighs iff it has a price, something was sold, and their product fits. */
  lemma WeighsIffProductFits(p: Point)
    requires Stored(Row(p, 0))
    ensures Weighs(p) <==> p.average.Some? && p.itemCount > 0 && Fits(p.average.value * p.itemCount)
    ensures Weighs(p) ==> p.average.value * p.itemCount > 0
  {
    if p.average.Some? && p.itemCount > 0 {
      var q := MAX_INT64 / p.itemCount;
      if p.average.value <= q {
        assert p.average.value * p.itemCount <= q * p.itemCount <= MAX_INT64 by { ScalesUp(p.itemCount, p.average.value, q); }
      } else {
        assert p.average.value * p.itemCount >= (q + 1) * p.itemCount > MAX_INT64 by { ScalesUp(p.itemCount, q + 1, p.average.value); }
      }
    }
  }

  // ---------- Exact sums ----------

  function Units(rows: seq<Row>): int {
    if |rows| == 0 then 0
    else
      var p := rows[|rows| - 1].point;
      Units(rows[..|rows| - 1]) + if Weighs(p) then p.itemCount else 0
  }

  function Worth(rows: seq<Row>): int {
    if |rows| == 0 then 0
    else
      var p := rows[|rows| - 1].point;
      Worth(rows[..|rows| - 1]) + if Weighs(p) then p.average.value * p.itemCount else 0
  }

  function Sold(rows: seq<Row>): int {
    if |rows| == 0 then 0 else Sold(rows[..|rows| - 1]) + rows[|rows| - 1].point.itemCount
  }

  /** The sums are sums over the rows, one term each; only buckets whose product fits enter the average. */
  lemma {:induction false} SumsAreAdditive(rows: seq<Row>, row: Row)
    requires Stored(row)
    ensures Sold([]) == Units([]) == Worth([]) == 0
    ensures Sold(rows + [row]) == Sold(rows) + row.point.itemCount
    ensures var p := row.point;
            var weighs := p.average.Some? && p.itemCount > 0 && Fits(p.average.value * p.itemCount);
            && Units(rows + [row]) == Units(rows) + (if weighs then p.itemCount else 0)
            && Worth(rows + [row]) == Worth(rows) + (if weighs then p.average.value * p.itemCount else 0)
  {
    assert (rows + [row])[..|rows|] == rows;
    WeighsIffProductFits(row.point);
  }

  // ---------- What the loop establishes ----------

  ghost predicate IsExtremum(rows: seq<Row>, x: Option<int>, atLeast: (int, int) -> bool) {
    && (x.None? <==> forall i | 0 <= i < |rows| :: !Priced(rows[i].point))
    && (x.Some? ==> exists i :: 0 <= i < |rows| && Priced(rows[i].point) && rows[i].point.average == x)
    && (x.Some? ==> forall i | 0 <= i < |rows| && Priced(rows[i].point) :: atLeast(x.value, rows[i].point.average.value))
  }

  ghost predicate IsLowest(rows: seq<Row>, x: Option<int>) {
    IsExtremum(rows, x, (a, b) => a <= b)
  }

  ghost predicate IsHighest(rows: seq<Row>, x: Option<int>) {
    IsExtremum(rows, x, (a, b) => a >= b)
  }

  ghost predicate IsLastObserved(rows: seq<Row>, x: Option<int>) {
    && (x.None? <==> rows == [])
    && (x.Some? ==> exists i :: 0 <= i < |rows| && rows[i].observedAt == x.value)
    && (x.Some? ==> forall i | 0 <= i < |rows| :: rows[i].observedAt <= x.value)
  }

  /** Adding with wrap-around at every step is wrapping the exact sum. */
  lemma WrapAdds(x: int, y: int)
    ensures Wrap(Wrap(x) + y) == Wrap(x + y)
  {
    var w := 0x1_0000_0000_0000_0000;
    var k := (x - MIN_INT64) / w;
    assert Wrap(x) == x - k * w;
    assert (x + y - MIN_INT64 - k * w) % w == (x + y - MIN_INT64) % w;
  }

  method Summarize(rows: seq<Row>) returns (s: Summary)
    requires forall i | 0 <= i < |rows| :: Stored(rows[i])
    ensures s.bucketCount == |s.points| == |rows| && forall i | 0 <= i < |rows| :: s.points[i] == rows[i].point
    ensures s.soldUnits == Wrap(Sold(rows))
    ensures IsLowest(rows, s.lowest) && IsHighest(rows, s.highest) && IsLastObserved(rows, s.lastObservedAt)
    ensures s.weightedAverage == Reported(rows)
    ensures Fits(Worth(rows)) && Fits(Units(rows)) && s.weightedAverage.Some? ==>
              s.lowest.Some? && s.highest.Some? && s.lowest.value <= s.weightedAverage.value <= s.highest.value
  {
    var points: seq<Point> := [];
    var bucketCount, soldUnits, total, units := 0, 0, 0, 0;
    var lowest: Option<int>, highest: Option<int>, last: Option<int> := None, None, None;
    for n := 0 to |rows|
      invariant bucketCount == |points| == n && forall i | 0 <= i < n :: points[i] == rows[i].point
      invariant soldUnits == Wrap(Sold(rows[..n]))
      invariant total == Wrap(Worth(rows[..n])) && units == Wrap(Units(rows[..n]))
      invariant IsLowest(rows[..n], lowest) && IsHighest(rows[..n], highest) && IsLastObserved(rows[..n], last)
    {
      ghost var before := rows[..n];
      assert rows[..n + 1] == before + [rows[n]];
      points := points + [rows[n].point];
      bucketCount := bucketCount + 1;
      soldUnits, total, units := AddSums(before, rows[n], soldUnits, total, units);
      last := Later(before, rows[n], last);
      lowest := Lower(before, rows[n], lowest);
      highest := Higher(before, rows[n], highest);
    }
    assert rows[..|rows|] == rows;
    s := Summary(bucketCount, soldUnits, if units > 0 then Some(Wrap(Quot(total, units))) else None,
                 lowest, highest, last, points);
    if Fits(Worth(rows)) && Fits(Units(rows)) && s.weightedAverage.Some? {
      AverageIsBetween(rows, lowest, highest);
    }
  }

  method AddSums(ghost rows: seq<Row>, row: Row, sold: int, total: int, units: int)
    returns (sold': int, total': int, units': int)
    requires Stored(row)
    requires sold == Wrap(Sold(rows)) && total == Wrap(Worth(rows)) && units == Wrap(Units(rows))
    ensures sold' == Wrap(Sold(rows + [row]))
    ensures total' == Wrap(Worth(rows + [row])) && units' == Wrap(Units(rows + [row]))
  {
    var p := row.point;
    assert (rows + [row])[..|rows|] == rows;
    WrapAdds(Sold(rows), p.itemCount);
    sold', total', units' := Wrap(sold + p.itemCount), total, units;
    if Weighs(p) {
      var product := p.average.value * p.itemCount;
      WeighsIffProductFits(p);
      WrapAdds(Worth(rows), product);
      WrapAdds(Units(rows), p.itemCount);
      total' := Wrap(total + Wrap(product));
      units' := Wrap(units + p.itemCount);
    }
  }

  method Later(ghost rows: seq<Row>, row: Row, last: Option<int>) returns (last': Option<int>)
    requires IsLastObserved(rows, last)
    ensures IsLastObserved(rows + [row], last')
  {
    last' := if last.None? || row.observedAt > last.value then Some(row.observedAt) else last;
    ghost var more := rows + [row];
    assert more[|rows|] == row;
    if last' == last {
      ghost var i :| 0 <= i < |rows| && rows[i].observedAt == last.value;
      assert more[i].observedAt == last'.value;
    }
  }

  method Lower(ghost rows: seq<Row>, row: Row, lowest: Option<int>) returns (lowest': Option<int>)
    requires IsLowest(rows, lowest)
    ensures IsLowest(rows + [row], lowest')
  {
    var price := row.point.average;
    lowest' := if Priced(row.point) && (lowest.None? || price.value < lowest.value) then price else lowest;
    ExtremumAfter(rows, row, lowest, lowest', (a, b) => a <= b);
  }

  method Higher(ghost rows: seq<Row>, row: Row, highest: Option<int>) returns (highest': Option<int>)
    requires IsHighest(rows, highest)
    ensures IsHighest(rows + [row], highest')
  {
    var price := row.point.average;
    highest' := if Priced(row.point) && (highest.None? || price.value > highest.value) then price else highest;
    ExtremumAfter(rows, row, highest, highest', (a, b) => a >= b);
  }

  lemma ExtremumAfter(rows: seq<Row>, row: Row, x: Option<int>, x': Option<int>, atLeast: (int, int) -> bool)
    requires IsExtremum(rows, x, atLeast)
    requires forall a, b, c | atLeast(a, b) && atLeast(b, c) :: atLeast(a, c)
    requires x' == x || (Priced(row.point) && x' == row.point.average)
    requires Priced(row.point) ==> x'.Some? && atLeast(x'.value, row.point.average.value)
    requires x.Some? ==> x'.Some? && atLeast(x'.value, x.value)
    ensures IsExtremum(rows + [row], x', atLeast)
  {
    var more := rows + [row];
    assert more[|rows|] == row;
    if x.Some? && x' == x {
      var i :| 0 <= i < |rows| && Priced(rows[i].point) && rows[i].point.average == x;
      assert more[i].point.average == x';
    }
    if x'.None? {
      forall i | 0 <= i < |more| ensures !Priced(more[i].point) {}
    }
  }

  // ---------- The average lies between the extrema ----------

  lemma {:induction false} WorthIsBetween(rows: seq<Row>, low: int, high: int)
    requires forall i | 0 <= i < |rows| && Priced(rows[i].point) :: low <= rows[i].point.average.value <= high
    ensures 0 <= Units(rows)
    ensures low * Units(rows) <= Worth(rows) <= high * Units(rows)
  {
    if |rows| > 0 {
      var before, p := rows[..|rows| - 1], rows[|rows| - 1].point;
      WorthIsBetween(before, low, high);
      if Weighs(p) {
        ScalesUp(p.itemCount, low, p.average.value);
        ScalesUp(p.itemCount, p.average.value, high);
        Distribute(low, Units(before), p.itemCount);
        Distribute(high, Units(before), p.itemCount);
      }
    }
  }

  lemma Distribute(a: int, b: int, c: int)
    ensures a * (b + c) == a * b + a * c
  {}

  lemma QuotientIsBetween(total: int, units: int, low: int, high: int)
    requires units > 0 && low * units <= total <= high * units
    ensures low <= total / units <= high
  {
    var q := total / units;
    assert q * units <= total < (q + 1) * units;
    if q + 1 <= low {
      ScalesUp(units, q + 1, low);
    }
    if high + 1 <= q {
      ScalesUp(units, high + 1, q);
    }
  }

  lemma {:induction false} UnitsArePositiveOnlyIfPriced(rows: seq<Row>)
    requires Units(rows) > 0
    ensures exists i :: 0 <= i < |rows| && Priced(rows[i].point)
  {
    if !Weighs(rows[|rows| - 1].point) {
      UnitsArePositiveOnlyIfPriced(rows[..|rows| - 1]);
    }
  }

  /** When both sums fit, the reported average lies between the lowest and the highest price. */
  lemma AverageIsBetween(rows: seq<Row>, lowest: Option<int>, highest: Option<int>)
    requires forall i | 0 <= i < |rows| :: Stored(rows[i])
    requires IsLowest(rows, lowest) && IsHighest(rows, highest)
    requires Fits(Worth(rows)) && Fits(Units(rows)) && Units(rows) > 0
    ensures lowest.Some? && highest.Some?
    ensures lowest.value <= Wrap(Quot(Wrap(Worth(rows)), Wrap(Units(rows)))) <= highest.value
  {
    UnitsArePositiveOnlyIfPriced(rows);
    var i :| 0 <= i < |rows| && Priced(rows[i].point);
    assert 0 < lowest.value;
    forall j | 0 <= j < |rows| && Priced(rows[j].point)
      ensures lowest.value <= rows[j].point.average.value <= highest.value
    {}
    WorthIsBetween(rows, lowest.value, highest.value);
    QuotientIsBetween(Worth(rows), Units(rows), lowest.value, highest.value);
    ScalesUp(Units(rows), 0, lowest.value);
    var k :| 0 <= k < |rows| && Priced(rows[k].point) && rows[k].point.average == highest;
  }

  /** The average that is reported for the rows. */
  function Reported(rows: seq<Row>): Option<int> {
    var (total, units) := (Wrap(Worth(rows)), Wrap(Units(rows)));
    if units > 0 then Some(Wrap(Quot(total, units))) else None
  }

  /** With one unit at least: when the worth of all units fits, the reported average is the exact one;
      when the worth does not fit but the number of units does, it is not. */
  lemma {:induction false} AverageIsExactIff(rows: seq<Row>)
    requires forall i | 0 <= i < |rows| :: Stored(rows[i])
    requires Units(rows) > 0
    ensures Fits(Worth(rows)) ==> Fits(Units(rows)) && Reported(rows) == Some(Worth(rows) / Units(rows))
    ensures Fits(Units(rows)) ==> (Reported(rows) == Some(Worth(rows) / Units(rows)) <==> Fits(Worth(rows)))
  {
    var (total, units) := (Worth(rows), Units(rows));
    WorthIsAtLeastUnits(rows);
    QuotientShrinks(total, units);
    if total > MAX_INT64 && Fits(units) {
      var k := (total - MIN_INT64) / 0x1_0000_0000_0000_0000;
      assert Wrap(total) == total - k * 0x1_0000_0000_0000_0000 && k >= 1;
      assert Wrap(total) <= total - 0x1_0000_0000_0000_0000;
      WrappedQuotientIsSmaller(total, Wrap(total), units);
    }
  }

  /** Every unit that counts has a price of one at least. */
  lemma {:induction false} WorthIsAtLeastUnits(rows: seq<Row>)
    ensures 0 <= Units(rows) <= Worth(rows)
  {
    if |rows| > 0 {
      var p := rows[|rows| - 1].point;
      WorthIsAtLeastUnits(rows[..|rows| - 1]);
      if Weighs(p) {
        ScalesUp(p.itemCount, 1, p.average.value);
      }
    }
  }

  /** When even the number of units overflows, anything can be reported: nothing at all, if it wraps
      to zero or below, or, if prices are equal and it wraps far enough, even the exact average. */
  lemma OverflowingUnits()
    ensures var (first, second) := (Row(Point(1, MAX_INT64, Some(1)), 4), Row(Point(2, MAX_INT64, Some(1)), 4));
            var (two, more) := ([first, second], [first, second, Row(Point(3, 3, Some(1)), 4)]);
            && !Fits(Units(two)) && Reported(two) == None
            && !Fits(Units(more)) && Reported(more) == Some(1) && Worth(more) / Units(more) == 1
  {
    var (first, second) := (Row(Point(1, MAX_INT64, Some(1)), 4), Row(Point(2, MAX_INT64, Some(1)), 4));
    var (two, more) := ([first, second], [first, second, Row(Point(3, 3, Some(1)), 4)]);
    assert more[..2] == two && two[..1] == [first] && two[..1][..0] == [];
    assert Units(two[..1]) == MAX_INT64 && Worth(two[..1]) == MAX_INT64;
    assert Units(two) == 2 * MAX_INT64 && Worth(two) == 2 * MAX_INT64;
    assert Units(more) == 2 * MAX_INT64 + 3 && Worth(more) == 2 * MAX_INT64 + 3;
    assert Wrap(2 * MAX_INT64) == -2 && Wrap(2 * MAX_INT64 + 3) == 1;
  }

  lemma QuotientShrinks(x: int, units: int)
    requires x >= 0 && units > 0
    ensures 0 <= x / units <= x
  {
    var q := x / units;
    assert q * units <= x < (q + 1) * units;
    if q < 0 {
      ScalesUp(units, q + 1, 0);
    } else {
      ScalesUp(q, 1, units);
    }
  }

  lemma WrappedQuotientIsSmaller(total: int, wrapped: int, units: int)
    requires 0 < units <= MAX_INT64 < total && Fits(wrapped) && wrapped + units <= total
    ensures Wrap(Quot(wrapped, units)) < total / units
  {
    QuotientIsAtLeast(total, 1, units);
    if wrapped >= 0 {
      var q := wrapped / units;
      assert q * units <= wrapped;
      assert (q + 1) * units == q * units + units;
      QuotientShrinks(wrapped, units);
      QuotientIsAtLeast(total, q + 1, units);
    } else {
      QuotientShrinks(-wrapped, units);
    }
  }

  lemma QuotientIsAtLeast(x: int, q: int, units: int)
    requires units > 0 && q * units <= x
    ensures q <= x / units
  {
    var p := x / units;
    assert x < (p + 1) * units;
    if p + 1 <= q {
      ScalesUp(units, p + 1, q);
    }
  }

  /** Without that condition it fails: two buckets that pass the guard can average to less than zero. */
  lemma GuardedTermsCanStillOverflow()
    ensures var (p, q) := (Point(1, 1, Some(MAX_INT64)), Point(2, 1, Some(MAX_INT64)));
            var rows := [Row(p, 3), Row(q, 3)];
            && Weighs(p) && Weighs(q) && !Fits(Worth(rows)) && Units(rows) == 2
            && Reported(rows) == Some(-1)
  {
    var (p, q) := (Point(1, 1, Some(MAX_INT64)), Point(2, 1, Some(MAX_INT64)));
    var rows := [Row(p, 3), Row(q, 3)];
    assert rows[..1] == [Row(p, 3)] && rows[..1][..0] == [];
    assert Units(rows[..1]) == 1 && Worth(rows[..1]) == MAX_INT64;
    assert Worth(rows) == 2 * MAX_INT64;
    assert Wrap(2 * MAX_INT64) == -2;
  }
}
