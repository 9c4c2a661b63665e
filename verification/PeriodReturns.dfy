/** Returns per rebalancing period: each period runs from one rebalancing date to the next, the last
    one to the end of the curve; values are looked up as of a date. Values are exact. */
module PeriodReturns {
  import opened Prelude
  import opened Drawdown
  import opened AscendingLists

  /** The last value at or before the day, if the curve had begun. */
  function AsOf(equity: seq<Point>, day: int): Option<real> {
    if equity == [] then None
    else if equity[|equity| - 1].day <= day then Some(equity[|equity| - 1].value)
    else AsOf(equity[..|equity| - 1], day)
  }

  /** The distinct dates up to a bound, ascending. */
  function Points(dates: seq<int>, bound: int): seq<int> {
    if dates == [] then []
    else
      var front, d := Points(dates[..|dates| - 1], bound), dates[|dates| - 1];
      if d <= bound then Insert(front, d) else front
  }

  /** The value a period ends with. */
  function EndValue(equity: seq<Point>, points: seq<int>, i: int): Option<real>
    requires equity != [] && 0 <= i < |points|
  {
    AsOf(equity, if i + 1 < |points| then points[i + 1] else equity[|equity| - 1].day)
  }

  /** The returns of the first n periods; a period whose start lies before the curve has none. */
  function Returns(equity: seq<Point>, points: seq<int>, n: int): seq<real>
    requires Valid(equity) && 0 <= n <= |points|
    decreases n
  {
    if n == 0 then []
    else
      var before := Returns(equity, points, n - 1);
      var start, end := AsOf(equity, points[n - 1]), EndValue(equity, points, n - 1);
      if start.None? || start.value <= 0.0 || end.None? then before
      else before + [end.value / start.value - 1.0]
  }

  /** None when the curve breaks its contract. */
  method CalcRebalancePeriodReturns(equity: seq<Point>, dates: seq<int>) returns (result: Option<seq<real>>)
    ensures result.None? <==> !Valid(equity)
    ensures result.Some? ==>
      var points := Points(dates, equity[|equity| - 1].day);
      result.value == Returns(equity, points, |points|)
  {
    if !Valid(equity) {
      return None;
    }
    var points := Points(dates, equity[|equity| - 1].day);
    var rates := [];
    var i := 0;
    while i < |points|
      invariant 0 <= i <= |points| && rates == Returns(equity, points, i)
    {
      var start := AsOf(equity, points[i]);
      var end := AsOf(equity, if i + 1 < |points| then points[i + 1] else equity[|equity| - 1].day);
      if start.Some? && start.value > 0.0 && end.Some? {
        rates := rates + [end.value / start.value - 1.0];
      }
      i := i + 1;
    }
    result := Some(rates);
  }

  // ---------------------------------------------------------------------------------------------

  lemma {:induction false} PointsShape(dates: seq<int>, bound: int)
    ensures Ascending(Points(dates, bound))
    ensures forall x :: x in Points(dates, bound) <==> x in dates && x <= bound
  {
    if dates != [] {
      var front := dates[..|dates| - 1];
      PointsShape(front, bound);
      assert dates == front + [dates[|dates| - 1]];
      if dates[|dates| - 1] <= bound {
        InsertAscends(Points(front, bound), dates[|dates| - 1]);
        forall x: int ensures x in Points(dates, bound) <==> x in Points(front, bound) || x == dates[|dates| - 1] {
          InsertMembers(Points(front, bound), dates[|dates| - 1], x);
        }
      }
    }
  }

  /** Neither the order of the dates nor repetitions matter. */
  lemma OrderIrrelevant(d1: seq<int>, d2: seq<int>, bound: int)
    requires forall x :: x in d1 <==> x in d2
    ensures Points(d1, bound) == Points(d2, bound)
  {
    PointsShape(d1, bound);
    PointsShape(d2, bound);
    AscendingUnique(Points(d1, bound), Points(d2, bound));
  }

  lemma ValidPrefix(equity: seq<Point>)
    requires Valid(equity) && |equity| > 1
    ensures Valid(equity[..|equity| - 1])
  {
  }

  lemma {:induction false} AsOfIff(equity: seq<Point>, day: int)
    requires Valid(equity)
    ensures AsOf(equity, day).Some? <==> equity[0].day <= day
    ensures AsOf(equity, day).Some? ==> AsOf(equity, day).value > 0.0
  {
    if |equity| > 1 {
      ValidPrefix(equity);
      DaysAscend(equity, 0, |equity| - 1);
      AsOfIff(equity[..|equity| - 1], day);
    } else if equity[0].day > day {
      assert AsOf(equity[..0], day) == None;
    }
  }

  function Growth(rates: seq<real>): real {
    if rates == [] then 1.0 else Growth(rates[..|rates| - 1]) * (1.0 + rates[|rates| - 1])
  }

  /** Multiplying on one more period moves the end of the product. */
  lemma OneMorePeriod(growth: real, grown: real, rate: real, first: real, start: real, end: real)
    requires first > 0.0 && start > 0.0 && growth == start / first && rate == end / start - 1.0
    requires grown == growth * (1.0 + rate)
    ensures grown == end / first
  {
    assert growth * first == start && (1.0 + rate) * start == end;
    Quotient(end, first, growth * (1.0 + rate));
  }

  lemma GrowthSnoc(rates: seq<real>, rate: real)
    ensures Growth(rates + [rate]) == Growth(rates) * (1.0 + rate)
  {
    assert (rates + [rate])[..|rates|] == rates;
  }

  lemma PeriodAdded(equity: seq<Point>, points: seq<int>, n: nat, start: real, end: real) returns (rate: real)
    requires Valid(equity) && n < |points| && start > 0.0
    requires AsOf(equity, points[n]) == Some(start) && EndValue(equity, points, n) == Some(end)
    ensures rate == end / start - 1.0 && Returns(equity, points, n + 1) == Returns(equity, points, n) + [rate]
  {
    rate := end / start - 1.0;
  }

  lemma PeriodCompounds(equity: seq<Point>, points: seq<int>, n: nat, first: real, start: real, end: real)
    requires Valid(equity) && n < |points| && first > 0.0 && start > 0.0
    requires AsOf(equity, points[n]) == Some(start) && EndValue(equity, points, n) == Some(end)
    requires Growth(Returns(equity, points, n)) == start / first
    ensures Growth(Returns(equity, points, n + 1)) == end / first
  {
    var rate := PeriodAdded(equity, points, n, start, end);
    GrowthSnoc(Returns(equity, points, n), rate);
    OneMorePeriod(Growth(Returns(equity, points, n)), Growth(Returns(equity, points, n + 1)), rate, first, start, end);
  }

  lemma EndsOnCurve(equity: seq<Point>, points: seq<int>, n: nat)
    requires Valid(equity) && Ascending(points) && n < |points| && AsOf(equity, points[n]).Some?
    requires points[|points| - 1] <= equity[|equity| - 1].day
    ensures EndValue(equity, points, n).Some? && AsOf(equity, points[n]).value > 0.0
  {
    AsOfIff(equity, points[n]);
    AsOfIff(equity, if n + 1 < |points| then points[n + 1] else equity[|equity| - 1].day);
  }

  lemma {:induction false} Telescopes(equity: seq<Point>, points: seq<int>, first: nat, n: nat, base: real)
    requires Valid(equity) && Ascending(points) && first <= n < |points|
    requires points[|points| - 1] <= equity[|equity| - 1].day
    requires AsOf(equity, points[first]) == Some(base)
    requires forall i :: 0 <= i < |points| ==> (AsOf(equity, points[i]).Some? <==> first <= i)
    ensures base > 0.0 && EndValue(equity, points, n).Some?
    ensures Growth(Returns(equity, points, n + 1)) == EndValue(equity, points, n).value / base
    decreases n
  {
    EndsOnCurve(equity, points, first);
    EndsOnCurve(equity, points, n);
    if n > first {
      Telescopes(equity, points, first, n - 1, base);
    } else {
      NoReturnsBefore(equity, points, first);
      Quotient(base, base, 1.0);
    }
    PeriodCompounds(equity, points, n, base, AsOf(equity, points[n]).value, EndValue(equity, points, n).value);
  }

  lemma {:induction false} NoReturnsBefore(equity: seq<Point>, points: seq<int>, n: nat)
    requires Valid(equity) && n <= |points| && forall i :: 0 <= i < n ==> AsOf(equity, points[i]).None?
    ensures Returns(equity, points, n) == []
    decreases n
  {
    if n > 0 {
      NoReturnsBefore(equity, points, n - 1);
    }
  }

  /** MAIN. For any dates, in any order and repeated at will, compounding the period returns gives the
      last value over the value as of the first rebalancing date the curve knows. */
  lemma ReturnsTelescope(equity: seq<Point>, dates: seq<int>, first: int)
    requires Valid(equity)
    requires first in dates && equity[0].day <= first <= equity[|equity| - 1].day
    requires forall d <- dates :: equity[0].day <= d ==> first <= d
    ensures var points := Points(dates, equity[|equity| - 1].day);
            && AsOf(equity, first).Some? && AsOf(equity, first).value > 0.0
            && Growth(Returns(equity, points, |points|)) == equity[|equity| - 1].value / AsOf(equity, first).value
  {
    var points := Points(dates, equity[|equity| - 1].day);
    PointsShape(dates, equity[|equity| - 1].day);
    var k :| 0 <= k < |points| && points[k] == first;
    AsOfIff(equity, first);
    forall i | 0 <= i < |points| ensures AsOf(equity, points[i]).Some? <==> k <= i {
      AsOfIff(equity, points[i]);
      assert points[i] in points;
    }
    assert points[|points| - 1] in points;
    Telescopes(equity, points, k, |points| - 1, AsOf(equity, first).value);
    assert EndValue(equity, points, |points| - 1) == Some(equity[|equity| - 1].value);
  }

  // ---------------------------------------------------------------------------------------------
  // The values themselves.

  /** Point i of the curve is the last one on or before the day. */
  predicate LastUpTo(equity: seq<Point>, day: int, i: int) {
    0 <= i < |equity| && equity[i].day <= day && (i + 1 < |equity| ==> day < equity[i + 1].day)
  }

  lemma {:induction false} AsOfIsLast(equity: seq<Point>, day: int, i: int)
    requires Valid(equity) && LastUpTo(equity, day, i)
    ensures AsOf(equity, day) == Some(equity[i].value)
  {
    if i < |equity| - 1 {
      ValidPrefix(equity);
      DaysAscend(equity, i + 1, |equity| - 1);
      AsOfIsLast(equity[..|equity| - 1], day, i);
    }
  }

  /** MAIN. One return for each point from the first that the curve knows on: the value of the last curve point up
      to the next rebalancing point, or up to the end, over that of the last up to this one, less one. */
  lemma {:induction false} RateIs(equity: seq<Point>, points: seq<int>, first: nat, n: nat, j: nat, a: int, b: int)
    requires Valid(equity) && Ascending(points) && first <= j < n <= |points|
    requires points[|points| - 1] <= equity[|equity| - 1].day
    requires forall i :: 0 <= i < |points| ==> (equity[0].day <= points[i] <==> first <= i)
    requires LastUpTo(equity, points[j], a)
    requires LastUpTo(equity, if j + 1 < |points| then points[j + 1] else equity[|equity| - 1].day, b)
    ensures |Returns(equity, points, n)| == n - first
    ensures Returns(equity, points, n)[j - first] == equity[b].value / equity[a].value - 1.0
    decreases n
  {
    AsOfIff(equity, points[n - 1]);
    EndsOnCurve(equity, points, n - 1);
    if j == n - 1 {
      AsOfIsLast(equity, points[j], a);
      AsOfIsLast(equity, if j + 1 < |points| then points[j + 1] else equity[|equity| - 1].day, b);
      ReturnsLength(equity, points, first, n - 1);
    } else {
      RateIs(equity, points, first, n - 1, j, a, b);
    }
  }

  lemma {:induction false} ReturnsLength(equity: seq<Point>, points: seq<int>, first: nat, n: nat)
    requires Valid(equity) && Ascending(points) && first <= n <= |points|
    requires points != [] ==> points[|points| - 1] <= equity[|equity| - 1].day
    requires forall i :: 0 <= i < |points| ==> (equity[0].day <= points[i] <==> first <= i)
    ensures |Returns(equity, points, n)| == n - first
    decreases n
  {
    if n > first {
      AsOfIff(equity, points[n - 1]);
      EndsOnCurve(equity, points, n - 1);
      ReturnsLength(equity, points, first, n - 1);
    } else if first > 0 {
      forall i | 0 <= i < first ensures AsOf(equity, points[i]).None? {
        AsOfIff(equity, points[i]);
      }
      NoReturnsBefore(equity, points, first);
    }
  }

  /** MAIN. Compounding the returns gives the curve's last value over the value of its last point up to the first
      rebalancing date that it knows. */
  lemma ReturnsTelescopeAt(equity: seq<Point>, dates: seq<int>, first: int, i: int)
    requires Valid(equity) && LastUpTo(equity, first, i)
    requires first in dates && first <= equity[|equity| - 1].day
    requires forall d <- dates :: equity[0].day <= d ==> first <= d
    ensures var points := Points(dates, equity[|equity| - 1].day);
            Growth(Returns(equity, points, |points|)) == equity[|equity| - 1].value / equity[i].value
  {
    DaysAscend(equity, 0, i);
    AsOfIsLast(equity, first, i);
    ReturnsTelescope(equity, dates, first);
  }
}
