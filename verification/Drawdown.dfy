/** Drawdown metrics of an equity curve: single passes over a running maximum, proved equal to their
    quadratic definitions. Values are exact; rounding is not modelled. */
module Drawdown {
  import opened Prelude

  datatype Point = Point(day: int, value: real)

  datatype DrawdownDuration = DrawdownDuration(maxDays: int, currentDays: int, isRecovered: bool)

  /** The contract on an equity curve: not empty, days ascending, values positive. */
  predicate Valid(equity: seq<Point>) {
    && equity != []
    && (forall i :: 0 < i < |equity| ==> equity[i - 1].day <= equity[i].day)
    && (forall i :: 0 <= i < |equity| ==> equity[i].value > 0.0)
  }

  // ---------------------------------------------------------------------------------------------
  // Definitions without a running maximum.

  /** Some earlier value was higher. */
  predicate Underwater(equity: seq<Point>, i: int)
    requires 0 <= i < |equity|
  {
    exists j :: 0 <= j < i && equity[j].value > equity[i].value
  }

  /** The last point before i that was not underwater. */
  function PeakBefore(equity: seq<Point>, i: int): (p: int)
    requires 0 <= i < |equity| && Underwater(equity, i)
    ensures 0 <= p < i && !Underwater(equity, p)
    ensures forall j :: p < j <= i ==> Underwater(equity, j)
    decreases i
  {
    if Underwater(equity, i - 1) then PeakBefore(equity, i - 1) else i - 1
  }

  /** The first point after i that is not underwater, or the last point if there is none. */
  function EndOfDrawdown(equity: seq<Point>, i: int): (r: int)
    requires 0 <= i < |equity| && Underwater(equity, i)
    ensures i <= r < |equity| && (Underwater(equity, r) ==> r == |equity| - 1)
    ensures forall j :: i <= j < r ==> Underwater(equity, j)
    decreases |equity| - i
  {
    if i == |equity| - 1 then i
    else if Underwater(equity, i + 1) then EndOfDrawdown(equity, i + 1) else i + 1
  }

  /** How long the drawdown around an underwater point lasted. */
  function Span(equity: seq<Point>, i: int): int
    requires 0 <= i < |equity| && Underwater(equity, i)
  {
    equity[EndOfDrawdown(equity, i)].day - equity[PeakBefore(equity, i)].day
  }

  /** days is the longest span so far, over the points before n. */
  ghost predicate LongestSpan(equity: seq<Point>, n: int, days: int)
    requires 0 <= n <= |equity|
  {
    && (forall i {:trigger Span(equity, i)} :: 0 <= i < n && Underwater(equity, i) ==> Span(equity, i) <= days)
    && days >= 0
    && (days > 0 ==> exists i {:trigger Span(equity, i)} ::
          0 <= i < n && Underwater(equity, i) && Span(equity, i) == days)
  }

  /** Loss from an earlier point to a later one, relative to the earlier. */
  function Drop(equity: seq<Point>, i: int, j: int): real
    requires 0 <= i <= j < |equity| && equity[i].value > 0.0
  {
    (equity[i].value - equity[j].value) / equity[i].value
  }

  // ---------------------------------------------------------------------------------------------
  // The passes.

  /** m is the largest value up to i. */
  ghost predicate IsMaxUpTo(equity: seq<Point>, i: int, m: real)
    requires 0 <= i < |equity|
  {
    && (forall j :: 0 <= j <= i ==> equity[j].value <= m)
    && (exists j :: 0 <= j <= i && equity[j].value == m)
  }

  method RunningMax(equity: seq<Point>) returns (maxima: seq<real>)
    ensures |maxima| == |equity|
    ensures forall i :: 0 <= i < |equity| ==> IsMaxUpTo(equity, i, maxima[i])
  {
    maxima := [];
    var n := 0;
    while n < |equity|
      invariant 0 <= n <= |equity| && |maxima| == n
      invariant forall i :: 0 <= i < n ==> IsMaxUpTo(equity, i, maxima[i])
    {
      var m := equity[n].value;
      if n > 0 && maxima[n - 1] > m {
        m := maxima[n - 1];
        assert IsMaxUpTo(equity, n - 1, m);
      } else {
        assert n > 0 ==> IsMaxUpTo(equity, n - 1, maxima[n - 1]);
      }
      assert IsMaxUpTo(equity, n, m);
      maxima := maxima + [m];
      n := n + 1;
    }
  }

  lemma UnderwaterIff(equity: seq<Point>, i: int, m: real)
    requires 0 <= i < |equity| && IsMaxUpTo(equity, i, m)
    ensures equity[i].value < m <==> Underwater(equity, i)
  {
    if equity[i].value < m {
      var j :| 0 <= j <= i && equity[j].value == m;
      assert equity[j].value > equity[i].value;
    }
  }

  method UnderwaterFlags(equity: seq<Point>) returns (underwater: seq<bool>)
    ensures |underwater| == |equity|
    ensures forall i :: 0 <= i < |equity| ==> (underwater[i] <==> Underwater(equity, i))
  {
    var maxima := RunningMax(equity);
    underwater := seq(|equity|, i requires 0 <= i < |equity| == |maxima| => equity[i].value < maxima[i]);
    forall i | 0 <= i < |equity| ensures underwater[i] <==> Underwater(equity, i) {
      UnderwaterIff(equity, i, maxima[i]);
    }
  }

  /** Every point of a maximal underwater stretch spans that stretch. */
  lemma StretchSpan(equity: seq<Point>, start: int, end: int, i: int)
    requires 0 < start <= i < end <= |equity|
    requires !Underwater(equity, start - 1) && (end < |equity| ==> !Underwater(equity, end))
    requires forall j :: start <= j < end ==> Underwater(equity, j)
    ensures Span(equity, i) == equity[if end < |equity| then end else |equity| - 1].day - equity[start - 1].day
  {
    var p, r := PeakBefore(equity, i), EndOfDrawdown(equity, i);
    assert p == start - 1;
  }

  lemma DaysAscend(equity: seq<Point>, i: int, j: int)
    requires Valid(equity) && 0 <= i <= j < |equity|
    ensures equity[i].day <= equity[j].day
    decreases j - i
  {
    if i < j {
      DaysAscend(equity, i, j - 1);
    }
  }

  /** From the peak before a stretch to its recovery, or to the end of the curve. */
  function StretchDays(equity: seq<Point>, start: int, end: int): int
    requires 0 < start < end <= |equity|
  {
    equity[if end < |equity| then end else |equity| - 1].day - equity[start - 1].day
  }

  lemma StretchCounts(equity: seq<Point>, start: int, end: int, before: int)
    requires Valid(equity) && 0 < start < end <= |equity|
    requires !Underwater(equity, start - 1) && (end < |equity| ==> !Underwater(equity, end))
    requires forall j :: start <= j < end ==> Underwater(equity, j)
    requires LongestSpan(equity, start, before)
    ensures LongestSpan(equity, end, Max(before, StretchDays(equity, start, end)))
    ensures end == |equity| ==> Current(equity, end, StretchDays(equity, start, end), false)
    ensures end < |equity| ==> Current(equity, end, 0, true)
  {
    var days := StretchDays(equity, start, end);
    DaysAscend(equity, start - 1, if end < |equity| then end else |equity| - 1);
    forall i | start <= i < end ensures Underwater(equity, i) && Span(equity, i) == days {
      StretchSpan(equity, start, end, i);
    }
    assert Span(equity, start) == days;
  }

  /** What is known about the open drawdown when the points before n have been scanned. */
  predicate Current(equity: seq<Point>, n: int, currentDays: int, isRecovered: bool)
    requires equity != []
  {
    var last := |equity| - 1;
    if n == |equity| && Underwater(equity, last) then !isRecovered && currentDays == Span(equity, last)
    else isRecovered && currentDays == 0
  }

  /** The end of the underwater segment that starts here. */
  method SegmentEnd(underwater: seq<bool>, start: int) returns (end: int)
    requires 0 <= start < |underwater| && underwater[start]
    ensures start < end <= |underwater| && (end < |underwater| ==> !underwater[end])
    ensures forall j :: start <= j < end ==> underwater[j]
  {
    end := start;
    while end < |underwater| && underwater[end]
      invariant start <= end <= |underwater| && (end == start ==> underwater[end])
      invariant forall j :: start <= j < end ==> underwater[j]
    {
      end := end + 1;
    }
  }

  lemma SkipCounts(equity: seq<Point>, pos: int, days: int)
    requires Valid(equity) && 0 <= pos < |equity| && !Underwater(equity, pos) && LongestSpan(equity, pos, days)
    ensures LongestSpan(equity, pos + 1, days) && Current(equity, pos + 1, 0, true)
  {
  }

  /** Walks one underwater segment: where it ends, how long it lasted, and whether it stays open. */
  method WalkSegment(equity: seq<Point>, underwater: seq<bool>, start: int, ghost before: int)
    returns (end: int, days: int)
    requires Valid(equity) && |underwater| == |equity| && 0 < start < |equity| && underwater[start]
    requires forall i :: 0 <= i < |equity| ==> (underwater[i] <==> Underwater(equity, i))
    requires !underwater[start - 1] && LongestSpan(equity, start, before)
    ensures start < end <= |equity| && (end < |equity| ==> !underwater[end])
    ensures LongestSpan(equity, end, Max(before, days))
    ensures Current(equity, end, if end < |equity| then 0 else days, end < |equity|)
  {
    end := SegmentEnd(underwater, start);
    var peakPos := Max(start - 1, 0);
    if end < |equity| {
      days := equity[end].day - equity[peakPos].day;
    } else {
      days := equity[|equity| - 1].day - equity[peakPos].day;
    }
    StretchCounts(equity, start, end, before);
  }

  method ScanDrawdowns(equity: seq<Point>) returns (maxDays: int, currentDays: int, isRecovered: bool)
    requires Valid(equity)
    ensures LongestSpan(equity, |equity|, maxDays) && Current(equity, |equity|, currentDays, isRecovered)
  {
    var underwater := UnderwaterFlags(equity);
    maxDays, currentDays, isRecovered := 0, 0, true;
    var pos, total := 0, |underwater|;
    while pos < total
      invariant 0 <= pos <= total
      invariant pos == 0 || pos == total || !underwater[pos - 1] || !underwater[pos]
      invariant LongestSpan(equity, pos, maxDays) && Current(equity, pos, currentDays, isRecovered)
    {
      if !underwater[pos] {
        SkipCounts(equity, pos, maxDays);
        pos := pos + 1;
      } else {
        var days;
        pos, days := WalkSegment(equity, underwater, pos, maxDays);
        if pos == total {
          currentDays, isRecovered := days, false;
        }
        maxDays := Max(maxDays, days);
      }
    }
  }

  /** None when the curve breaks its contract. */
  method CalcDrawdownDuration(equity: seq<Point>) returns (result: Option<DrawdownDuration>)
    ensures result.None? <==> !Valid(equity)
    ensures result.Some? ==>
              && LongestSpan(equity, |equity|, result.value.maxDays)
              && (result.value.isRecovered <==> !Underwater(equity, |equity| - 1))
              && result.value.currentDays
                 == if Underwater(equity, |equity| - 1) then Span(equity, |equity| - 1) else 0
  {
    if !Valid(equity) {
      return None;
    }
    if |equity| < 2 {
      return Some(DrawdownDuration(0, 0, true));
    }
    var maxDays, currentDays, isRecovered := ScanDrawdowns(equity);
    result := Some(DrawdownDuration(maxDays, currentDays, isRecovered));
  }

  // ---------------------------------------------------------------------------------------------
  // Maximum drawdown.

  lemma SmallerQuotient(low: real, high: real, value: real)
    requires 0.0 < low <= high && 0.0 < value
    ensures value / high <= value / low
  {
    var a, b := value / high, value / low;
    assert a * high == value == b * low && b > 0.0;
    Scale(low, high, b);
    assert low * b == b * low && high * b == b * high;
    Unscale(a, b, high);
  }

  lemma DropFromMax(low: real, high: real, value: real)
    requires 0.0 < low <= high && 0.0 < value
    ensures (low - value) / low <= (high - value) / high
  {
    OneMinus(value, low);
    OneMinus(value, high);
    SmallerQuotient(low, high, value);
  }

  lemma OneMinus(value: real, base: real)
    requires base > 0.0
    ensures (base - value) / base == 1.0 - value / base
  {
    var q := value / base;
    assert q * base == value;
    Quotient(base - value, base, 1.0 - q);
  }

  /** In percent, before rounding: the deepest drop between any two points, none deeper, and it happens. */
  method CalcMaxDrawdown(equity: seq<Point>) returns (result: Option<real>)
    ensures result.None? <==> !Valid(equity)
    ensures result.Some? ==>
              && (forall i, j :: 0 <= i <= j < |equity| ==> Drop(equity, i, j) * 100.0 <= result.value)
              && (exists i, j :: 0 <= i <= j < |equity| && Drop(equity, i, j) * 100.0 == result.value)
  {
    if !Valid(equity) {
      return None;
    }
    var maxima := RunningMax(equity);
    assert IsMaxUpTo(equity, 0, maxima[0]);
    var lowest := (equity[0].value - maxima[0]) / maxima[0];
    ghost var peak, trough := 0, 0;
    var n := 1;
    while n < |equity|
      invariant 1 <= n <= |equity| && 0 <= peak <= trough < n
      invariant lowest == -Drop(equity, peak, trough) && lowest <= 0.0
      invariant forall i, j :: 0 <= i <= j < n ==> Drop(equity, i, j) <= -lowest
    {
      assert IsMaxUpTo(equity, n, maxima[n]);
      ghost var top :| 0 <= top <= n && equity[top].value == maxima[n];
      var drawdown := (equity[n].value - maxima[n]) / maxima[n];
      assert drawdown == -Drop(equity, top, n) by {
        Negated(equity[n].value, maxima[n]);
      }
      forall i | 0 <= i <= n ensures Drop(equity, i, n) <= -drawdown {
        DropFromMax(equity[i].value, maxima[n], equity[n].value);
      }
      if drawdown < lowest {
        lowest, peak, trough := drawdown, top, n;
      }
      n := n + 1;
    }
    result := Some((if lowest < 0.0 then -lowest else lowest) * 100.0);
    assert Drop(equity, peak, trough) * 100.0 == result.value;
  }

  lemma Negated(value: real, max: real)
    requires max > 0.0
    ensures (value - max) / max == -((max - value) / max)
  {
  }
}
