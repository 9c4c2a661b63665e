/** Daily net asset value from account snapshots and closes. The pipeline sorts the snapshots, lines
    their columns up with the trading days, carries them forward and prices them; the theorem says it
    simply uses the latest snapshot of each day. Values are exact. */
module NavAssembly {
  import opened Prelude
  import opened Prices
  import opened AscendingLists

  datatype Snapshot = Snapshot(date: Day, cash: real, holdings: map<Code, int>)

  /** Closes by trading day, one per stock; the days are the ascending index of the frame. */
  datatype CloseFrame = CloseFrame(index: seq<Day>, codes: seq<Code>, closes: map<Day, seq<real>>)

  ghost predicate Complete(frame: CloseFrame) {
    && Ascending(frame.index)
    && (forall d <- frame.index :: d in frame.closes && |frame.closes[d]| == |frame.codes|)
  }

  // ---------------------------------------------------------------------------------------------
  // Columns. A column is a list of optional values along an index; None is a gap.

  function Position(index: seq<Day>, d: Day): (i: nat)
    ensures i <= |index| && (i < |index| ==> index[i] == d) && (i == |index| ==> d !in index)
  {
    if index == [] then 0
    else if index[|index| - 1] == d then |index| - 1
    else
      var i := Position(index[..|index| - 1], d);
      assert index == index[..|index| - 1] + [index[|index| - 1]];
      if i == |index| - 1 then |index| else i
  }

  /** The column lined up with another index: days it does not have are gaps. */
  function Reindex<T>(index: seq<Day>, column: seq<Option<T>>, target: seq<Day>): seq<Option<T>>
    requires |index| == |column|
  {
    seq(|target|, i requires 0 <= i < |target| =>
      var p := Position(index, target[i]); if p < |column| then column[p] else None)
  }

  /** Every gap takes the value before it. */
  function ForwardFill<T>(column: seq<Option<T>>): (filled: seq<Option<T>>)
    ensures |filled| == |column|
  {
    if column == [] then []
    else
      var front, last := ForwardFill(column[..|column| - 1]), column[|column| - 1];
      front + [if last.Some? || front == [] then last else front[|front| - 1]]
  }

  function FillGaps<T>(column: seq<Option<T>>, default: T): seq<T> {
    seq(|column|, i requires 0 <= i < |column| => if column[i].Some? then column[i].value else default)
  }

  function Union(a: seq<Day>, b: seq<Day>): seq<Day> {
    if b == [] then a else Insert(Union(a, b[..|b| - 1]), b[|b| - 1])
  }

  /** Snapshot values carried along the trading days. */
  function Carried<T>(dates: seq<Day>, values: seq<T>, days: seq<Day>, default: T): seq<T>
    requires |dates| == |values|
  {
    var merged := Union(dates, days);
    var column := seq(|values|, i requires 0 <= i < |values| => Some(values[i]));
    FillGaps(Reindex(merged, ForwardFill(Reindex(dates, column, merged)), days), default)
  }

  // ---------------------------------------------------------------------------------------------
  // The pipeline.

  /** Sorted by date; snapshots of one date keep their order. */
  function InsertByDate(sorted: seq<Snapshot>, s: Snapshot): seq<Snapshot> {
    if sorted == [] || sorted[|sorted| - 1].date <= s.date then sorted + [s]
    else InsertByDate(sorted[..|sorted| - 1], s) + [sorted[|sorted| - 1]]
  }

  function SortByDate(snapshots: seq<Snapshot>): seq<Snapshot> {
    if snapshots == [] then []
    else InsertByDate(SortByDate(snapshots[..|snapshots| - 1]), snapshots[|snapshots| - 1])
  }

  function QuantityOf(s: Snapshot, code: Code): int {
    if code in s.holdings then s.holdings[code] else 0
  }

  function Row(s: Snapshot, codes: seq<Code>): seq<int> {
    seq(|codes|, i requires 0 <= i < |codes| => QuantityOf(s, codes[i]))
  }

  /** The days of the index from the first to the last. */
  function Between(index: seq<Day>, first: Day, last: Day): seq<Day> {
    if index == [] then []
    else
      var front, d := Between(index[..|index| - 1], first, last), index[|index| - 1];
      if first <= d <= last then front + [d] else front
  }

  function Dot(closes: seq<real>, row: seq<int>): real
    requires |closes| == |row|
  {
    if closes == [] then 0.0
    else Dot(closes[..|closes| - 1], row[..|row| - 1]) + closes[|closes| - 1] * row[|row| - 1] as real
  }

  function DatesOf(snapshots: seq<Snapshot>): seq<Day> {
    seq(|snapshots|, i requires 0 <= i < |snapshots| => snapshots[i].date)
  }

  function RowsOf(snapshots: seq<Snapshot>, codes: seq<Code>): seq<seq<int>> {
    seq(|snapshots|, i requires 0 <= i < |snapshots| => Row(snapshots[i], codes))
  }

  function CashesOf(snapshots: seq<Snapshot>): seq<real> {
    seq(|snapshots|, i requires 0 <= i < |snapshots| => snapshots[i].cash)
  }

  function Zeros(codes: seq<Code>): seq<int> {
    seq(|codes|, i => 0)
  }

  /** The trading days and their values, or None if there are no snapshots, no closes, or no trading day
      in the period. */
  ghost function AssembleEquity(snapshots: seq<Snapshot>, frame: CloseFrame, asOf: Day): Option<seq<(Day, real)>>
    requires Complete(frame)
  {
    if snapshots == [] || frame.index == [] || frame.codes == [] then None
    else
      var ordered := SortByDate(snapshots);
      SortedNotEmpty(snapshots);
      var days := Between(frame.index, ordered[0].date, asOf);
      if days == [] then None
      else
        var quantities := Carried(DatesOf(ordered), RowsOf(ordered, frame.codes), days, Zeros(frame.codes));
        var cash := Carried(DatesOf(ordered), CashesOf(ordered), days, 0.0);
        Some(seq(|days|, i requires 0 <= i < |days| => (days[i], Priced(frame, days[i], quantities[i]) + cash[i])))
  }

  function Priced(frame: CloseFrame, day: Day, row: seq<int>): real {
    if day in frame.closes && |frame.closes[day]| == |row| then Dot(frame.closes[day], row) else 0.0
  }

  lemma SortedNotEmpty(snapshots: seq<Snapshot>)
    requires snapshots != []
    ensures SortByDate(snapshots) != []
  {
  }

  // ---------------------------------------------------------------------------------------------
  // Carrying forward is looking up the latest.

  /** The value of the last date at or before the day. */
  function Latest<T>(dates: seq<Day>, values: seq<T>, day: Day): Option<T>
    requires |dates| == |values|
  {
    if dates == [] then None
    else if dates[|dates| - 1] <= day then Some(values[|values| - 1])
    else Latest(dates[..|dates| - 1], values[..|values| - 1], day)
  }

  lemma {:induction false} LatestAt<T>(dates: seq<Day>, values: seq<T>, day: Day, i: nat)
    requires |dates| == |values| && Ascending(dates) && i < |dates|
    requires dates[i] <= day && (i + 1 < |dates| ==> day < dates[i + 1])
    ensures Latest(dates, values, day) == Some(values[i])
  {
    if i + 1 < |dates| {
      LatestAt(dates[..|dates| - 1], values[..|values| - 1], day, i);
    }
  }

  /** No date between two days: both see the same value. */
  lemma {:induction false} LatestSame<T>(dates: seq<Day>, values: seq<T>, d: Day, e: Day)
    requires |dates| == |values| && d <= e && forall x <- dates :: x <= d || e < x
    ensures Latest(dates, values, d) == Latest(dates, values, e)
  {
    if dates != [] {
      var front, last := dates[..|dates| - 1], dates[|dates| - 1];
      assert dates == front + [last];
      assert last in dates;
      forall x | x in front ensures x in dates {
      }
      LatestSame(front, values[..|values| - 1], d, e);
    }
  }

  lemma {:induction false} LatestNone<T>(dates: seq<Day>, values: seq<T>, day: Day)
    requires |dates| == |values| && forall x <- dates :: day < x
    ensures Latest(dates, values, day) == None
  {
    if dates != [] {
      var front, last := dates[..|dates| - 1], dates[|dates| - 1];
      assert dates == front + [last];
      assert last in dates;
      forall x | x in front ensures x in dates {
      }
      LatestNone(front, values[..|values| - 1], day);
    }
  }

  lemma {:induction false} FilledAt<T>(column: seq<Option<T>>, i: nat)
    requires i < |column|
    ensures ForwardFill(column)[i]
         == if column[i].Some? || i == 0 then column[i] else ForwardFill(column)[i - 1]
  {
    if i < |column| - 1 {
      FilledAt(column[..|column| - 1], i);
    }
  }

  /** On an index that has all the dates, filling forward finds the latest value. */
  lemma {:induction false} FillFindsLatest<T>(dates: seq<Day>, values: seq<T>, column: seq<Option<T>>, merged: seq<Day>,
                                              i: nat)
    requires |dates| == |values| == |column| && Ascending(dates) && Ascending(merged) && i < |merged|
    requires forall j :: 0 <= j < |dates| ==> column[j] == Some(values[j])
    requires forall d <- dates :: d in merged
    ensures ForwardFill(Reindex(dates, column, merged))[i] == Latest(dates, values, merged[i])
  {
    var lined := Reindex(dates, column, merged);
    FilledAt(lined, i);
    var p := Position(dates, merged[i]);
    if p < |dates| {
      LatestAt(dates, values, merged[i], p);
    } else if i > 0 {
      FillFindsLatest(dates, values, column, merged, i - 1);
      forall x | x in dates ensures x <= merged[i - 1] || merged[i] < x {
        var m :| 0 <= m < |merged| && merged[m] == x;
        assert m <= i - 1 || m == i || i < m;
      }
      LatestSame(dates, values, merged[i - 1], merged[i]);
    } else {
      forall x | x in dates ensures merged[0] < x {
        var m :| 0 <= m < |merged| && merged[m] == x;
      }
      LatestNone(dates, values, merged[0]);
    }
  }

  lemma {:induction false} UnionShape(a: seq<Day>, b: seq<Day>)
    requires Ascending(a)
    ensures Ascending(Union(a, b))
    ensures forall x :: x in Union(a, b) <==> x in a || x in b
  {
    if b != [] {
      var front, d := b[..|b| - 1], b[|b| - 1];
      UnionShape(a, front);
      InsertAscends(Union(a, front), d);
      assert b == front + [d];
      forall x: int ensures x in Union(a, b) <==> x in Union(a, front) || x == d {
        InsertMembers(Union(a, front), d, x);
      }
    }
  }

  lemma CarriedIsLatest<T>(dates: seq<Day>, values: seq<T>, days: seq<Day>, default: T, i: nat)
    requires |dates| == |values| && Ascending(dates) && i < |days|
    ensures |Carried(dates, values, days, default)| == |days|
    ensures var latest := Latest(dates, values, days[i]);
            Carried(dates, values, days, default)[i] == if latest.Some? then latest.value else default
  {
    var merged := Union(dates, days);
    var column := seq(|values|, j requires 0 <= j < |values| => Some(values[j]));
    UnionShape(dates, days);
    var day := days[i];
    assert day in days;
    assert day in merged;
    var p := Position(merged, days[i]);
    FillFindsLatest(dates, values, column, merged, p);
  }

  // ---------------------------------------------------------------------------------------------
  // Sorting snapshots of distinct dates, and selecting the period.

  ghost predicate DistinctDates(snapshots: seq<Snapshot>) {
    forall i, j :: 0 <= i < j < |snapshots| ==> snapshots[i].date != snapshots[j].date
  }

  ghost predicate DatesAscend(snapshots: seq<Snapshot>) {
    forall i, j :: 0 <= i < j < |snapshots| ==> snapshots[i].date < snapshots[j].date
  }

  lemma {:induction false} InsertByDateShape(sorted: seq<Snapshot>, s: Snapshot)
    requires DatesAscend(sorted) && forall t <- sorted :: t.date != s.date
    ensures DatesAscend(InsertByDate(sorted, s))
    ensures forall t :: t in InsertByDate(sorted, s) <==> t in sorted || t == s
  {
    if sorted != [] && sorted[|sorted| - 1].date > s.date {
      var front, last := sorted[..|sorted| - 1], sorted[|sorted| - 1];
      assert sorted == front + [last];
      forall t | t in front ensures t.date != s.date && t.date < last.date {
        assert t in sorted;
      }
      InsertByDateShape(front, s);
      var inserted := InsertByDate(front, s);
      forall i | 0 <= i < |inserted| ensures inserted[i].date < last.date {
        assert inserted[i] in inserted;
      }
    } else if sorted != [] {
      assert sorted[|sorted| - 1] in sorted;
    }
  }

  lemma {:induction false} SortShape(snapshots: seq<Snapshot>)
    requires DistinctDates(snapshots)
    ensures DatesAscend(SortByDate(snapshots))
    ensures forall t :: t in SortByDate(snapshots) <==> t in snapshots
  {
    if snapshots != [] {
      var front, last := snapshots[..|snapshots| - 1], snapshots[|snapshots| - 1];
      assert snapshots == front + [last];
      SortShape(front);
      forall t | t in SortByDate(front) ensures t.date != last.date {
        var i :| 0 <= i < |front| && front[i] == t;
        assert snapshots[i] == t;
      }
      InsertByDateShape(SortByDate(front), last);
    }
  }

  lemma DropLastSnapshot(a: seq<Snapshot>, s: Snapshot)
    requires DatesAscend(a) && a != []
    ensures s in a[..|a| - 1] <==> s in a && s != a[|a| - 1]
  {
    assert a == a[..|a| - 1] + [a[|a| - 1]];
  }

  lemma {:induction false} DatesAscendUnique(a: seq<Snapshot>, b: seq<Snapshot>)
    requires DatesAscend(a) && DatesAscend(b) && forall t :: t in a <==> t in b
    ensures a == b
  {
    assert a != [] ==> a[0] in a;
    assert b != [] ==> b[0] in b;
    if a != [] && b != [] {
      var x, y, a', b' := a[|a| - 1], b[|b| - 1], a[..|a| - 1], b[..|b| - 1];
      assert x in a && y in b;
      assert x == y;
      forall t ensures t in a' <==> t in b' {
        DropLastSnapshot(a, t);
        DropLastSnapshot(b, t);
      }
      DatesAscendUnique(a', b');
      assert a == a' + [x] && b == b' + [y];
    }
  }

  lemma {:induction false} BetweenShape(index: seq<Day>, first: Day, last: Day)
    requires Ascending(index)
    ensures Ascending(Between(index, first, last))
    ensures forall d :: d in Between(index, first, last) <==> d in index && first <= d <= last
  {
    if index != [] {
      var front, e := index[..|index| - 1], index[|index| - 1];
      assert index == front + [e];
      BetweenShape(front, first, last);
      var chosen := Between(front, first, last);
      forall i | 0 <= i < |chosen| ensures chosen[i] < e {
        assert chosen[i] in chosen;
        assert chosen[i] in front;
      }
    }
  }

  // ---------------------------------------------------------------------------------------------
  // The theorem.

  ghost predicate LatestOnOrBefore(snapshots: seq<Snapshot>, day: Day, s: Snapshot) {
    s in snapshots && s.date <= day && forall t <- snapshots :: t.date <= day ==> t.date <= s.date
  }

  /** The days that get a value: trading days up to the last date that have a snapshot behind them. */
  ghost predicate Covered(snapshots: seq<Snapshot>, frame: CloseFrame, asOf: Day, day: Day) {
    day in frame.index && day <= asOf && exists s :: s in snapshots && s.date <= day
  }

  lemma CoveredIsBetween(snapshots: seq<Snapshot>, frame: CloseFrame, asOf: Day, day: Day)
    requires Complete(frame) && DistinctDates(snapshots) && snapshots != []
    ensures SortByDate(snapshots) != []
    ensures Covered(snapshots, frame, asOf, day)
        <==> day in Between(frame.index, SortByDate(snapshots)[0].date, asOf)
  {
    SortedNotEmpty(snapshots);
    SortShape(snapshots);
    var ordered := SortByDate(snapshots);
    BetweenShape(frame.index, ordered[0].date, asOf);
    assert ordered[0] in ordered;
    if Covered(snapshots, frame, asOf, day) {
      var s :| s in snapshots && s.date <= day;
      assert s in ordered;
    }
  }

  /** Nothing is assembled exactly when there is no stock or no day to value. */
  lemma RefusedIff(snapshots: seq<Snapshot>, frame: CloseFrame, asOf: Day)
    requires Complete(frame) && DistinctDates(snapshots)
    ensures AssembleEquity(snapshots, frame, asOf).None?
        <==> frame.codes == [] || forall d :: !Covered(snapshots, frame, asOf, d)
  {
    if snapshots != [] {
      forall d: Day ensures Covered(snapshots, frame, asOf, d)
        <==> d in Between(frame.index, SortByDate(snapshots)[0].date, asOf) {
        CoveredIsBetween(snapshots, frame, asOf, d);
      }
      SortedNotEmpty(snapshots);
      var days := Between(frame.index, SortByDate(snapshots)[0].date, asOf);
      assert days != [] ==> days[0] in days;
    }
  }

  /** The valued days are the covered trading days in order. */
  lemma ValuedDays(snapshots: seq<Snapshot>, frame: CloseFrame, asOf: Day)
    requires Complete(frame) && DistinctDates(snapshots)
    requires AssembleEquity(snapshots, frame, asOf).Some?
    ensures var equity := AssembleEquity(snapshots, frame, asOf).value;
            && (forall i, j :: 0 <= i < j < |equity| ==> equity[i].0 < equity[j].0)
            && (forall d :: Covered(snapshots, frame, asOf, d)
                       <==> exists k :: 0 <= k < |equity| && equity[k].0 == d)
  {
    var equity := AssembleEquity(snapshots, frame, asOf).value;
    SortedNotEmpty(snapshots);
    var days := Between(frame.index, SortByDate(snapshots)[0].date, asOf);
    BetweenShape(frame.index, SortByDate(snapshots)[0].date, asOf);
    assert |equity| == |days| && forall k :: 0 <= k < |days| ==> equity[k].0 == days[k];
    forall d: Day ensures Covered(snapshots, frame, asOf, d) <==> exists k :: 0 <= k < |equity| && equity[k].0 == d {
      CoveredIsBetween(snapshots, frame, asOf, d);
      if d in days {
        var k :| 0 <= k < |days| && days[k] == d;
        assert equity[k].0 == d;
      }
    }
  }

  /** In a date-ordered list, the values carried to a day are those of the latest snapshot. */
  lemma CarriedFromLatest(ordered: seq<Snapshot>, codes: seq<Code>, days: seq<Day>, k: nat, s: Snapshot)
    requires DatesAscend(ordered) && k < |days| && LatestOnOrBefore(ordered, days[k], s)
    ensures |Carried(DatesOf(ordered), RowsOf(ordered, codes), days, Zeros(codes))| == |days|
    ensures |Carried(DatesOf(ordered), CashesOf(ordered), days, 0.0)| == |days|
    ensures Carried(DatesOf(ordered), RowsOf(ordered, codes), days, Zeros(codes))[k] == Row(s, codes)
    ensures Carried(DatesOf(ordered), CashesOf(ordered), days, 0.0)[k] == s.cash
  {
    var dates, rows, cashes := DatesOf(ordered), RowsOf(ordered, codes), CashesOf(ordered);
    var j :| 0 <= j < |ordered| && ordered[j] == s;
    assert j + 1 < |ordered| ==> ordered[j + 1] in ordered;
    LatestAt(dates, rows, days[k], j);
    LatestAt(dates, cashes, days[k], j);
    CarriedIsLatest(dates, rows, days, Zeros(codes), k);
    CarriedIsLatest(dates, cashes, days, 0.0, k);
  }

  lemma SortingKeepsLatest(snapshots: seq<Snapshot>, day: Day, s: Snapshot)
    requires DistinctDates(snapshots) && LatestOnOrBefore(snapshots, day, s)
    ensures LatestOnOrBefore(SortByDate(snapshots), day, s)
  {
    SortShape(snapshots);
  }

  /** One amount per stock: its close times how much of it the snapshot holds, nothing if it is missing. */
  ghost predicate AreAmounts(amounts: seq<real>, closes: seq<real>, s: Snapshot, codes: seq<Code>)
    requires |closes| == |codes|
  {
    |amounts| == |codes| && forall i :: 0 <= i < |codes| ==>
      amounts[i] == if codes[i] in s.holdings then closes[i] * s.holdings[codes[i]] as real else 0.0
  }

  lemma {:induction false} DotIsSum(closes: seq<real>, s: Snapshot, codes: seq<Code>, amounts: seq<real>)
    requires |closes| == |codes| && AreAmounts(amounts, closes, s, codes)
    ensures Dot(closes, Row(s, codes)) == Sum(amounts)
  {
    if codes != [] {
      var n := |codes| - 1;
      DotIsSum(closes[..n], s, codes[..n], amounts[..n]);
      assert Row(s, codes)[..n] == Row(s, codes[..n]);
    }
  }

  lemma ListAmounts(closes: seq<real>, s: Snapshot, codes: seq<Code>) returns (amounts: seq<real>)
    requires |closes| == |codes|
    ensures AreAmounts(amounts, closes, s, codes) && Dot(closes, Row(s, codes)) == Sum(amounts)
  {
    amounts := seq(|codes|, i requires 0 <= i < |codes| =>
      if codes[i] in s.holdings then closes[i] * s.holdings[codes[i]] as real else 0.0);
    DotIsSum(closes, s, codes, amounts);
  }

  lemma ValueOfLatest(snapshots: seq<Snapshot>, frame: CloseFrame, asOf: Day, k: nat, s: Snapshot)
    requires Complete(frame) && DistinctDates(snapshots)
    requires AssembleEquity(snapshots, frame, asOf).Some? && k < |AssembleEquity(snapshots, frame, asOf).value|
    requires LatestOnOrBefore(snapshots, AssembleEquity(snapshots, frame, asOf).value[k].0, s)
    ensures var (day, value) := AssembleEquity(snapshots, frame, asOf).value[k];
            day in frame.index && value == Dot(frame.closes[day], Row(s, frame.codes)) + s.cash
  {
    SortedNotEmpty(snapshots);
    SortShape(snapshots);
    var ordered := SortByDate(snapshots);
    var days := Between(frame.index, ordered[0].date, asOf);
    BetweenShape(frame.index, ordered[0].date, asOf);
    var day := days[k];
    assert day in days;
    SortingKeepsLatest(snapshots, day, s);
    CarriedFromLatest(ordered, frame.codes, days, k, s);
  }

  /** MAIN. On every valued day the result is the closes times the quantities of the latest snapshot on
      or before that day, plus that snapshot's cash. */
  lemma NavUsesLatestSnapshot(snapshots: seq<Snapshot>, frame: CloseFrame, asOf: Day, k: nat, s: Snapshot)
    returns (amounts: seq<real>)
    requires Complete(frame) && DistinctDates(snapshots)
    requires AssembleEquity(snapshots, frame, asOf).Some? && k < |AssembleEquity(snapshots, frame, asOf).value|
    requires LatestOnOrBefore(snapshots, AssembleEquity(snapshots, frame, asOf).value[k].0, s)
    ensures var (day, value) := AssembleEquity(snapshots, frame, asOf).value[k];
            && day in frame.index
            && AreAmounts(amounts, frame.closes[day], s, frame.codes)
            && value == s.cash + Sum(amounts)
  {
    ValueOfLatest(snapshots, frame, asOf, k, s);
    var (day, value) := AssembleEquity(snapshots, frame, asOf).value[k];
    amounts := ListAmounts(frame.closes[day], s, frame.codes);
  }

  /** Every covered day has a latest snapshot. */
  lemma {:induction false} LatestSnapshotExists(snapshots: seq<Snapshot>, day: Day) returns (s: Snapshot)
    requires exists t :: t in snapshots && t.date <= day
    ensures LatestOnOrBefore(snapshots, day, s)
  {
    var front, last := snapshots[..|snapshots| - 1], snapshots[|snapshots| - 1];
    assert snapshots == front + [last];
    if exists t :: t in front && t.date <= day {
      s := LatestSnapshotExists(front, day);
      if s.date <= last.date <= day {
        s := last;
      }
    } else {
      s := last;
    }
  }

  /** The order in which the snapshots arrive is irrelevant. */
  lemma SnapshotOrderIrrelevant(a: seq<Snapshot>, b: seq<Snapshot>, frame: CloseFrame, asOf: Day)
    requires Complete(frame) && DistinctDates(a) && DistinctDates(b) && forall s :: s in a <==> s in b
    ensures AssembleEquity(a, frame, asOf) == AssembleEquity(b, frame, asOf)
  {
    SortShape(a);
    SortShape(b);
    DatesAscendUnique(SortByDate(a), SortByDate(b));
    assert a != [] ==> a[0] in a;
    assert b != [] ==> b[0] in b;
  }
}
