/** The automatic rebalance over daily traces: every trigger passes the gates one after the other, and
    only a completed run moves the date from which the next window is counted. */
module RebalanceTask {
  import opened Prelude
  import opened MarketCalendar
  import opened Prices

  datatype RowStatus = Running | Completed | Failed

  /** automatic marks the rows that the triggered task made; the others come from an operator. */
  datatype Row = Row(day: Day, status: RowStatus, dryRun: bool, automatic: bool)

  predicate Counts(row: Row) {
    row.status == Completed && !row.dryRun
  }

  /** The day of the latest completed rebalance. */
  function LastCompleted(rows: seq<Row>): (last: Option<Day>)
    ensures forall i :: 0 <= i < |rows| && rows[i].status == Completed && !rows[i].dryRun ==>
              last.Some? && rows[i].day <= last.value
    ensures last.Some? ==>
              exists i :: 0 <= i < |rows| && rows[i].status == Completed && !rows[i].dryRun && rows[i].day == last.value
  {
    if rows == [] then None
    else
      var before, row := LastCompleted(rows[..|rows| - 1]), rows[|rows| - 1];
      if Counts(row) && (before.None? || before.value < row.day) then Some(row.day) else before
  }

  /** A rebalance of the same month is running or completed. */
  predicate DoneInMonth(rows: seq<Row>, month: Day -> int, today: Day) {
    exists i :: 0 <= i < |rows| && rows[i].status != Failed && !rows[i].dryRun && month(rows[i].day) == month(today)
  }

  /** One trigger. result is the state of the row the run leaves, or None if it failed before it made one. */
  datatype Trigger = Trigger(today: Day, time: real, killed: bool, locked: bool, dryRun: bool, force: bool,
                             result: Option<RowStatus>)

  datatype Setting = Setting(cal: Calendar, policy: Policy, month: Day -> int)

  /** The trigger gets past every gate. */
  predicate Runs(env: Setting, rows: seq<Row>, t: Trigger)
    requires Sound(env.cal)
  {
    && !t.killed && !t.locked
    && LastCompleted(rows).Some?
    && Decide(env.cal, env.policy, LastCompleted(rows).value, t.today, t.time) == RunRebalance
    && (t.force || !DoneInMonth(rows, env.month, t.today))
  }

  function Recorded(rows: seq<Row>, t: Trigger): seq<Row> {
    if t.result.None? then rows else rows + [Row(t.today, t.result.value, t.dryRun, true)]
  }

  function Triggered(env: Setting, rows: seq<Row>, t: Trigger): seq<Row>
    requires Sound(env.cal)
  {
    if Runs(env, rows, t) then Recorded(rows, t) else rows
  }

  class RebalanceTable {
    var rows: seq<Row>

    constructor ()
      ensures rows == []
    {
      rows := [];
    }

    method ExecuteRebalance(env: Setting, t: Trigger)
      requires Sound(env.cal)
      modifies this
      ensures rows == Triggered(env, old(rows), t)
      ensures rows == if Runs(env, old(rows), t) && t.result.Some?
                      then old(rows) + [Row(t.today, t.result.value, t.dryRun, true)] else old(rows)
    {
      if t.killed {
        return;
      }
      if t.locked {
        return;
      }
      var last := LastCompleted(rows);
      if last.None? {
        return;
      }
      var decision := Decide(env.cal, env.policy, last.value, t.today, t.time);
      if decision != RunRebalance {
        return;
      }
      if !t.force {
        var alreadyDone := DoneInMonth(rows, env.month, t.today);
        if alreadyDone {
          return;
        }
      }
      if t.result.Some? {
        rows := rows + [Row(t.today, t.result.value, t.dryRun, true)];
      }
    }
  }

  // ---------------------------------------------------------------------------------------------
  // Traces.

  /** What happens day by day: a trigger of the task, or a row an operator's own rebalance leaves. */
  datatype Event = Auto(t: Trigger) | Manual(row: Row)

  function After(env: Setting, rows: seq<Row>, events: seq<Event>): seq<Row>
    requires Sound(env.cal)
  {
    if events == [] then rows
    else
      var before := After(env, rows, events[..|events| - 1]);
      match events[|events| - 1]
      case Auto(t) => Triggered(env, before, t)
      case Manual(row) => before + [row.(automatic := false)]
  }

  /** A trigger runs exactly on a day and at a time of the window of the last completed rebalance, unless
      it is blocked, or the month is done and not forced. */
  lemma RunsIff(env: Setting, rows: seq<Row>, t: Trigger)
    requires Sound(env.cal)
    ensures Runs(env, rows, t) <==>
            && !t.killed && !t.locked && LastCompleted(rows).Some?
            && DayInWindow(env.cal, env.policy, LastCompleted(rows).value, t.today)
            && env.policy.start <= t.time < env.policy.end
            && (t.force || forall i :: 0 <= i < |rows| && env.month(rows[i].day) == env.month(t.today) ==>
                             rows[i].status == Failed || rows[i].dryRun)
  {
    if LastCompleted(rows).Some? {
      DecideIff(env.cal, env.policy, LastCompleted(rows).value, t.today, t.time);
    }
  }

  /** Every automatic row was made on a business day, and no earlier than the interval after each
      rebalance completed before it. */
  ghost predicate Spaced(env: Setting, rows: seq<Row>) {
    && (forall i :: 0 <= i < |rows| && rows[i].automatic ==> env.cal.business(rows[i].day))
    && (forall i, j :: 0 <= i < j < |rows| && rows[i].status == Completed && !rows[i].dryRun && rows[j].automatic ==>
          rows[j].day >= rows[i].day + env.policy.interval)
  }

  /** MAIN. Whatever is triggered or run by hand, and however often, two automatic rebalances of which
      the first completed are at least the interval apart. */
  lemma {:induction false} AutomaticRebalancesAreSpaced(env: Setting, events: seq<Event>)
    requires Sound(env.cal)
    ensures Spaced(env, After(env, [], events))
  {
    if events != [] {
      var front, e := events[..|events| - 1], events[|events| - 1];
      AutomaticRebalancesAreSpaced(env, front);
      if e.Auto? {
        RunsIff(env, After(env, [], front), e.t);
      }
    }
  }

  /** Nobody rebalances by hand, and no event is before the day. */
  ghost predicate Unattended(events: seq<Event>, from: Day) {
    forall i :: 0 <= i < |events| ==> events[i].Auto? && from <= events[i].t.today
  }

  ghost predicate Stuck(env: Setting, rows: seq<Row>, today: Day)
    requires Sound(env.cal)
  {
    forall events :: Unattended(events, today) ==> After(env, rows, events) == rows
  }

  /** More business days than the delay allows have gone by since the interval was over. */
  predicate Missed(env: Setting, last: Day, today: Day) {
    BusinessDaysIn(env.cal, last + env.policy.interval, today) > env.policy.maxDelay
  }

  lemma {:induction false} NothingRuns(env: Setting, rows: seq<Row>, events: seq<Event>)
    requires Sound(env.cal)
    requires forall i :: 0 <= i < |events| ==> events[i].Auto? && !Runs(env, rows, events[i].t)
    ensures After(env, rows, events) == rows
  {
    if events != [] {
      NothingRuns(env, rows, events[..|events| - 1]);
    }
  }

  lemma OneRun(env: Setting, rows: seq<Row>, t: Trigger)
    requires Sound(env.cal) && Runs(env, rows, t) && t.result == Some(Completed)
    ensures After(env, rows, [Auto(t)]) != rows
  {
    assert [Auto(t)][..0] == [];
    assert |After(env, rows, [Auto(t)])| == |rows| + 1;
  }

  lemma MissedNeverRuns(env: Setting, rows: seq<Row>, today: Day, t: Trigger)
    requires Sound(env.cal) && today <= t.today
    requires var last := LastCompleted(rows); last.None? || Missed(env, last.value, today)
    ensures !Runs(env, rows, t)
  {
    RunsIff(env, rows, t);
    if LastCompleted(rows).Some? {
      WindowStaysShut(env.cal, env.policy, LastCompleted(rows).value, today, t.today);
    }
  }

  lemma CanStillRun(env: Setting, rows: seq<Row>, today: Day) returns (t: Trigger)
    requires Sound(env.cal) && env.policy.start < env.policy.end
    requires LastCompleted(rows).Some? && !Missed(env, LastCompleted(rows).value, today)
    ensures today <= t.today && t.force && Runs(env, rows, t) && t.result == Some(Completed)
  {
    var day := WindowStillOpen(env.cal, env.policy, LastCompleted(rows).value, today);
    t := Trigger(day, env.policy.start, false, false, false, true, Some(Completed));
    RunsIff(env, rows, t);
  }

  /** The automatic rebalance never runs again, until somebody rebalances by hand, exactly when nothing
      was ever completed or the window was missed. The schedule forces every trigger. */
  lemma StuckIff(env: Setting, rows: seq<Row>, today: Day)
    requires Sound(env.cal) && env.policy.start < env.policy.end
    ensures Stuck(env, rows, today)
        <==> (LastCompleted(rows).None? || Missed(env, LastCompleted(rows).value, today))
  {
    var last := LastCompleted(rows);
    if last.None? || Missed(env, last.value, today) {
      forall events: seq<Event> | Unattended(events, today) ensures After(env, rows, events) == rows {
        forall i | 0 <= i < |events| ensures !Runs(env, rows, events[i].t) {
          MissedNeverRuns(env, rows, today, events[i].t);
        }
        NothingRuns(env, rows, events);
      }
    } else {
      var t := CanStillRun(env, rows, today);
      OneRun(env, rows, t);
    }
  }

  // ---------------------------------------------------------------------------------------------
  // Triggers that are not forced.

  /** The last day of the window. */
  function WindowEnd(env: Setting, last: Day): Day
    requires Sound(env.cal)
  {
    AddBusinessDays(env.cal, NextRebalanceDate(env.cal, env.policy, last), env.policy.maxDelay)
  }

  lemma WindowEndIsLast(env: Setting, last: Day, day: Day)
    requires Sound(env.cal)
    ensures DayInWindow(env.cal, env.policy, last, WindowEnd(env, last))
    ensures DayInWindow(env.cal, env.policy, last, day) ==> day <= WindowEnd(env, last)
  {
    WindowIff(env.cal, env.policy, last, WindowEnd(env, last));
    if env.cal.business(day) {
      WindowIff(env.cal, env.policy, last, day);
    }
  }

  ghost predicate MonthsInOrder(month: Day -> int) {
    forall a, b :: a <= b ==> month(a) <= month(b)
  }

  predicate Unforced(events: seq<Event>) {
    forall i :: 0 <= i < |events| ==> events[i].Auto? && !events[i].t.force
  }

  ghost predicate StuckUnforced(env: Setting, rows: seq<Row>, today: Day)
    requires Sound(env.cal)
  {
    forall events :: Unattended(events, today) && Unforced(events) ==> After(env, rows, events) == rows
  }

  predicate NoLaterThan(rows: seq<Row>, today: Day) {
    forall i :: 0 <= i < |rows| ==> rows[i].day <= today
  }

  /** Once the month of a day has its rebalance, so have the days from today up to it. */
  lemma DoneBefore(env: Setting, rows: seq<Row>, today: Day, day: Day, end: Day)
    requires MonthsInOrder(env.month) && NoLaterThan(rows, today) && today <= day <= end
    requires DoneInMonth(rows, env.month, end)
    ensures DoneInMonth(rows, env.month, day)
  {
    var i :| 0 <= i < |rows| && rows[i].status != Failed && !rows[i].dryRun && env.month(rows[i].day) == env.month(end);
    assert env.month(rows[i].day) <= env.month(day) <= env.month(end);
  }

  /** Without force the rebalance never runs again exactly when, besides, the month of the window's last day
      already has a running or completed one. */
  lemma StuckUnforcedIff(env: Setting, rows: seq<Row>, today: Day)
    requires Sound(env.cal) && env.policy.start < env.policy.end
    requires MonthsInOrder(env.month) && NoLaterThan(rows, today)
    ensures StuckUnforced(env, rows, today)
        <==> (|| LastCompleted(rows).None?
              || Missed(env, LastCompleted(rows).value, today)
              || DoneInMonth(rows, env.month, WindowEnd(env, LastCompleted(rows).value)))
  {
    var last := LastCompleted(rows);
    if last.None? || Missed(env, last.value, today) {
      StuckIff(env, rows, today);
    } else if DoneInMonth(rows, env.month, WindowEnd(env, last.value)) {
      forall events: seq<Event> | Unattended(events, today) && Unforced(events)
        ensures After(env, rows, events) == rows
      {
        forall i | 0 <= i < |events| ensures !Runs(env, rows, events[i].t) {
          var t := events[i].t;
          RunsIff(env, rows, t);
          WindowEndIsLast(env, last.value, t.today);
          if DayInWindow(env.cal, env.policy, last.value, t.today) {
            DoneBefore(env, rows, today, t.today, WindowEnd(env, last.value));
          }
        }
        NothingRuns(env, rows, events);
      }
    } else {
      var open := WindowStillOpen(env.cal, env.policy, last.value, today);
      WindowEndIsLast(env, last.value, open);
      var t := Trigger(WindowEnd(env, last.value), env.policy.start, false, false, false, false, Some(Completed));
      RunsIff(env, rows, t);
      OneRun(env, rows, t);
      assert Unattended([Auto(t)], today) && Unforced([Auto(t)]);
    }
  }

  /** Every day is a business day, months have 31 days, and the policy is the default one. */
  const PLAIN := Setting(Calendar((d: Day) => true, (d: Day) => d), Policy(30, 2, 9.0, 10.0), (d: Day) => d / 31)

  lemma {:induction false} PlainCount(a: Day, n: nat)
    ensures BusinessDaysIn(PLAIN.cal, a, a + n) == n
  {
    if n > 0 {
      PlainCount(a, n - 1);
    }
  }

  lemma {:induction false} PlainSteps(a: Day, n: nat)
    ensures Sound(PLAIN.cal) && Steps(PLAIN.cal, a, n) == a + n
  {
    if n > 0 {
      PlainSteps(a, n - 1);
      assert PLAIN.cal.business(a + n);
    }
  }

  lemma PlainStuck(rows: seq<Row>)
    requires rows == [Row(0, Completed, false, false), Row(31, Running, false, true)]
    ensures LastCompleted(rows) == Some(0) && NoLaterThan(rows, 31) && DoneInMonth(rows, PLAIN.month, 32)
  {
    assert LastCompleted(rows[..1]) == Some(0);
    assert rows[1].status != Failed && PLAIN.month(rows[1].day) == PLAIN.month(32);
  }

  /** The month check makes a difference: with a run of the second month left RUNNING, nothing unforced ever
      runs again, although the window is still open for a forced trigger. */
  lemma LeftRunningSticks(rows: seq<Row>)
    requires rows == [Row(0, Completed, false, false), Row(31, Running, false, true)]
    ensures Sound(PLAIN.cal) && StuckUnforced(PLAIN, rows, 31) && !Stuck(PLAIN, rows, 31)
  {
    PlainSteps(30, 2);
    PlainCount(30, 1);
    PlainStuck(rows);
    assert NextRebalanceDate(PLAIN.cal, PLAIN.policy, 0) == 30;
    StuckUnforcedIff(PLAIN, rows, 31);
    StuckIff(PLAIN, rows, 31);
  }

  /** No two days of one month are a month of 31 days apart. */
  ghost predicate ShortMonths(month: Day -> int) {
    forall a, b :: a + 31 <= b ==> month(a) != month(b)
  }

  /** With an interval of at least 30 days and a delay of at least one business day, checking the month
      cannot cost the whole window: some day of it lets an unforced trigger run, as long as nothing is
      left running. */
  lemma MonthCheckLeavesADay(env: Setting, rows: seq<Row>) returns (t: Trigger)
    requires Sound(env.cal) && ShortMonths(env.month) && env.policy.start < env.policy.end
    requires env.policy.interval >= 30 && env.policy.maxDelay >= 1
    requires LastCompleted(rows).Some? && forall i :: 0 <= i < |rows| ==> rows[i].status != Running || rows[i].dryRun
    ensures !t.force && Runs(env, rows, t)
  {
    var last := LastCompleted(rows).value;
    var target := last + env.policy.interval;
    var first := AdjustToNextBusinessDay(env.cal, target);
    var second := NextBusinessDay(env.cal, first);
    CountZero(env.cal, target, first);
    CountSplits(env.cal, target, first, second);
    CountSplits(env.cal, first, first + 1, second);
    CountZero(env.cal, first + 1, second);
    t := Trigger(second, env.policy.start, false, false, false, false, None);
    forall i | 0 <= i < |rows| && rows[i].status != Failed && !rows[i].dryRun
      ensures env.month(rows[i].day) != env.month(second) {
      assert Counts(rows[i]);
    }
    RunsIff(env, rows, t);
  }

  /** Without a delay the window is a single day: an unforced trigger has a day exactly when the month of the
      next rebalance date has no rebalance yet. Completed on the first of a month of 31 days, it has. */
  lemma MonthCheckCanBlock(env: Setting, rows: seq<Row>)
    requires Sound(env.cal) && env.policy.maxDelay == 0 && env.policy.start < env.policy.end
    ensures (exists t: Trigger :: !t.force && Runs(env, rows, t))
        <==> LastCompleted(rows).Some?
             && !DoneInMonth(rows, env.month, NextRebalanceDate(env.cal, env.policy, LastCompleted(rows).value))
  {
    if LastCompleted(rows).Some? {
      var last := LastCompleted(rows).value;
      var d := NextRebalanceDate(env.cal, env.policy, last);
      forall t: Trigger | !t.force && Runs(env, rows, t) ensures !DoneInMonth(rows, env.month, d) {
        RunsIff(env, rows, t);
        WindowIff(env.cal, env.policy, last, t.today);
      }
      if !DoneInMonth(rows, env.month, d) {
        WindowIff(env.cal, env.policy, last, d);
        var t := Trigger(d, env.policy.start, false, false, false, false, None);
        RunsIff(env, rows, t);
        assert !t.force && Runs(env, rows, t);
      }
    }
  }
}
