/** Business days of the exchange and the window in which the automatic rebalance may run. Days are
    numbered; the calendar is any predicate under which a business day always follows sooner or later. */
module MarketCalendar {

  import opened Prices

  /** upcoming names some business day on or after each day, not necessarily the nearest. */
  datatype Calendar = Calendar(business: Day -> bool, upcoming: Day -> Day)

  ghost predicate Sound(cal: Calendar) {
    forall d :: d <= cal.upcoming(d) && cal.business(cal.upcoming(d))
  }

  /** The first business day on or after d, given that one comes no later than the limit. */
  function Search(cal: Calendar, d: Day, limit: Day): (r: Day)
    requires d <= limit && cal.business(limit)
    ensures d <= r <= limit && cal.business(r)
    ensures forall e :: d <= e < r ==> !cal.business(e)
    decreases limit - d
  {
    if cal.business(d) then d else Search(cal, d + 1, limit)
  }

  function NextBusinessDay(cal: Calendar, d: Day): (r: Day)
    requires Sound(cal)
    ensures d < r && cal.business(r)
    ensures forall e :: d < e < r ==> !cal.business(e)
  {
    Search(cal, d + 1, cal.upcoming(d + 1))
  }

  function AdjustToNextBusinessDay(cal: Calendar, d: Day): (r: Day)
    requires Sound(cal)
    ensures d <= r && cal.business(r)
    ensures forall e :: d <= e < r ==> !cal.business(e)
  {
    if cal.business(d) then d else NextBusinessDay(cal, d)
  }

  /** The n-th business day after d. */
  function Steps(cal: Calendar, d: Day, n: nat): (r: Day)
    requires Sound(cal)
    ensures d <= r
    ensures cal.business(d) || n > 0 ==> cal.business(r)
  {
    if n == 0 then d else NextBusinessDay(cal, Steps(cal, d, n - 1))
  }

  /** Moving by no days at all still moves off a holiday. */
  function AddBusinessDays(cal: Calendar, d: Day, n: nat): (r: Day)
    requires Sound(cal)
    ensures d <= r && cal.business(r)
  {
    if n == 0 then AdjustToNextBusinessDay(cal, d) else Steps(cal, d, n)
  }

  // ---------------------------------------------------------------------------------------------
  // Counting business days.

  /** The number of business days from a up to but not including b. */
  function BusinessDaysIn(cal: Calendar, a: Day, b: Day): nat
    decreases b - a
  {
    if b <= a then 0 else BusinessDaysIn(cal, a, b - 1) + if cal.business(b - 1) then 1 else 0
  }

  lemma {:induction false} CountSplits(cal: Calendar, a: Day, m: Day, b: Day)
    requires a <= m <= b
    ensures BusinessDaysIn(cal, a, b) == BusinessDaysIn(cal, a, m) + BusinessDaysIn(cal, m, b)
    decreases b - m
  {
    if m < b {
      CountSplits(cal, a, m, b - 1);
    }
  }

  lemma {:induction false} CountZero(cal: Calendar, a: Day, b: Day)
    requires forall e :: a <= e < b ==> !cal.business(e)
    ensures BusinessDaysIn(cal, a, b) == 0
    decreases b - a
  {
    if a < b {
      assert !cal.business(b - 1);
      CountZero(cal, a, b - 1);
    }
  }

  lemma CountPositive(cal: Calendar, a: Day, m: Day, b: Day)
    requires a <= m < b && cal.business(m)
    ensures BusinessDaysIn(cal, a, b) >= BusinessDaysIn(cal, a, m) + 1
  {
    CountSplits(cal, a, m + 1, b);
  }

  /** Up to the day itself, the next business day adds one. */
  lemma NextAddsOne(cal: Calendar, d: Day, day: Day)
    requires Sound(cal) && d <= day
    ensures BusinessDaysIn(cal, d + 1, NextBusinessDay(cal, day) + 1) == BusinessDaysIn(cal, d + 1, day + 1) + 1
  {
    var next := NextBusinessDay(cal, day);
    CountSplits(cal, d + 1, day + 1, next);
    CountZero(cal, day + 1, next);
  }

  lemma {:induction false} StepsCount(cal: Calendar, d: Day, n: nat)
    requires Sound(cal)
    ensures BusinessDaysIn(cal, d + 1, Steps(cal, d, n) + 1) == n
  {
    if n > 0 {
      StepsCount(cal, d, n - 1);
      NextAddsOne(cal, d, Steps(cal, d, n - 1));
    }
  }

  /** From any day, n business days on is the business day with exactly n business days from there up to it;
      from a business day, with exactly n before it. */
  lemma AddCounts(cal: Calendar, d: Day, n: nat)
    requires Sound(cal)
    ensures var r := AddBusinessDays(cal, d, n);
            && cal.business(r)
            && (n > 0 ==> BusinessDaysIn(cal, d + 1, r + 1) == n)
            && (cal.business(d) ==> BusinessDaysIn(cal, d, r) == n)
  {
    StepsCount(cal, d, n);
    var r := AddBusinessDays(cal, d, n);
    if cal.business(d) {
      CountSplits(cal, d, d + 1, r + 1);
    }
  }

  /** A business day is within n business days exactly when at most n business days come before it. */
  lemma WithinDelayIff(cal: Calendar, d: Day, n: nat, today: Day)
    requires Sound(cal) && cal.business(d) && cal.business(today) && d <= today
    ensures today <= AddBusinessDays(cal, d, n) <==> BusinessDaysIn(cal, d, today) <= n
  {
    var end := AddBusinessDays(cal, d, n);
    AddCounts(cal, d, n);
    if today <= end {
      CountSplits(cal, d, today, end);
    } else {
      CountPositive(cal, d, end, today);
    }
  }

  // ---------------------------------------------------------------------------------------------
  // The window.

  datatype Decision = RunRebalance | SkipNotBusinessDay | SkipNotRebalanceDay | SkipOutOfTimeWindow

  /** start and end are times of day; RebalanceWindow defaults to an interval of 30 days and a delay of up
      to 2 business days. */
  datatype Policy = Policy(interval: nat, maxDelay: nat, start: real, end: real)

  function NextRebalanceDate(cal: Calendar, policy: Policy, last: Day): Day
    requires Sound(cal)
  {
    AdjustToNextBusinessDay(cal, last + policy.interval)
  }

  function Decide(cal: Calendar, policy: Policy, last: Day, today: Day, time: real): Decision
    requires Sound(cal)
  {
    var d := NextRebalanceDate(cal, policy, last);
    var delayEnd := AddBusinessDays(cal, d, policy.maxDelay);
    if !cal.business(today) then SkipNotBusinessDay
    else if d <= today <= delayEnd then
      if policy.start <= time < policy.end then RunRebalance else SkipOutOfTimeWindow
    else SkipNotRebalanceDay
  }

  /** Today is a business day at least the interval after the last rebalance, and at most maxDelay
      business days have gone by since the interval was over. */
  predicate DayInWindow(cal: Calendar, policy: Policy, last: Day, today: Day) {
    && cal.business(today) && last + policy.interval <= today
    && BusinessDaysIn(cal, last + policy.interval, today) <= policy.maxDelay
  }

  /** The next rebalance date is the least business day no earlier than the interval after the last. */
  lemma NextDateIsLeast(cal: Calendar, policy: Policy, last: Day, day: Day)
    requires Sound(cal) && cal.business(day)
    ensures var d := NextRebalanceDate(cal, policy, last);
            cal.business(d) && (d <= day <==> last + policy.interval <= day)
  {
  }

  lemma CountFromNextDate(cal: Calendar, policy: Policy, last: Day, today: Day)
    requires Sound(cal) && NextRebalanceDate(cal, policy, last) <= today
    ensures BusinessDaysIn(cal, last + policy.interval, today)
         == BusinessDaysIn(cal, NextRebalanceDate(cal, policy, last), today)
  {
    var target, d := last + policy.interval, NextRebalanceDate(cal, policy, last);
    CountSplits(cal, target, d, today);
    CountZero(cal, target, d);
  }

  lemma WindowIff(cal: Calendar, policy: Policy, last: Day, today: Day)
    requires Sound(cal) && cal.business(today)
    ensures var d := NextRebalanceDate(cal, policy, last);
            d <= today <= AddBusinessDays(cal, d, policy.maxDelay) <==> DayInWindow(cal, policy, last, today)
  {
    var d := NextRebalanceDate(cal, policy, last);
    NextDateIsLeast(cal, policy, last, today);
    if d <= today {
      CountFromNextDate(cal, policy, last, today);
      WithinDelayIff(cal, d, policy.maxDelay, today);
    }
  }

  /** The four decisions, by counting business days. */
  lemma DecideIff(cal: Calendar, policy: Policy, last: Day, today: Day, time: real)
    requires Sound(cal)
    ensures var decision, onTime := Decide(cal, policy, last, today, time), policy.start <= time < policy.end;
            && (decision == SkipNotBusinessDay <==> !cal.business(today))
            && (decision == RunRebalance <==> DayInWindow(cal, policy, last, today) && onTime)
            && (decision == SkipOutOfTimeWindow <==> DayInWindow(cal, policy, last, today) && !onTime)
  {
    if cal.business(today) {
      WindowIff(cal, policy, last, today);
    }
  }

  /** Once the window has passed it stays passed. */
  lemma WindowStaysShut(cal: Calendar, policy: Policy, last: Day, today: Day, later: Day)
    requires last + policy.interval <= today <= later
    requires BusinessDaysIn(cal, last + policy.interval, today) > policy.maxDelay
    ensures !DayInWindow(cal, policy, last, later)
  {
    CountSplits(cal, last + policy.interval, today, later);
  }

  /** Until then there is a day of the window on or after today. */
  lemma WindowStillOpen(cal: Calendar, policy: Policy, last: Day, today: Day) returns (day: Day)
    requires Sound(cal)
    requires BusinessDaysIn(cal, last + policy.interval, today) <= policy.maxDelay
    ensures today <= day && DayInWindow(cal, policy, last, day)
  {
    var target := last + policy.interval;
    var from := if today < target then target else today;
    day := AdjustToNextBusinessDay(cal, from);
    CountSplits(cal, target, from, day);
    CountZero(cal, from, day);
  }
}
