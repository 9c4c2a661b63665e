/** The requeue policy of worker 2: dense polling at first, one poll a minute later, none once the
    tracking window is over. A chain is the sequence of polls one tracking task requeues itself for. */
module TrackingChain {
  import opened Prelude

  const RETRACKING_INTERVAL_SECONDS := 1
  const ORDER_TRACKING_FAST_WINDOW_SECONDS := 90
  const ORDER_TRACKING_MAX_WINDOW_SECONDS := 1800
  const ORDER_TRACKING_SLOW_INTERVAL_SECONDS := 60
  const FAST_DELAY_CAP := 15

  /** Seconds to wait before the next poll; None ends the chain. */
  function ResolveRetrackingDelay(attempt: nat, elapsed: real): Option<nat> {
    if elapsed < ORDER_TRACKING_FAST_WINDOW_SECONDS as real
    then Some(Min(RETRACKING_INTERVAL_SECONDS * (attempt + 1), FAST_DELAY_CAP))
    else if elapsed >= ORDER_TRACKING_MAX_WINDOW_SECONDS as real then None
    else Some(ORDER_TRACKING_SLOW_INTERVAL_SECONDS)
  }

  /** polls[n] is the time since the first poll at which the chain's attempt n runs. Every poll but
      the first was requeued by the one before, and ran no earlier than its countdown asked for. */
  ghost predicate Chain(polls: seq<real>) {
    && (|polls| > 0 ==> polls[0] == 0.0)
    && (forall n :: 0 <= n < |polls| - 1 ==> Requeued(n, polls[n], polls[n + 1]))
  }

  predicate Requeued(attempt: nat, elapsed: real, next: real) {
    var delay := ResolveRetrackingDelay(attempt, elapsed);
    delay.Some? && next >= elapsed + delay.value as real
  }

  /** The polls a chain may make. */
  const MAX_POLLS := 43

  /** The earliest time attempt n can run at: 1 + 2 + ... + n while polling is dense, then minutes. */
  function Earliest(n: nat): real {
    if n <= 13 then (n * (n + 1) / 2) as real else 91.0 + 60.0 * (n - 13) as real
  }

  lemma EarliestStep(n: nat)
    ensures n < 13 ==> Earliest(n + 1) == Earliest(n) + (n + 1) as real && Earliest(n + 1) <= 91.0
    ensures n >= 13 ==> Earliest(n) >= 91.0 && Earliest(n + 1) == Earliest(n) + 60.0
  {
    if n < 13 {
      assert (n + 1) * (n + 2) == n * (n + 1) + 2 * (n + 1);
      assert (n + 1) * (n + 2) <= 13 * 14;
    }
  }

  lemma {:induction false} NoPollIsEarly(polls: seq<real>, n: nat)
    requires Chain(polls) && n < |polls|
    ensures polls[n] >= Earliest(n)
  {
    if n > 0 {
      NoPollIsEarly(polls, n - 1);
      EarliestStep(n - 1);
      assert Requeued(n - 1, polls[n - 1], polls[n]);
    }
  }

  /** MAIN. Whatever the actual delays, a chain has at most 43 polls. */
  lemma ChainsEnd(polls: seq<real>)
    requires Chain(polls)
    ensures |polls| <= MAX_POLLS
  {
    if |polls| > MAX_POLLS {
      assert Requeued(42, polls[42], polls[43]);
      NoPollIsEarly(polls, 42);
    }
  }

  /** The bound is reached: punctual requeues make exactly 43 polls. */
  lemma PunctualChain()
    ensures var polls := seq(MAX_POLLS, n requires 0 <= n => Earliest(n)); Chain(polls)
    ensures ResolveRetrackingDelay(42, Earliest(42)) == None
  {
    var polls := seq(MAX_POLLS, n requires 0 <= n => Earliest(n));
    forall n | 0 <= n < |polls| - 1
      ensures Requeued(n, polls[n], polls[n + 1])
    {
      EarliestStep(n);
      DenseUntil(n);
    }
  }

  lemma DenseUntil(n: nat)
    requires n < 42
    ensures n < 13 ==> Earliest(n) < 90.0
    ensures Earliest(n) < 1800.0
  {
    if n < 13 {
      assert n * (n + 1) <= 12 * 13;
    }
  }

  /** The window ends a chain only once it is over, and until then asks for the next poll. Other
      things may end a chain earlier: a closed order, an error, or a poll whose row is refused. */
  lemma GivesUpExactlyAtWindow(attempt: nat, elapsed: real)
    ensures ResolveRetrackingDelay(attempt, elapsed).None? <==> elapsed >= 1800.0
    ensures elapsed < 90.0 && attempt < 15 ==> ResolveRetrackingDelay(attempt, elapsed) == Some(attempt + 1)
    ensures elapsed < 90.0 && attempt >= 15 ==> ResolveRetrackingDelay(attempt, elapsed) == Some(15)
    ensures 90.0 <= elapsed < 1800.0 ==> ResolveRetrackingDelay(attempt, elapsed) == Some(60)
  {
  }
}
