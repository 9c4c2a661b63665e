/** The two implementations of the rebalancing backtest: date loops over cash and a dictionary of
    quantities, both proved against the records of RebalanceSim. */
module RebalanceRunners {
  import opened Prelude
  import opened Dictionaries
  import opened Prices
  import opened RebalanceSim

  ghost predicate AllRecorded(market: RebalanceMarket, days: seq<Day>, n: nat, initial: real, records: seq<Record>)
    requires Simulable(market, days) && n <= |days|
  {
    |records| == n && forall i :: 0 <= i < n ==> records[i] == RecordAt(market, days, i, initial)
  }

  lemma AmountsAppend(market: RebalanceMarket, day: Day, holdings: seq<Holding>, i: nat)
    requires i < |holdings|
    ensures Value(market, day, holdings[..i + 1])
         == Value(market, day, holdings[..i]) + Amount(market, day, holdings[i])
  {
    var more := Amounts(market, day, holdings[..i + 1]);
    assert more[..i] == Amounts(market, day, holdings[..i]);
  }

  /** The first trading day of each period. */
  method GetRebalanceDates(market: RebalanceMarket, days: seq<Day>) returns (rebalance: set<Day>)
    requires forall i, j :: 0 <= i < j < |days| ==> days[i] != days[j]
    ensures forall i :: 0 <= i < |days| ==> (days[i] in rebalance <==> IsFirstOfPeriod(market, days, i))
  {
    rebalance := {};
    var seen: set<int> := {};
    for n := 0 to |days|
      invariant forall j :: 0 <= j < n ==> market.periodOf(days[j]) in seen
      invariant forall p <- seen :: exists j :: 0 <= j < n && market.periodOf(days[j]) == p
      invariant forall d <- rebalance :: exists j :: 0 <= j < n && days[j] == d
      invariant forall i :: 0 <= i < n ==> (days[i] in rebalance <==> IsFirstOfPeriod(market, days, i))
    {
      forall d | d in rebalance ensures d != days[n] {
        var j :| 0 <= j < n && days[j] == d;
      }
      var period := market.periodOf(days[n]);
      if period !in seen {
        assert IsFirstOfPeriod(market, days, n);
        seen := seen + {period};
        rebalance := rebalance + {days[n]};
        assert days[n] in rebalance;
      }
    }
  }

  /** Adds what the holdings fetch on the day to the cash. */
  method Liquidate(market: RebalanceMarket, day: Day, holdings: seq<Holding>, initial: real) returns (cash: real)
    ensures cash == initial + Value(market, day, holdings)
  {
    cash := initial;
    var i := 0;
    while i < |holdings|
      invariant 0 <= i <= |holdings| && cash == initial + Value(market, day, holdings[..i])
    {
      AmountsAppend(market, day, holdings, i);
      var h := holdings[i];
      if h.key in market.closes && day in market.closes[h.key] {
        cash := cash + h.value * market.closes[h.key][day];
      }
      i := i + 1;
    }
    assert holdings[..i] == holdings;
  }

  method BuyEqually(market: RebalanceMarket, day: Day, codes: seq<Code>, alloc: real) returns (holdings: seq<Holding>)
    requires Tradable(market, day, codes)
    ensures holdings == Bought(market, day, codes, alloc)
  {
    holdings := [];
    var i := 0;
    while i < |codes|
      invariant 0 <= i <= |codes| && holdings == Bought(market, day, codes[..i], alloc)
    {
      assert codes[..i + 1][..i] == codes[..i];
      var price := market.closes[codes[i]][day];
      holdings := Put(holdings, codes[i], alloc / price);
      i := i + 1;
    }
    assert codes[..i] == codes;
  }

  /** Sells everything and spreads the money over the stocks to buy, if there are any. */
  method Rebalance(market: RebalanceMarket, day: Day, buyCodes: seq<Code>, holdings: seq<Holding>, initial: real)
    returns (cash: real, positions: seq<Holding>)
    requires Tradable(market, day, buyCodes)
    ensures Portfolio(cash, positions)
         == Invest(market, day, buyCodes, Worth(market, day, Portfolio(initial, holdings)))
  {
    cash := Liquidate(market, day, holdings, initial);
    positions := [];
    if buyCodes != [] {
      positions := BuyEqually(market, day, buyCodes, cash / |buyCodes| as real);
      cash := 0.0;
    }
  }

  lemma RecordsAppend(market: RebalanceMarket, days: seq<Day>, n: nat, initial: real, records: seq<Record>, cash: real,
                      positions: seq<Holding>, value: real)
    requires Simulable(market, days) && n < |days| && AllRecorded(market, days, n, initial, records)
    requires Portfolio(cash, positions) == After(market, days, n + 1, initial)
    requires value == Value(market, days[n], positions)
    ensures AllRecorded(market, days, n + 1, initial,
              records + [Record(days[n], cash + value, cash, value, |positions|, IsFirstOfPeriod(market, days, n))])
  {
  }

  /** The runner: the daily valuation is accumulated in a loop. */
  method RunBacktest(market: RebalanceMarket, days: seq<Day>, initialCash: real) returns (records: seq<Record>)
    requires WellFormed(market, days) && Simulable(market, days)
    ensures AllRecorded(market, days, |days|, initialCash, records)
  {
    var rebalanceDates := GetRebalanceDates(market, days);
    var cash, positions := initialCash, [];
    records := [];
    var n := 0;
    while n < |days|
      invariant 0 <= n <= |days| && AllRecorded(market, days, n, initialCash, records)
      invariant Portfolio(cash, positions) == After(market, days, n, initialCash)
    {
      var day := days[n];
      assert day in days;
      var isRebalance := day in rebalanceDates;
      if isRebalance {
        cash, positions := Rebalance(market, day, market.signal(day), positions, cash);
      }
      var holdingsValue := Liquidate(market, day, positions, 0.0);
      RecordsAppend(market, days, n, initialCash, records, cash, positions, holdingsValue);
      records := records + [Record(day, cash + holdingsValue, cash, holdingsValue, |positions|, isRebalance)];
      n := n + 1;
    }
  }

  /** The executor's variant: the daily valuation is one sum over the holdings. */
  method RunRebalance(market: RebalanceMarket, days: seq<Day>, initialCash: real) returns (records: seq<Record>)
    requires WellFormed(market, days) && Simulable(market, days)
    ensures AllRecorded(market, days, |days|, initialCash, records)
  {
    var rebalanceDates := GetRebalanceDates(market, days);
    var cash, positions := initialCash, [];
    records := [];
    var n := 0;
    while n < |days|
      invariant 0 <= n <= |days| && AllRecorded(market, days, n, initialCash, records)
      invariant Portfolio(cash, positions) == After(market, days, n, initialCash)
    {
      var day := days[n];
      assert day in days;
      var isRebalance := day in rebalanceDates;
      if isRebalance {
        cash, positions := Rebalance(market, day, market.signal(day), positions, cash);
      }
      var holdingsValue := Sum(Amounts(market, day, positions));
      RecordsAppend(market, days, n, initialCash, records, cash, positions, holdingsValue);
      records := records + [Record(day, cash + holdingsValue, cash, holdingsValue, |positions|, isRebalance)];
      n := n + 1;
    }
  }

  /** Run on the same market and days, the two implementations return the same records. */
  method RunBoth(market: RebalanceMarket, days: seq<Day>, initialCash: real)
    returns (byRunner: seq<Record>, byExecutor: seq<Record>)
    requires WellFormed(market, days) && Simulable(market, days)
    ensures byRunner == byExecutor
    ensures |byRunner| == |days| && forall i :: 0 <= i < |days| ==>
              byRunner[i].equity == Compounded(market, days, i, initialCash)
  {
    byRunner := RunBacktest(market, days, initialCash);
    byExecutor := RunRebalance(market, days, initialCash);
    forall i | 0 <= i < |days| ensures byRunner[i].equity == Compounded(market, days, i, initialCash) {
      EquityCompounds(market, days, i, initialCash);
    }
  }
}
