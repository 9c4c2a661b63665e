/** The rebalancing backtest, which the repository implements twice. Money and quantities are exact. */
module RebalanceSim {
  import opened Prelude
  import opened Dictionaries
  import opened Prices

  /** closes[c][d] is the close of stock c on day d, periodOf the rebalancing period a day lies in, and
      signal the stocks the strategy buys on a rebalancing day. */
  datatype RebalanceMarket = RebalanceMarket(closes: Closes, periodOf: Day -> int, signal: Day -> seq<Code>)

  /** An entry of the positions dictionary: a stock and its quantity. */
  type Holding = Entry<Code, real>

  datatype Portfolio = Portfolio(cash: real, holdings: seq<Holding>)

  datatype Record = Record(day: Day, equity: real, cash: real, holdingsValue: real, holdings: nat, rebalance: bool)

  /** The trading days are common to all stocks, each appears once, prices are positive, and the
      strategy names each stock it buys once and only stocks there is data for. */
  ghost predicate WellFormed(market: RebalanceMarket, days: seq<Day>) {
    && (forall i, j :: 0 <= i < j < |days| ==> days[i] != days[j])
    && (forall c <- market.closes, d <- days :: HasClose(market.closes, c, d) && market.closes[c][d] > 0.0)
    && (forall d <- days :: Buyable(market, market.signal(d)))
  }

  ghost predicate Buyable(market: RebalanceMarket, codes: seq<Code>) {
    && (forall i, j :: 0 <= i < j < |codes| ==> codes[i] != codes[j])
    && (forall c <- codes :: c in market.closes)
  }

  // ---------------------------------------------------------------------------------------------
  // One day.

  /** What a holding is worth on the day, nothing when its stock has no close. */
  function Amount(market: RebalanceMarket, day: Day, h: Holding): real {
    if HasClose(market.closes, h.key, day) then h.value * market.closes[h.key][day] else 0.0
  }

  function Amounts(market: RebalanceMarket, day: Day, holdings: seq<Holding>): seq<real> {
    seq(|holdings|, i requires 0 <= i < |holdings| => Amount(market, day, holdings[i]))
  }

  function Value(market: RebalanceMarket, day: Day, holdings: seq<Holding>): real {
    Sum(Amounts(market, day, holdings))
  }

  /** Holdings are valued one by one: at the day's close, and at nothing when there is none. */
  lemma ValueGrows(market: RebalanceMarket, day: Day, holdings: seq<Holding>, h: Holding)
    ensures HasClose(market.closes, h.key, day) ==>
              Value(market, day, holdings + [h]) == Value(market, day, holdings) + h.value * market.closes[h.key][day]
    ensures !HasClose(market.closes, h.key, day) ==>
              Value(market, day, holdings + [h]) == Value(market, day, holdings)
  {
    assert Amounts(market, day, holdings + [h])[..|holdings|] == Amounts(market, day, holdings);
  }

  predicate Tradable(market: RebalanceMarket, day: Day, codes: seq<Code>) {
    forall i :: 0 <= i < |codes| ==> HasClose(market.closes, codes[i], day) && market.closes[codes[i]][day] > 0.0
  }

  function Bought(market: RebalanceMarket, day: Day, codes: seq<Code>, alloc: real): seq<Holding>
    requires Tradable(market, day, codes)
  {
    if codes == [] then []
    else
      var code := codes[|codes| - 1];
      Put(Bought(market, day, codes[..|codes| - 1], alloc), code, alloc / market.closes[code][day])
  }

  /** All of the given money spread evenly over the stocks, or kept as cash when there are none. */
  function Invest(market: RebalanceMarket, day: Day, codes: seq<Code>, money: real): Portfolio
    requires Tradable(market, day, codes)
  {
    if codes == [] then Portfolio(money, [])
    else Portfolio(0.0, Bought(market, day, codes, money / |codes| as real))
  }

  function Worth(market: RebalanceMarket, day: Day, p: Portfolio): real {
    p.cash + Value(market, day, p.holdings)
  }

  predicate IsFirstOfPeriod(market: RebalanceMarket, days: seq<Day>, i: nat)
    requires i < |days|
  {
    forall j :: 0 <= j < i ==> market.periodOf(days[j]) != market.periodOf(days[i])
  }

  ghost predicate Simulable(market: RebalanceMarket, days: seq<Day>) {
    forall d <- days :: Tradable(market, d, market.signal(d))
  }

  /** The portfolio at the end of the n-th day. */
  function After(market: RebalanceMarket, days: seq<Day>, n: nat, initial: real): Portfolio
    requires Simulable(market, days) && n <= |days|
  {
    if n == 0 then Portfolio(initial, [])
    else
      var before := After(market, days, n - 1, initial);
      if IsFirstOfPeriod(market, days, n - 1)
      then Invest(market, days[n - 1], market.signal(days[n - 1]), Worth(market, days[n - 1], before))
      else before
  }

  function RecordAt(market: RebalanceMarket, days: seq<Day>, i: nat, initial: real): Record
    requires Simulable(market, days) && i < |days|
  {
    var p := After(market, days, i + 1, initial);
    var value := Value(market, days[i], p.holdings);
    Record(days[i], p.cash + value, p.cash, value, |p.holdings|, IsFirstOfPeriod(market, days, i))
  }

  // ---------------------------------------------------------------------------------------------
  // Independent definition of the equity.

  function Ratios(market: RebalanceMarket, from: Day, to: Day, codes: seq<Code>): seq<real>
    requires Tradable(market, from, codes) && Tradable(market, to, codes)
  {
    seq(|codes|, i requires 0 <= i < |codes| => market.closes[codes[i]][to] / market.closes[codes[i]][from])
  }

  /** What the stocks bought on one day have become worth on another, per unit of money. */
  function MeanRatio(market: RebalanceMarket, from: Day, to: Day, codes: seq<Code>): real
    requires Tradable(market, from, codes) && Tradable(market, to, codes)
  {
    if codes == [] then 1.0 else Sum(Ratios(market, from, to, codes)) / |codes| as real
  }

  /** The last rebalancing day up to day i. */
  function LastRebalance(market: RebalanceMarket, days: seq<Day>, i: nat): (r: nat)
    requires i < |days|
    ensures r <= i && IsFirstOfPeriod(market, days, r)
    ensures forall j :: r < j <= i ==> !IsFirstOfPeriod(market, days, j)
  {
    if IsFirstOfPeriod(market, days, i) then i else LastRebalance(market, days, i - 1)
  }

  /** Every stock the strategy ever buys has a price on every trading day. */
  ghost predicate EveryDayTradable(market: RebalanceMarket, days: seq<Day>) {
    forall d, e | d in days && e in days :: Tradable(market, d, market.signal(e))
  }

  /** Initial cash times the mean price ratio of every period so far, the running one up to today. */
  ghost function Compounded(market: RebalanceMarket, days: seq<Day>, i: nat, initial: real): real
    requires i < |days|
    requires EveryDayTradable(market, days)
  {
    if i == 0 then initial
    else
      var r := LastRebalance(market, days, i - 1);
      assert days[r] in days && days[i] in days;
      Compounded(market, days, r, initial) * MeanRatio(market, days[r], days[i], market.signal(days[r]))
  }

  // ---------------------------------------------------------------------------------------------
  // The two agree.

  lemma AllTradable(market: RebalanceMarket, days: seq<Day>)
    requires WellFormed(market, days)
    ensures Simulable(market, days) && EveryDayTradable(market, days)
  {
    forall d, e | d in days && e in days ensures Tradable(market, d, market.signal(e)) {
      assert Buyable(market, market.signal(e));
    }
  }

  /** Every x is the factor times its y. */
  ghost predicate Scaled(factor: real, xs: seq<real>, ys: seq<real>) {
    && |xs| == |ys|
    && (xs == [] || (Scaled(factor, xs[..|xs| - 1], ys[..|ys| - 1]) && xs[|xs| - 1] == factor * ys[|ys| - 1]))
  }

  /** A common factor comes out of a sum. */
  lemma {:induction false} SumScaled(factor: real, xs: seq<real>, ys: seq<real>)
    requires Scaled(factor, xs, ys)
    ensures Sum(xs) == factor * Sum(ys)
  {
    if xs != [] {
      SumScaled(factor, xs[..|xs| - 1], ys[..|ys| - 1]);
    }
  }

  lemma {:induction false} SumOfOnes(xs: seq<real>)
    requires forall i :: 0 <= i < |xs| ==> xs[i] == 1.0
    ensures Sum(xs) == |xs| as real
  {
    if xs != [] {
      SumOfOnes(xs[..|xs| - 1]);
    }
  }

  lemma Spread(money: real, n: real, x: real)
    requires n > 0.0
    ensures money / n * x == money * (x / n)
  {
  }

  lemma SelfRatio(x: real)
    requires x > 0.0
    ensures x / x == 1.0
  {
  }

  /** Distinct stocks are bought in order, one holding each. */
  lemma {:induction false} BoughtAt(market: RebalanceMarket, day: Day, codes: seq<Code>, alloc: real)
    requires Buyable(market, codes) && Tradable(market, day, codes)
    ensures |Bought(market, day, codes, alloc)| == |codes|
    ensures forall i :: 0 <= i < |codes| ==>
              codes[i] in codes &&
              Bought(market, day, codes, alloc)[i] == Entry(codes[i], alloc / market.closes[codes[i]][day])
  {
    if codes != [] {
      var front, code := codes[..|codes| - 1], codes[|codes| - 1];
      BoughtAt(market, day, front, alloc);
      assert Find(Bought(market, day, front, alloc), code) == |front|;
    }
  }

  lemma OneAmount(market: RebalanceMarket, from: Day, to: Day, codes: seq<Code>, alloc: real, i: nat)
    requires Buyable(market, codes) && Tradable(market, from, codes) && Tradable(market, to, codes) && i < |codes|
    ensures i < |Bought(market, from, codes, alloc)|
    ensures Amounts(market, to, Bought(market, from, codes, alloc))[i] == alloc * Ratios(market, from, to, codes)[i]
  {
    BoughtAt(market, from, codes, alloc);
    Spread(alloc, market.closes[codes[i]][from], market.closes[codes[i]][to]);
  }

  lemma {:induction false} ScaledAll(factor: real, xs: seq<real>, ys: seq<real>)
    requires |xs| == |ys| && forall i :: 0 <= i < |xs| ==> xs[i] == factor * ys[i]
    ensures Scaled(factor, xs, ys)
  {
    if xs != [] {
      ScaledAll(factor, xs[..|xs| - 1], ys[..|ys| - 1]);
    }
  }

  lemma InvestedAmounts(market: RebalanceMarket, from: Day, to: Day, codes: seq<Code>, alloc: real)
    requires Buyable(market, codes) && Tradable(market, from, codes) && Tradable(market, to, codes)
    ensures Scaled(alloc, Amounts(market, to, Bought(market, from, codes, alloc)), Ratios(market, from, to, codes))
  {
    BoughtAt(market, from, codes, alloc);
    AmountsScale(market, from, to, codes, alloc);
    ScaledAll(alloc, Amounts(market, to, Bought(market, from, codes, alloc)), Ratios(market, from, to, codes));
  }

  lemma AmountsScale(market: RebalanceMarket, from: Day, to: Day, codes: seq<Code>, alloc: real)
    requires Buyable(market, codes) && Tradable(market, from, codes) && Tradable(market, to, codes)
    requires |Bought(market, from, codes, alloc)| == |codes|
    ensures forall i :: 0 <= i < |codes| ==>
              Amounts(market, to, Bought(market, from, codes, alloc))[i] == alloc * Ratios(market, from, to, codes)[i]
  {
    forall i | 0 <= i < |codes|
      ensures Amounts(market, to, Bought(market, from, codes, alloc))[i] == alloc * Ratios(market, from, to, codes)[i]
    {
      OneAmount(market, from, to, codes, alloc, i);
    }
  }

  lemma MeanScaled(money: real, n: real, xs: seq<real>, ys: seq<real>)
    requires n > 0.0 && Scaled(money / n, xs, ys)
    ensures Sum(xs) == money * (Sum(ys) / n)
  {
    SumScaled(money / n, xs, ys);
    Spread(money, n, Sum(ys));
  }

  /** Money invested on one day is worth, on another, that money times the mean ratio. */
  lemma InvestedWorth(market: RebalanceMarket, from: Day, to: Day, codes: seq<Code>, money: real)
    requires Buyable(market, codes) && Tradable(market, from, codes) && Tradable(market, to, codes)
    ensures Worth(market, to, Invest(market, from, codes, money)) == money * MeanRatio(market, from, to, codes)
  {
    if codes != [] {
      var alloc, n := money / |codes| as real, |codes| as real;
      InvestedAmounts(market, from, to, codes, alloc);
      MeanScaled(money, n, Amounts(market, to, Bought(market, from, codes, alloc)), Ratios(market, from, to, codes));
    }
  }

  lemma SameDayRatio(market: RebalanceMarket, day: Day, codes: seq<Code>)
    requires Tradable(market, day, codes)
    ensures MeanRatio(market, day, day, codes) == 1.0
  {
    if codes != [] {
      forall i | 0 <= i < |codes| ensures Ratios(market, day, day, codes)[i] == 1.0 {
        SelfRatio(market.closes[codes[i]][day]);
      }
      SumOfOnes(Ratios(market, day, day, codes));
      SelfRatio(|codes| as real);
    }
  }

  /** The compounded equity of a day is the worth, that day, of what was bought on the last
      rebalancing day before it. */
  lemma CompoundedIsWorth(market: RebalanceMarket, days: seq<Day>, i: nat, initial: real)
    requires WellFormed(market, days) && 0 < i < |days|
    requires EveryDayTradable(market, days)
    ensures var r := LastRebalance(market, days, i - 1);
            && days[r] in days
            && Compounded(market, days, i, initial)
               == Worth(market, days[i],
                        Invest(market, days[r], market.signal(days[r]), Compounded(market, days, r, initial)))
  {
    var r := LastRebalance(market, days, i - 1);
    assert days[i] in days && days[r] in days;
    InvestedWorth(market, days[r], days[i], market.signal(days[r]), Compounded(market, days, r, initial));
  }

  lemma InvestingKeepsWorth(market: RebalanceMarket, day: Day, codes: seq<Code>, money: real)
    requires Buyable(market, codes) && Tradable(market, day, codes)
    ensures Worth(market, day, Invest(market, day, codes, money)) == money
  {
    InvestedWorth(market, day, day, codes, money);
    SameDayRatio(market, day, codes);
  }

  /** The portfolio holds what was bought on day r with all the money there was that day. */
  ghost predicate HoldsFrom(market: RebalanceMarket, days: seq<Day>, r: nat, initial: real, p: Portfolio)
    requires r < |days| && EveryDayTradable(market, days)
  {
    days[r] in days && p == Invest(market, days[r], market.signal(days[r]), Compounded(market, days, r, initial))
  }

  lemma RebalancingDay(market: RebalanceMarket, days: seq<Day>, i: nat, initial: real, before: Portfolio)
    requires WellFormed(market, days) && 0 < i < |days| && EveryDayTradable(market, days)
    requires HoldsFrom(market, days, LastRebalance(market, days, i - 1), initial, before)
    ensures days[i] in days
    ensures HoldsFrom(market, days, i, initial,
                      Invest(market, days[i], market.signal(days[i]), Worth(market, days[i], before)))
  {
    assert days[i] in days;
    CompoundedIsWorth(market, days, i, initial);
  }

  lemma {:induction false} PortfolioOf(market: RebalanceMarket, days: seq<Day>, i: nat, initial: real)
    requires WellFormed(market, days) && i < |days| && EveryDayTradable(market, days)
    ensures Simulable(market, days)
    ensures HoldsFrom(market, days, LastRebalance(market, days, i), initial, After(market, days, i + 1, initial))
  {
    assert days[i] in days;
    if i > 0 {
      PortfolioOf(market, days, i - 1, initial);
      if IsFirstOfPeriod(market, days, i) {
        RebalancingDay(market, days, i, initial, After(market, days, i, initial));
      }
    } else {
      assert After(market, days, 0, initial) == Portfolio(initial, []);
    }
  }

  /** MAIN. On every day of every run the recorded equity is the initial cash times the mean price
      ratios of all periods so far. */
  lemma EquityCompounds(market: RebalanceMarket, days: seq<Day>, i: nat, initial: real)
    requires WellFormed(market, days) && i < |days|
    ensures Simulable(market, days) && EveryDayTradable(market, days)
    ensures RecordAt(market, days, i, initial).equity == Compounded(market, days, i, initial)
  {
    AllTradable(market, days);
    PortfolioOf(market, days, i, initial);
    var r := LastRebalance(market, days, i);
    if r == i {
      InvestingKeepsWorth(market, days[i], market.signal(days[i]), Compounded(market, days, i, initial));
    } else {
      assert LastRebalance(market, days, i - 1) == r;
      CompoundedIsWorth(market, days, i, initial);
    }
  }

  /** The other columns of a record: what was invested last is one holding per stock it was spread over, and
      money is in cash only while there are none. */
  lemma RecordIs(market: RebalanceMarket, days: seq<Day>, i: nat, initial: real)
    requires WellFormed(market, days) && i < |days|
    ensures Simulable(market, days)
    ensures var record := RecordAt(market, days, i, initial);
            var codes := market.signal(days[LastRebalance(market, days, i)]);
            && record.day == days[i] && record.holdings == |codes|
            && (record.rebalance <==> forall j :: 0 <= j < i ==> market.periodOf(days[j]) != market.periodOf(days[i]))
            && record.cash == (if codes == [] then record.equity else 0.0)
            && record.holdingsValue == (if codes == [] then 0.0 else record.equity)
  {
    AllTradable(market, days);
    PortfolioOf(market, days, i, initial);
    var r := LastRebalance(market, days, i);
    var codes, money := market.signal(days[r]), Compounded(market, days, r, initial);
    if codes != [] {
      BoughtAt(market, days[r], codes, money / |codes| as real);
    }
  }

  /** MAIN. Rebalancing neither creates nor loses money: equity right after it is the value of what was
      held right before. */
  lemma SelfFinancing(market: RebalanceMarket, days: seq<Day>, i: nat, initial: real)
    requires WellFormed(market, days) && i < |days| && Simulable(market, days) && IsFirstOfPeriod(market, days, i)
    ensures RecordAt(market, days, i, initial).equity == Worth(market, days[i], After(market, days, i, initial))
  {
    assert days[i] in days;
    InvestingKeepsWorth(market, days[i], market.signal(days[i]),
                        Worth(market, days[i], After(market, days, i, initial)));
  }
}
