/** The swing backtest: what one day does to the book of cash, open positions and closed trades. The
    functions follow the executor's three phases; the lemmas say what every run of them keeps. Money
    and quantities are exact. */
module DirectTrade {
  import opened Prelude
  import opened Prices

  datatype Reason = TakeProfit | StopLoss | TimeExit

  datatype RawPosition = Position(code: Code, entryPrice: real, quantity: real, entryDay: Day, holdingDays: int)

  /** An open position was entered at a positive price with a positive quantity. */
  type Position = p: RawPosition | p.entryPrice > 0.0 && p.quantity > 0.0
    witness Position("", 1.0, 1.0, 0, 0)

  datatype Trade = Trade(code: Code, entryDay: Day, exitDay: Day, entryPrice: real, exitPrice: real,
                         quantity: real, holdingDays: int, reason: Reason)

  /** closes[c][d] is the close of stock c on day d; scan is the candidate scan including the market
      gate; decide is the strategy's exit rule. */
  datatype SwingMarket = SwingMarket(
    closes: Closes,
    scan: Day -> seq<Code>,
    decide: (Position, Day) -> Option<Reason>)

  datatype Limits = Limits(maxPositions: int, cooldownDays: int, settingsCooldownDays: int)

  datatype Book = Book(cash: real, positions: seq<Position>, trades: seq<Trade>)

  const TRADE_HISTORY_LOOKBACK_DAYS := 30

  function LookbackDays(limits: Limits): int {
    Max(limits.settingsCooldownDays * 2, TRADE_HISTORY_LOOKBACK_DAYS)
  }

  // ---------------------------------------------------------------------------------------------
  // Phase 1: exits.

  function Aged(p: Position): Position {
    p.(holdingDays := p.holdingDays + 1)
  }

  /** The position is sold today: the rule says so, one day older, and there is a close to sell at. */
  predicate Sells(market: SwingMarket, day: Day, p: Position) {
    market.decide(Aged(p), day).Some? && HasClose(market.closes, p.code, day)
  }

  /** A position that stays: a sale that could not be executed gives its extra day back. */
  function Carried(market: SwingMarket, day: Day, p: Position): Position {
    if market.decide(Aged(p), day).Some? && !HasClose(market.closes, p.code, day) then p else Aged(p)
  }

  function Sale(market: SwingMarket, day: Day, p: Position): Trade
    requires Sells(market, day, p)
  {
    Trade(p.code, p.entryDay, day, p.entryPrice, market.closes[p.code][day], p.quantity, p.holdingDays + 1,
          market.decide(Aged(p), day).value)
  }

  function Kept(market: SwingMarket, day: Day, ps: seq<Position>): seq<Position> {
    if ps == [] then []
    else
      var front, last := Kept(market, day, ps[..|ps| - 1]), ps[|ps| - 1];
      if Sells(market, day, last) then front else front + [Carried(market, day, last)]
  }

  function Sales(market: SwingMarket, day: Day, ps: seq<Position>): seq<Trade> {
    if ps == [] then []
    else
      var front, last := Sales(market, day, ps[..|ps| - 1]), ps[|ps| - 1];
      if Sells(market, day, last) then front + [Sale(market, day, last)] else front
  }

  function Proceeds(trades: seq<Trade>): real {
    if trades == [] then 0.0
    else Proceeds(trades[..|trades| - 1]) + trades[|trades| - 1].quantity * trades[|trades| - 1].exitPrice
  }

  function AfterExits(market: SwingMarket, day: Day, book: Book): Book {
    var sales := Sales(market, day, book.positions);
    Book(book.cash + Proceeds(sales), Kept(market, day, book.positions), book.trades + sales)
  }

  /** What becomes of one position: the rule is asked about it one day older. */
  lemma OneExit(market: SwingMarket, day: Day, p: Position)
    ensures var reason := market.decide(p.(holdingDays := p.holdingDays + 1), day);
            && (reason.None? ==>
                  Kept(market, day, [p]) == [p.(holdingDays := p.holdingDays + 1)] && Sales(market, day, [p]) == [])
            && (reason.Some? && !HasClose(market.closes, p.code, day) ==>
                  Kept(market, day, [p]) == [p] && Sales(market, day, [p]) == [])
            && (reason.Some? && HasClose(market.closes, p.code, day) ==>
                  && Kept(market, day, [p]) == []
                  && Sales(market, day, [p])
                     == [Trade(p.code, p.entryDay, day, p.entryPrice, market.closes[p.code][day], p.quantity,
                               p.holdingDays + 1, reason.value)])
  {
    assert [p][..0] == [];
  }

  /** The positions are looked at one by one, in order, whatever becomes of the others. */
  lemma {:induction false} ExitsSplit(market: SwingMarket, day: Day, a: seq<Position>, b: seq<Position>)
    ensures Kept(market, day, a + b) == Kept(market, day, a) + Kept(market, day, b)
    ensures Sales(market, day, a + b) == Sales(market, day, a) + Sales(market, day, b)
  {
    if b == [] {
      assert a + b == a;
    } else {
      assert (a + b)[..|a + b| - 1] == a + b[..|b| - 1];
      ExitsSplit(market, day, a, b[..|b| - 1]);
    }
  }

  // ---------------------------------------------------------------------------------------------
  // Phase 2: entries.

  predicate Held(positions: seq<Position>, code: Code) {
    exists p <- positions :: p.code == code
  }

  /** The stock was sold at most `days` days ago. */
  predicate SoldWithin(trades: seq<Trade>, code: Code, day: Day, days: int) {
    exists t <- trades :: t.code == code && day - t.exitDay <= days
  }

  function Recent(trades: seq<Trade>, day: Day, days: int): seq<Trade> {
    if trades == [] then []
    else
      var front, last := Recent(trades[..|trades| - 1], day, days), trades[|trades| - 1];
      if day - last.exitDay <= days then front + [last] else front
  }

  /** The scanned stocks that are neither held nor cooling down, in scan order. */
  function EntrySignals(codes: seq<Code>, positions: seq<Position>, history: seq<Trade>, day: Day, cooldown: int)
    : seq<Code>
  {
    if codes == [] then []
    else
      var front, last := EntrySignals(codes[..|codes| - 1], positions, history, day, cooldown), codes[|codes| - 1];
      if Held(positions, last) || SoldWithin(history, last, day, cooldown) then front else front + [last]
  }

  function Head(codes: seq<Code>, n: int): seq<Code> {
    if n <= 0 then [] else if n < |codes| then codes[..n] else codes
  }

  function SizePosition(cash: real, entries: int): real {
    if entries <= 0 then 0.0 else cash / entries as real
  }

  predicate CanEnter(market: SwingMarket, day: Day, code: Code, cash: real, entries: int) {
    && HasClose(market.closes, code, day) && market.closes[code][day] > 0.0
    && SizePosition(cash, entries) / market.closes[code][day] > 0.0
    && SizePosition(cash, entries) <= cash
  }

  function Entry(market: SwingMarket, day: Day, code: Code, cash: real, entries: int): Position
    requires CanEnter(market, day, code, cash, entries)
  {
    var price := market.closes[code][day];
    Position(code, price, SizePosition(cash, entries) / price, day, 0)
  }

  function EnterOne(market: SwingMarket, day: Day, code: Code, entries: int, book: Book): Book {
    if CanEnter(market, day, code, book.cash, entries) then
      var p := Entry(market, day, code, book.cash, entries);
      book.(cash := book.cash - p.quantity * p.entryPrice, positions := book.positions + [p])
    else book
  }

  /** The book after the given candidates were tried in order, each sized as one of `entries`. */
  function Entered(market: SwingMarket, day: Day, codes: seq<Code>, entries: int, book: Book): Book {
    if codes == [] then book
    else EnterOne(market, day, codes[|codes| - 1], entries, Entered(market, day, codes[..|codes| - 1], entries, book))
  }

  function Candidates(market: SwingMarket, limits: Limits, day: Day, book: Book): seq<Code> {
    Head(EntrySignals(market.scan(day), book.positions, Recent(book.trades, day, LookbackDays(limits)), day,
                      limits.cooldownDays),
         limits.maxPositions - |book.positions|)
  }

  function AfterEntries(market: SwingMarket, limits: Limits, day: Day, book: Book): Book {
    var codes := Candidates(market, limits, day, book);
    Entered(market, day, codes, |codes|, book)
  }

  /** A candidate is bought whenever it has a price and there is cash left, for its share of that cash. */
  lemma OneEntered(market: SwingMarket, day: Day, code: Code, entries: int, book: Book)
    ensures var after := Entered(market, day, [code], entries, book);
            if entries >= 1 && HasClose(market.closes, code, day) && market.closes[code][day] > 0.0 && book.cash > 0.0
            then
              var close := market.closes[code][day];
              && after.positions != [] && after.trades == book.trades
              && var p := after.positions[|after.positions| - 1];
              && after.positions == book.positions + [p]
              && p.code == code && p.entryPrice == close && p.entryDay == day && p.holdingDays == 0
              && p.quantity * close == book.cash / entries as real
              && after.cash == book.cash - book.cash / entries as real
            else after == book
  {
    assert [code][..0] == [];
    if entries >= 1 && HasClose(market.closes, code, day) && market.closes[code][day] > 0.0 {
      ShareIs(book.cash, entries, market.closes[code][day]);
    }
  }

  lemma ShareIs(cash: real, entries: int, close: real)
    requires entries >= 1 && close > 0.0
    ensures var share := SizePosition(cash, entries);
            && share == cash / entries as real
            && (share / close > 0.0 && share <= cash <==> cash > 0.0)
            && share / close * close == share
  {
    var share, n := SizePosition(cash, entries), entries as real;
    assert share * n == cash;
    if cash > 0.0 {
      assert share > 0.0;
      assert share * (n - 1.0) >= 0.0;
    } else if cash < 0.0 {
      assert share < 0.0;
    }
  }

  /** Candidates are tried one after the other. */
  lemma {:induction false} EntriesCompose(market: SwingMarket, day: Day, a: seq<Code>, b: seq<Code>, entries: int,
                                          book: Book)
    ensures Entered(market, day, a + b, entries, book)
         == Entered(market, day, b, entries, Entered(market, day, a, entries, book))
  {
    if b == [] {
      assert a + b == a;
    } else {
      assert (a + b)[..|a + b| - 1] == a + b[..|b| - 1];
      EntriesCompose(market, day, a, b[..|b| - 1], entries, book);
    }
  }

  /** A scanned stock is a signal unless a position of it is open or it was sold within the cooldown. */
  lemma OneSignal(code: Code, positions: seq<Position>, history: seq<Trade>, day: Day, cooldown: int)
    ensures EntrySignals([code], positions, history, day, cooldown)
         == if || (exists p <- positions :: p.code == code)
               || (exists t <- history :: t.code == code && day - t.exitDay <= cooldown)
            then [] else [code]
  {
    assert [code][..0] == [];
  }

  lemma {:induction false} SignalsSplit(a: seq<Code>, b: seq<Code>, positions: seq<Position>, history: seq<Trade>,
                                        day: Day, cooldown: int)
    ensures EntrySignals(a + b, positions, history, day, cooldown)
         == EntrySignals(a, positions, history, day, cooldown) + EntrySignals(b, positions, history, day, cooldown)
  {
    if b == [] {
      assert a + b == a;
    } else {
      assert (a + b)[..|a + b| - 1] == a + b[..|b| - 1];
      SignalsSplit(a, b[..|b| - 1], positions, history, day, cooldown);
    }
  }

  /** The candidates are the first signals, as many as there are free slots. */
  lemma CandidatesAre(market: SwingMarket, limits: Limits, day: Day, book: Book)
    ensures var signals := EntrySignals(market.scan(day), book.positions,
                                        Recent(book.trades, day, LookbackDays(limits)), day, limits.cooldownDays);
            var codes, slots := Candidates(market, limits, day, book), limits.maxPositions - |book.positions|;
            && codes <= signals
            && (0 <= slots <= |signals| ==> |codes| == slots)
            && (slots > |signals| ==> codes == signals)
            && (slots < 0 ==> codes == [])
  {
  }

  // ---------------------------------------------------------------------------------------------
  // Days.

  function AfterDay(market: SwingMarket, limits: Limits, day: Day, book: Book): Book {
    AfterEntries(market, limits, day, AfterExits(market, day, book))
  }

  function AfterDays(market: SwingMarket, limits: Limits, days: seq<Day>, initial: real): Book {
    if days == [] then Book(initial, [], [])
    else AfterDay(market, limits, days[|days| - 1], AfterDays(market, limits, days[..|days| - 1], initial))
  }

  /** Value at today's closes of the positions that have one. */
  function HoldingsValue(market: SwingMarket, day: Day, ps: seq<Position>): real {
    if ps == [] then 0.0
    else
      var last := ps[|ps| - 1];
      HoldingsValue(market, day, ps[..|ps| - 1])
      + if HasClose(market.closes, last.code, day) then last.quantity * market.closes[last.code][day] else 0.0
  }

  // ---------------------------------------------------------------------------------------------
  // Conservation.

  function Realized(trades: seq<Trade>): real {
    if trades == [] then 0.0
    else
      var t := trades[|trades| - 1];
      Realized(trades[..|trades| - 1]) + t.quantity * (t.exitPrice - t.entryPrice)
  }

  function Invested(ps: seq<Position>): real {
    if ps == [] then 0.0
    else Invested(ps[..|ps| - 1]) + ps[|ps| - 1].quantity * ps[|ps| - 1].entryPrice
  }

  /** Every unit of cash is initial cash, a realized gain, or out in an open position. */
  predicate Balanced(initial: real, book: Book) {
    book.cash == initial + Realized(book.trades) - Invested(book.positions)
  }

  lemma {:induction false} RealizedAppend(a: seq<Trade>, b: seq<Trade>)
    ensures Realized(a + b) == Realized(a) + Realized(b)
  {
    if b == [] {
      assert a + b == a;
    } else {
      assert (a + b)[..|a + b| - 1] == a + b[..|b| - 1];
      RealizedAppend(a, b[..|b| - 1]);
    }
  }

  lemma Snoc(ts: seq<Trade>, t: Trade)
    ensures Realized(ts + [t]) == Realized(ts) + t.quantity * (t.exitPrice - t.entryPrice)
    ensures Proceeds(ts + [t]) == Proceeds(ts) + t.quantity * t.exitPrice
  {
    assert (ts + [t])[..|ts|] == ts;
  }

  lemma SnocPosition(ps: seq<Position>, p: Position)
    ensures Invested(ps + [p]) == Invested(ps) + p.quantity * p.entryPrice
  {
    assert (ps + [p])[..|ps|] == ps;
  }

  lemma GainSplits(q: real, entry: real, exit: real)
    ensures q * exit - q * (exit - entry) == q * entry
  {
  }

  lemma SaleReturns(ts: seq<Trade>, t: Trade)
    ensures Proceeds(ts + [t]) - Realized(ts + [t]) == Proceeds(ts) - Realized(ts) + t.quantity * t.entryPrice
  {
    Snoc(ts, t);
    GainSplits(t.quantity, t.entryPrice, t.exitPrice);
  }

  /** What was invested in the sold positions leaves the positions and comes back with its gain. */
  predicate SalesReturn(ps: seq<Position>, sales: seq<Trade>, kept: seq<Position>) {
    Proceeds(sales) - Realized(sales) == Invested(ps) - Invested(kept)
  }

  lemma OneSold(ps: seq<Position>, sales: seq<Trade>, kept: seq<Position>, p: Position, t: Trade)
    requires SalesReturn(ps, sales, kept) && t.quantity == p.quantity && t.entryPrice == p.entryPrice
    ensures SalesReturn(ps + [p], sales + [t], kept)
  {
    SaleReturns(sales, t);
    SnocPosition(ps, p);
  }

  lemma OneKept(ps: seq<Position>, sales: seq<Trade>, kept: seq<Position>, p: Position, k: Position)
    requires SalesReturn(ps, sales, kept) && k.quantity == p.quantity && k.entryPrice == p.entryPrice
    ensures SalesReturn(ps + [p], sales, kept + [k])
  {
    SnocPosition(ps, p);
    SnocPosition(kept, k);
  }

  lemma {:induction false} SalesBalance(market: SwingMarket, day: Day, ps: seq<Position>)
    ensures SalesReturn(ps, Sales(market, day, ps), Kept(market, day, ps))
  {
    if ps != [] {
      var front, last := ps[..|ps| - 1], ps[|ps| - 1];
      SalesBalance(market, day, front);
      assert ps == front + [last];
      if Sells(market, day, last) {
        OneSold(front, Sales(market, day, front), Kept(market, day, front), last, Sale(market, day, last));
      } else {
        OneKept(front, Sales(market, day, front), Kept(market, day, front), last, Carried(market, day, last));
      }
    }
  }

  lemma ExitsBalance(market: SwingMarket, day: Day, book: Book, initial: real)
    requires Balanced(initial, book)
    ensures Balanced(initial, AfterExits(market, day, book))
  {
    SalesBalance(market, day, book.positions);
    RealizedAppend(book.trades, Sales(market, day, book.positions));
  }

  lemma PositionBooked(book: Book, p: Position, initial: real)
    requires Balanced(initial, book)
    ensures Balanced(initial, book.(cash := book.cash - p.quantity * p.entryPrice, positions := book.positions + [p]))
  {
    SnocPosition(book.positions, p);
  }

  lemma EnterOneBalance(market: SwingMarket, day: Day, code: Code, entries: int, book: Book, initial: real)
    requires Balanced(initial, book)
    ensures Balanced(initial, EnterOne(market, day, code, entries, book))
  {
    if CanEnter(market, day, code, book.cash, entries) {
      PositionBooked(book, Entry(market, day, code, book.cash, entries), initial);
    }
  }

  lemma {:induction false} EntriesBalance(market: SwingMarket, day: Day, codes: seq<Code>, entries: int, book: Book,
                                          initial: real)
    requires Balanced(initial, book)
    ensures Balanced(initial, Entered(market, day, codes, entries, book))
  {
    if codes != [] {
      var front, code := codes[..|codes| - 1], codes[|codes| - 1];
      EntriesBalance(market, day, front, entries, book, initial);
      EnterOneBalance(market, day, code, entries, Entered(market, day, front, entries, book), initial);
    }
  }

  /** MAIN. At every point of every run the book balances. */
  lemma {:induction false} LedgerConserved(market: SwingMarket, limits: Limits, days: seq<Day>, initial: real)
    ensures Balanced(initial, AfterDays(market, limits, days, initial))
  {
    if days != [] {
      var front, day := days[..|days| - 1], days[|days| - 1];
      LedgerConserved(market, limits, front, initial);
      var book := AfterDays(market, limits, front, initial);
      ExitsBalance(market, day, book, initial);
      var open := AfterExits(market, day, book);
      var codes := Candidates(market, limits, day, open);
      EntriesBalance(market, day, codes, |codes|, open, initial);
    }
  }

  // ---------------------------------------------------------------------------------------------
  // Solvency and slots.

  predicate NoNegativeCloses(market: SwingMarket) {
    forall c <- market.closes :: forall d <- market.closes[c] :: market.closes[c][d] >= 0.0
  }

  predicate Solvent(limits: Limits, book: Book) {
    book.cash >= 0.0 && |book.positions| <= Max(limits.maxPositions, 0)
  }

  function Power(base: real, n: nat): real {
    if n == 0 then 1.0 else base * Power(base, n - 1)
  }

  lemma {:induction false} ExitsSolvent(market: SwingMarket, day: Day, ps: seq<Position>)
    requires NoNegativeCloses(market)
    ensures Proceeds(Sales(market, day, ps)) >= 0.0
    ensures |Kept(market, day, ps)| <= |ps|
  {
    if ps != [] {
      var front, last := ps[..|ps| - 1], ps[|ps| - 1];
      ExitsSolvent(market, day, front);
      if Sells(market, day, last) {
        Snoc(Sales(market, day, front), Sale(market, day, last));
        assert last.quantity * market.closes[last.code][day] >= 0.0;
      }
    }
  }

  /** What is left of a unit of cash after one of n equal shares was spent. */
  function Rest(n: int): real
    requires n >= 1
  {
    (n - 1) as real / n as real
  }

  lemma OneEntry(market: SwingMarket, day: Day, code: Code, cash: real, entries: int)
    requires entries >= 1 && cash >= 0.0 && CanEnter(market, day, code, cash, entries)
    ensures var p := Entry(market, day, code, cash, entries); cash - p.quantity * p.entryPrice == cash * Rest(entries)
    ensures cash * Rest(entries) >= 0.0
  {
    var p, n := Entry(market, day, code, cash, entries), entries as real;
    assert p.quantity * p.entryPrice == cash / n;
    assert Rest(entries) == 1.0 - 1.0 / n;
    assert cash / n == cash * (1.0 / n);
  }

  /** The cash left after m entries out of n candidates. */
  function Left(cash: real, n: int, m: nat): real
    requires n >= 1
    decreases m
  {
    cash * Power(Rest(n), m)
  }

  lemma OneEntryMore(market: SwingMarket, day: Day, code: Code, cash: real, entries: int, c: real, m: nat)
    requires entries >= 1 && c >= 0.0 && c == Left(cash, entries, m) && CanEnter(market, day, code, c, entries)
    ensures var p := Entry(market, day, code, c, entries);
            c - p.quantity * p.entryPrice == Left(cash, entries, m + 1) && Left(cash, entries, m + 1) >= 0.0
  {
    OneEntry(market, day, code, c, entries);
    assert Power(Rest(entries), m + 1) == Rest(entries) * Power(Rest(entries), m);
    assert c * Rest(entries) == cash * Power(Rest(entries), m) * Rest(entries);
  }

  lemma {:induction false} EntriesAppend(market: SwingMarket, day: Day, codes: seq<Code>, entries: int, book: Book)
    ensures var after := Entered(market, day, codes, entries, book);
            && 0 <= |after.positions| - |book.positions| <= |codes|
            && after.trades == book.trades && book.positions <= after.positions
  {
    if codes != [] {
      EntriesAppend(market, day, codes[..|codes| - 1], entries, book);
    }
  }

  lemma EnteredOnce(market: SwingMarket, day: Day, code: Code, entries: int, book: Book, c: real, m: nat)
    requires entries >= 1 && book.cash >= 0.0 && book.cash == Left(c, entries, m)
    ensures var after := EnterOne(market, day, code, entries, book);
            var entered := if CanEnter(market, day, code, book.cash, entries) then 1 else 0;
            && |after.positions| == |book.positions| + entered
            && after.cash == Left(c, entries, m + entered) && after.cash >= 0.0
  {
    if CanEnter(market, day, code, book.cash, entries) {
      OneEntryMore(market, day, code, c, entries, book.cash, m);
    }
  }

  /** MAIN. The m stocks actually entered out of n candidates leave c * ((n-1)/n)^m of the cash c:
      each takes its n-th of what the ones before it left. */
  lemma {:induction false} EntryCash(market: SwingMarket, day: Day, codes: seq<Code>, entries: int, book: Book)
    requires entries >= 1 && book.cash >= 0.0
    ensures var after := Entered(market, day, codes, entries, book);
            && |after.positions| >= |book.positions|
            && after.cash == Left(book.cash, entries, |after.positions| - |book.positions|)
            && after.cash >= 0.0
  {
    if codes != [] {
      var front, code := codes[..|codes| - 1], codes[|codes| - 1];
      EntryCash(market, day, front, entries, book);
      var before := Entered(market, day, front, entries, book);
      EnteredOnce(market, day, code, entries, before, book.cash, |before.positions| - |book.positions|);
    }
  }

  /** MAIN. Cash never runs out below zero and the slots are never exceeded. */
  lemma {:induction false} SolventAlways(market: SwingMarket, limits: Limits, days: seq<Day>, initial: real)
    requires NoNegativeCloses(market) && initial >= 0.0
    ensures Solvent(limits, AfterDays(market, limits, days, initial))
  {
    if days != [] {
      var front, day := days[..|days| - 1], days[|days| - 1];
      SolventAlways(market, limits, front, initial);
      var book := AfterDays(market, limits, front, initial);
      ExitsSolvent(market, day, book.positions);
      var open := AfterExits(market, day, book);
      var codes := Candidates(market, limits, day, open);
      CandidatesAre(market, limits, day, open);
      if codes != [] {
        EntryCash(market, day, codes, |codes|, open);
        EntriesAppend(market, day, codes, |codes|, open);
      }
    }
  }

  // ---------------------------------------------------------------------------------------------
  // Equity.

  /** Every open position has a close today. */
  ghost predicate AllPriced(closes: Closes, day: Day, ps: seq<Position>) {
    forall p <- ps :: HasClose(closes, p.code, day)
  }

  /** What the open positions have gained since they were entered, at today's closes. */
  ghost function Unrealized(closes: Closes, day: Day, ps: seq<Position>): real
    requires AllPriced(closes, day, ps)
  {
    if ps == [] then 0.0
    else
      var last := ps[|ps| - 1];
      Unrealized(closes, day, ps[..|ps| - 1]) + last.quantity * (closes[last.code][day] - last.entryPrice)
  }

  lemma GainOpens(q: real, entry: real, close: real)
    ensures q * entry + q * (close - entry) == q * close
  {
  }

  /** The positions that have a close today, in order. */
  function Priced(closes: Closes, day: Day, ps: seq<Position>): (priced: seq<Position>)
    ensures AllPriced(closes, day, priced)
  {
    if ps == [] then []
    else
      var front, last := Priced(closes, day, ps[..|ps| - 1]), ps[|ps| - 1];
      if HasClose(closes, last.code, day) then front + [last] else front
  }

  lemma {:induction false} PricedAll(closes: Closes, day: Day, ps: seq<Position>)
    requires AllPriced(closes, day, ps)
    ensures Priced(closes, day, ps) == ps
  {
    if ps != [] {
      assert ps[|ps| - 1] in ps && ps == ps[..|ps| - 1] + [ps[|ps| - 1]];
      PricedAll(closes, day, ps[..|ps| - 1]);
    }
  }

  ghost predicate CostsAndGains(value: real, closes: Closes, day: Day, ps: seq<Position>)
    requires AllPriced(closes, day, ps)
  {
    value == Invested(ps) + Unrealized(closes, day, ps)
  }

  lemma OnePriced(closes: Closes, day: Day, priced: seq<Position>, value: real, p: Position, amount: real)
    requires AllPriced(closes, day, priced) && HasClose(closes, p.code, day)
    requires CostsAndGains(value, closes, day, priced) && amount == p.quantity * closes[p.code][day]
    ensures AllPriced(closes, day, priced + [p])
    ensures CostsAndGains(value + amount, closes, day, priced + [p])
  {
    SnocPosition(priced, p);
    UnrealizedSnoc(closes, day, priced, p);
    GainOpens(p.quantity, p.entryPrice, closes[p.code][day]);
  }

  lemma ValueSnoc(market: SwingMarket, day: Day, ps: seq<Position>, p: Position) returns (amount: real)
    ensures HoldingsValue(market, day, ps + [p]) == HoldingsValue(market, day, ps) + amount
    ensures HasClose(market.closes, p.code, day) ==> amount == p.quantity * market.closes[p.code][day]
    ensures !HasClose(market.closes, p.code, day) ==> amount == 0.0
  {
    assert (ps + [p])[..|ps|] == ps;
    amount := if HasClose(market.closes, p.code, day) then p.quantity * market.closes[p.code][day] else 0.0;
  }

  lemma CostsAndGainsSnoc(market: SwingMarket, day: Day, ps: seq<Position>, p: Position)
    requires CostsAndGains(HoldingsValue(market, day, ps), market.closes, day, Priced(market.closes, day, ps))
    ensures CostsAndGains(HoldingsValue(market, day, ps + [p]), market.closes, day,
                          Priced(market.closes, day, ps + [p]))
  {
    var amount := ValueSnoc(market, day, ps, p);
    assert (ps + [p])[..|ps|] == ps;
    if HasClose(market.closes, p.code, day) {
      OnePriced(market.closes, day, Priced(market.closes, day, ps), HoldingsValue(market, day, ps), p, amount);
    }
  }

  /** Positions without a close count nothing, the others what they cost and have gained. */
  lemma {:induction false} ValueIsCostAndGain(market: SwingMarket, day: Day, ps: seq<Position>)
    ensures CostsAndGains(HoldingsValue(market, day, ps), market.closes, day, Priced(market.closes, day, ps))
  {
    if ps != [] {
      ValueIsCostAndGain(market, day, ps[..|ps| - 1]);
      CostsAndGainsSnoc(market, day, ps[..|ps| - 1], ps[|ps| - 1]);
      assert ps == ps[..|ps| - 1] + [ps[|ps| - 1]];
    }
  }

  lemma UnrealizedSnoc(closes: Closes, day: Day, ps: seq<Position>, p: Position)
    requires AllPriced(closes, day, ps) && HasClose(closes, p.code, day)
    ensures AllPriced(closes, day, ps + [p])
    ensures Unrealized(closes, day, ps + [p])
         == Unrealized(closes, day, ps) + p.quantity * (closes[p.code][day] - p.entryPrice)
  {
    assert (ps + [p])[..|ps|] == ps;
  }

  lemma EntryGainsNothing(market: SwingMarket, day: Day, code: Code, entries: int, book: Book)
    requires AllPriced(market.closes, day, book.positions)
    ensures var after := EnterOne(market, day, code, entries, book);
            && AllPriced(market.closes, day, after.positions)
            && Unrealized(market.closes, day, after.positions) == Unrealized(market.closes, day, book.positions)
            && after.trades == book.trades
  {
    if CanEnter(market, day, code, book.cash, entries) {
      var p := Entry(market, day, code, book.cash, entries);
      assert market.closes[p.code][day] - p.entryPrice == 0.0;
      UnrealizedSnoc(market.closes, day, book.positions, p);
    }
  }

  /** Entries are made at the day's close, so none of them gains or loses anything on the day. */
  lemma {:induction false} EntriesGainNothing(market: SwingMarket, day: Day, codes: seq<Code>, entries: int, book: Book)
    requires AllPriced(market.closes, day, book.positions)
    ensures var after := Entered(market, day, codes, entries, book);
            && AllPriced(market.closes, day, after.positions)
            && Unrealized(market.closes, day, after.positions) == Unrealized(market.closes, day, book.positions)
            && after.trades == book.trades
  {
    if codes != [] {
      var front, code := codes[..|codes| - 1], codes[|codes| - 1];
      EntriesGainNothing(market, day, front, entries, book);
      EntryGainsNothing(market, day, code, entries, Entered(market, day, front, entries, book));
    }
  }

  /** Cash plus what the open positions cost and have gained at the closes. */
  ghost function EquityAt(closes: Closes, day: Day, book: Book): real
    requires AllPriced(closes, day, book.positions)
  {
    book.cash + Invested(book.positions) + Unrealized(closes, day, book.positions)
  }

  /** The entry phase of a day leaves equity at the day's closes unchanged. */
  lemma EntriesKeepEquity(market: SwingMarket, limits: Limits, day: Day, book: Book, initial: real)
    requires AllPriced(market.closes, day, book.positions) && Balanced(initial, book)
    ensures var after := AfterEntries(market, limits, day, book);
            && AllPriced(market.closes, day, after.positions)
            && EquityAt(market.closes, day, after) == EquityAt(market.closes, day, book)
  {
    var codes := Candidates(market, limits, day, book);
    EntriesGainNothing(market, day, codes, |codes|, book);
    EntriesBalance(market, day, codes, |codes|, book, initial);
  }
}
