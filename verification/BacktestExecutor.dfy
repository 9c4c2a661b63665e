/** The direct-trade executor as it runs: one object whose cash, positions, trades and daily records
    are updated in place by loops, proved against the functions of DirectTrade. */
module BacktestExecutor {
  import opened Prelude
  import opened AscendingLists
  import opened DirectTrade
  import opened Prices

  datatype DayRecord = DayRecord(day: Day, equity: real, cash: real, holdingsValue: real, holdings: nat)

  function RecordOf(market: SwingMarket, day: Day, book: Book): DayRecord {
    var value := HoldingsValue(market, day, book.positions);
    DayRecord(day, book.cash + value, book.cash, value, |book.positions|)
  }

  function Records(market: SwingMarket, limits: Limits, days: seq<Day>, initial: real): (records: seq<DayRecord>)
    ensures |records| == |days|
  {
    if days == [] then []
    else Records(market, limits, days[..|days| - 1], initial)
         + [RecordOf(market, days[|days| - 1], AfterDays(market, limits, days, initial))]
  }

  lemma OneMoreDay(market: SwingMarket, limits: Limits, days: seq<Day>, i: nat, initial: real)
    requires i < |days|
    ensures var book := AfterDay(market, limits, days[i], AfterDays(market, limits, days[..i], initial));
            && AfterDays(market, limits, days[..i + 1], initial) == book
            && Records(market, limits, days[..i + 1], initial)
               == Records(market, limits, days[..i], initial) + [RecordOf(market, days[i], book)]
  {
    assert days[..i + 1][..i] == days[..i];
  }

  lemma RecordsGrow(market: SwingMarket, limits: Limits, days: seq<Day>, day: Day, initial: real)
    ensures Records(market, limits, days + [day], initial)
         == Records(market, limits, days, initial)
            + [RecordOf(market, day, AfterDays(market, limits, days + [day], initial))]
  {
    assert (days + [day])[..|days|] == days;
  }

  lemma {:induction false} RecordAtDay(market: SwingMarket, limits: Limits, days: seq<Day>, initial: real, i: nat)
    requires i < |days|
    ensures Records(market, limits, days, initial)[i]
         == RecordOf(market, days[i], AfterDays(market, limits, days[..i + 1], initial))
  {
    var n := |days| - 1;
    var front := days[..n];
    assert days == front + [days[n]];
    RecordsGrow(market, limits, front, days[n], initial);
    if i < n {
      RecordAtDay(market, limits, front, initial, i);
      assert front[..i + 1] == days[..i + 1];
    } else {
      assert days[..i + 1] == days;
    }
  }

  /** MAIN. On every day of every run the recorded equity is cash plus what the positions that have a close cost
      and have gained at the day's closes. When all have one, it is initial cash plus realized gains plus those
      gains. */
  lemma RecordedEquity(market: SwingMarket, limits: Limits, days: seq<Day>, initial: real, i: nat)
    requires i < |days|
    ensures var records := Records(market, limits, days, initial);
            var book := AfterDays(market, limits, days[..i + 1], initial);
            var priced := Priced(market.closes, days[i], book.positions);
            && records[i].day == days[i] && records[i].cash == book.cash && records[i].holdings == |book.positions|
            && records[i].equity == book.cash + Invested(priced) + Unrealized(market.closes, days[i], priced)
            && records[i].holdingsValue == records[i].equity - records[i].cash
            && (AllPriced(market.closes, days[i], book.positions) ==>
                  records[i].equity
                  == initial + Realized(book.trades) + Unrealized(market.closes, days[i], book.positions))
  {
    var book := AfterDays(market, limits, days[..i + 1], initial);
    RecordAtDay(market, limits, days, initial, i);
    LedgerConserved(market, limits, days[..i + 1], initial);
    ValueIsCostAndGain(market, days[i], book.positions);
    if AllPriced(market.closes, days[i], book.positions) {
      PricedAll(market.closes, days[i], book.positions);
    }
  }

  // ---------------------------------------------------------------------------------------------
  // Popping the closed positions.

  /** The positions that sell today, by index, in ascending order. */
  function ClosedIndices(market: SwingMarket, day: Day, ps: seq<Position>): seq<nat> {
    if ps == [] then []
    else
      var front := ClosedIndices(market, day, ps[..|ps| - 1]);
      if Sells(market, day, ps[|ps| - 1]) then front + [|ps| - 1] else front
  }

  /** The list as it stands after the exit loop: every position aged, or left as it was when its sale
      could not be executed. */
  function Marked(market: SwingMarket, day: Day, ps: seq<Position>): (marked: seq<Position>)
    ensures |marked| == |ps|
  {
    if ps == [] then []
    else Marked(market, day, ps[..|ps| - 1]) + [Carried(market, day, ps[|ps| - 1])]
  }

  /** Indices of a list of n elements, each once, in ascending order. */
  ghost predicate IndicesOf(idx: seq<nat>, n: nat) {
    Ascending(idx) && forall i <- idx :: i < n
  }

  /** The list after popping the given indices, the last one first. */
  function Popped<T>(s: seq<T>, idx: seq<nat>): seq<T>
    requires IndicesOf(idx, |s|)
    decreases |idx|
  {
    if idx == [] then s
    else
      var c := idx[|idx| - 1];
      AllButLast(idx, |s|);
      Popped(s[..c] + s[c + 1..], idx[..|idx| - 1])
  }

  lemma AllButLast(idx: seq<nat>, n: nat)
    requires IndicesOf(idx, n) && idx != []
    ensures idx[|idx| - 1] < n && IndicesOf(idx[..|idx| - 1], n - 1)
  {
    assert idx[|idx| - 1] in idx;
  }

  lemma AddIndex(idx: seq<nat>, n: nat)
    requires IndicesOf(idx, n)
    ensures IndicesOf(idx + [n], n + 1) && (idx + [n])[..|idx|] == idx
  {
    assert forall i :: 0 <= i < |idx| ==> idx[i] in idx;
  }

  lemma {:induction false} PoppedKeepsLast<T>(s: seq<T>, x: T, idx: seq<nat>)
    requires IndicesOf(idx, |s|)
    ensures IndicesOf(idx, |s + [x]|) && Popped(s + [x], idx) == Popped(s, idx) + [x]
    decreases |idx|
  {
    if idx != [] {
      var c := idx[|idx| - 1];
      AllButLast(idx, |s|);
      assert (s + [x])[..c] + (s + [x])[c + 1..] == (s[..c] + s[c + 1..]) + [x];
      PoppedKeepsLast(s[..c] + s[c + 1..], x, idx[..|idx| - 1]);
    }
  }

  /** Popping the closed indices in descending order leaves exactly the unclosed positions, in order. */
  lemma {:induction false} PoppingKeepsUnclosed(market: SwingMarket, day: Day, ps: seq<Position>)
    ensures IndicesOf(ClosedIndices(market, day, ps), |ps|)
    ensures Popped(Marked(market, day, ps), ClosedIndices(market, day, ps)) == Kept(market, day, ps)
  {
    if ps != [] {
      var front, last := ps[..|ps| - 1], ps[|ps| - 1];
      PoppingKeepsUnclosed(market, day, front);
      var marked, closed := Marked(market, day, front), ClosedIndices(market, day, front);
      var x := Carried(market, day, last);
      if Sells(market, day, last) {
        AddIndex(closed, |front|);
        assert (marked + [x])[..|front|] + (marked + [x])[|front| + 1..] == marked;
      } else {
        PoppedKeepsLast(marked, x, closed);
      }
    }
  }

  /** Where the exit loop stands after the first i of the positions ps. */
  ghost predicate ExitLoop(market: SwingMarket, day: Day, ps: seq<Position>, start: Book, i: nat,
                           closed: seq<nat>, now: Book)
  {
    && i <= |ps| && closed == ClosedIndices(market, day, ps[..i])
    && now.positions == Marked(market, day, ps[..i]) + ps[i..]
    && now.trades == start.trades + Sales(market, day, ps[..i])
    && now.cash == start.cash + Proceeds(Sales(market, day, ps[..i]))
  }

  /** What the first i + 1 positions add to what the first i do. */
  lemma OneMore(market: SwingMarket, day: Day, ps: seq<Position>, i: nat)
    requires i < |ps|
    ensures var front, p := ps[..i], ps[i];
            && Marked(market, day, ps[..i + 1]) == Marked(market, day, front) + [Carried(market, day, p)]
            && ClosedIndices(market, day, ps[..i + 1])
               == (if Sells(market, day, p) then ClosedIndices(market, day, front) + [i]
                   else ClosedIndices(market, day, front))
            && Sales(market, day, ps[..i + 1])
               == (if Sells(market, day, p) then Sales(market, day, front) + [Sale(market, day, p)]
                   else Sales(market, day, front))
  {
    assert ps[..i + 1][..i] == ps[..i];
  }

  /** The book after the check of position i. */
  function Checked(market: SwingMarket, day: Day, i: nat, book: Book): Book
    requires i < |book.positions|
  {
    var p := book.positions[i];
    var positions := book.positions[i := Carried(market, day, p)];
    if Sells(market, day, p) then
      var t := Sale(market, day, p);
      Book(book.cash + t.quantity * t.exitPrice, positions, book.trades + [t])
    else Book(book.cash, positions, book.trades)
  }

  lemma SaleBooked(start: Book, sales: seq<Trade>, t: Trade)
    ensures (start.cash + Proceeds(sales)) + t.quantity * t.exitPrice == start.cash + Proceeds(sales + [t])
    ensures (start.trades + sales) + [t] == start.trades + (sales + [t])
  {
    Snoc(sales, t);
  }

  lemma HeadReplaced<T>(done: seq<T>, rest: seq<T>, x: T)
    requires rest != []
    ensures (done + rest)[|done|] == rest[0] && (done + rest)[|done| := x] == (done + [x]) + rest[1..]
  {
  }

  /** One round of the exit loop. */
  lemma ExitLoopStep(market: SwingMarket, day: Day, ps: seq<Position>, start: Book, i: nat, closed: seq<nat>,
                     now: Book)
    requires ExitLoop(market, day, ps, start, i, closed, now) && i < |ps|
    ensures |now.positions| == |ps| && now.positions[i] == ps[i]
    ensures ExitLoop(market, day, ps, start, i + 1, if Sells(market, day, ps[i]) then closed + [i] else closed,
                     Checked(market, day, i, now))
  {
    OneMore(market, day, ps, i);
    HeadReplaced(Marked(market, day, ps[..i]), ps[i..], Carried(market, day, ps[i]));
    assert ps[i..][1..] == ps[i + 1..];
    if Sells(market, day, ps[i]) {
      SaleBooked(start, Sales(market, day, ps[..i]), Sale(market, day, ps[i]));
    }
  }

  class Executor {
    const market: SwingMarket
    const limits: Limits
    var cash: real
    var positions: seq<Position>
    var trades: seq<Trade>
    var records: seq<DayRecord>

    ghost function Book(): Book
      reads this
    {
      DirectTrade.Book.Book(cash, positions, trades)
    }

    constructor (market: SwingMarket, limits: Limits, initialCash: real)
      ensures this.market == market && this.limits == limits
      ensures Book() == DirectTrade.Book.Book(initialCash, [], []) && records == []
    {
      this.market := market;
      this.limits := limits;
      cash := initialCash;
      positions := [];
      trades := [];
      records := [];
    }

    /** One position in the exit loop: a day older, and sold if the strategy says so and there is a
        price; without a price the day is taken back. */
    method CheckPosition(day: Day, i: nat) returns (sold: bool)
      requires i < |positions|
      modifies this`cash, this`positions, this`trades
      ensures sold == Sells(market, day, old(positions)[i])
      ensures Book() == Checked(market, day, i, old(Book()))
    {
      var pos: Position := positions[i];
      sold := false;
      pos := pos.(holdingDays := pos.holdingDays + 1);
      var decision := market.decide(pos, day);
      if decision.Some? {
        if pos.code !in market.closes || day !in market.closes[pos.code] {
          pos := pos.(holdingDays := pos.holdingDays - 1);
        } else {
          var price := market.closes[pos.code][day];
          cash := cash + pos.quantity * price;
          sold := true;
          trades := trades + [Trade(pos.code, pos.entryDay, day, pos.entryPrice, price, pos.quantity,
                                    pos.holdingDays, decision.value)];
        }
      }
      positions := positions[i := pos];
    }

    /** The exit loop: everything is marked, the sold indices are collected. */
    method SellPositions(day: Day) returns (closed: seq<nat>)
      modifies this`cash, this`positions, this`trades
      ensures positions == Marked(market, day, old(positions))
      ensures closed == ClosedIndices(market, day, old(positions))
      ensures trades == old(trades) + Sales(market, day, old(positions))
      ensures cash == old(cash) + Proceeds(Sales(market, day, old(positions)))
    {
      closed := [];
      ghost var ps, start := positions, Book();
      var i := 0;
      while i < |positions|
        invariant 0 <= i <= |ps| == |positions| && ExitLoop(market, day, ps, start, i, closed, Book())
      {
        ExitLoopStep(market, day, ps, start, i, closed, Book());
        var sold := CheckPosition(day, i);
        if sold {
          closed := closed + [i];
        }
        i := i + 1;
      }
      assert ps[..|ps|] == ps;
    }

    /** Removes the given indices, the last one first. */
    method PopClosed(closed: seq<nat>)
      requires IndicesOf(closed, |positions|)
      modifies this`positions
      ensures positions == Popped(old(positions), closed)
    {
      var n := |closed|;
      assert closed[..n] == closed;
      while n > 0
        invariant 0 <= n <= |closed| && IndicesOf(closed[..n], |positions|)
        invariant Popped(positions, closed[..n]) == Popped(old(positions), closed)
      {
        n := n - 1;
        assert closed[..n + 1][..n] == closed[..n];
        var c := closed[n];
        AllButLast(closed[..n + 1], |positions|);
        positions := positions[..c] + positions[c + 1..];
      }
    }

    /** The exit phase of a day. */
    method CheckExits(day: Day)
      modifies this`cash, this`positions, this`trades
      ensures Book() == AfterExits(market, day, old(Book()))
    {
      ghost var ps := positions;
      var closed := SellPositions(day);
      PoppingKeepsUnclosed(market, day, ps);
      PopClosed(closed);
    }

    /** One candidate of the entry loop. */
    method TryEnter(day: Day, code: Code, entries: int)
      modifies this`cash, this`positions
      ensures Book() == EnterOne(market, day, code, entries, old(Book()))
    {
      if code in market.closes && day in market.closes[code] {
        var price := market.closes[code][day];
        var alloc := SizePosition(cash, entries);
        var qty := if price > 0.0 then alloc / price else 0.0;
        if qty > 0.0 && alloc <= cash {
          positions := positions + [Position(code, price, qty, day, 0)];
          cash := cash - qty * price;
        }
      }
    }

    /** Asks the strategy for candidates and enters as many as there are free slots. */
    method EnterPositions(day: Day)
      modifies this`cash, this`positions
      ensures Book() == AfterEntries(market, limits, day, old(Book()))
    {
      var available := limits.maxPositions - |positions|;
      ghost var book := Book();
      if available > 0 {
        var history := RecentTrades(day);
        var candidates := Head(EntrySignals(market.scan(day), positions, history, day, limits.cooldownDays), available);
        var entries := |candidates|;
        var i := 0;
        while i < |candidates|
          invariant 0 <= i <= |candidates|
          invariant Book() == Entered(market, day, candidates[..i], entries, book)
        {
          assert candidates[..i + 1][..i] == candidates[..i];
          TryEnter(day, candidates[i], entries);
          i := i + 1;
        }
        assert candidates[..|candidates|] == candidates;
      }
    }

    /** The trades closed inside the lookback window. */
    method RecentTrades(day: Day) returns (history: seq<Trade>)
      ensures history == Recent(trades, day, LookbackDays(limits))
    {
      history := [];
      var i := 0;
      while i < |trades|
        invariant 0 <= i <= |trades| && history == Recent(trades[..i], day, LookbackDays(limits))
      {
        assert trades[..i + 1][..i] == trades[..i];
        if day - trades[i].exitDay <= LookbackDays(limits) {
          history := history + [trades[i]];
        }
        i := i + 1;
      }
      assert trades[..|trades|] == trades;
    }

    method Value(day: Day) returns (value: real)
      ensures value == HoldingsValue(market, day, positions)
    {
      value := 0.0;
      var i := 0;
      while i < |positions|
        invariant 0 <= i <= |positions| && value == HoldingsValue(market, day, positions[..i])
      {
        var pos := positions[i];
        assert positions[..i + 1][..i] == positions[..i];
        if pos.code in market.closes && day in market.closes[pos.code] {
          value := value + pos.quantity * market.closes[pos.code][day];
        }
        i := i + 1;
      }
      assert positions[..|positions|] == positions;
    }

    /** One run over the trading days: exits, entries, valuation. */
    method Run(days: seq<Day>)
      requires positions == [] && trades == [] && records == []
      modifies this
      ensures Book() == AfterDays(market, limits, days, old(cash))
      ensures records == Records(market, limits, days, old(cash))
    {
      var i := 0;
      while i < |days|
        invariant 0 <= i <= |days|
        invariant Book() == AfterDays(market, limits, days[..i], old(cash))
        invariant records == Records(market, limits, days[..i], old(cash))
      {
        var day := days[i];
        OneMoreDay(market, limits, days, i, old(cash));
        CheckExits(day);
        EnterPositions(day);
        var value := Value(day);
        records := records + [DayRecord(day, cash + value, cash, value, |positions|)];
        i := i + 1;
      }
      assert days[..|days|] == days;
    }
  }
}
