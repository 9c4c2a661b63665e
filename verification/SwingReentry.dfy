/** Re-entry rules of the swing strategy over whole runs: lots of one stock never overlap and keep
    their distance, the truncated trade history is enough, and no position overstays its exit rule. */
module SwingReentry {
  import opened Prelude
  import opened DirectTrade
  import opened Prices

  // ---------------------------------------------------------------------------------------------
  // The truncated history.

  lemma {:induction false} RecentMembers(trades: seq<Trade>, day: Day, days: int, t: Trade)
    ensures t in Recent(trades, day, days) <==> t in trades && day - t.exitDay <= days
  {
    if trades != [] {
      RecentMembers(trades[..|trades| - 1], day, days, t);
    }
  }

  lemma TruncatedSales(trades: seq<Trade>, code: Code, day: Day, days: int, cooldown: int)
    ensures SoldWithin(Recent(trades, day, days), code, day, cooldown)
       <==> SoldWithin(trades, code, day, Min(days, cooldown))
  {
    forall t: Trade ensures t in Recent(trades, day, days) <==> t in trades && day - t.exitDay <= days {
      RecentMembers(trades, day, days, t);
    }
  }

  lemma {:induction false} SameSignals(codes: seq<Code>, positions: seq<Position>, trades: seq<Trade>, day: Day,
                                       days: int, cooldown: int)
    requires cooldown <= days
    ensures EntrySignals(codes, positions, Recent(trades, day, days), day, cooldown)
         == EntrySignals(codes, positions, trades, day, cooldown)
  {
    if codes != [] {
      SameSignals(codes[..|codes| - 1], positions, trades, day, days, cooldown);
      TruncatedSales(trades, codes[|codes| - 1], day, days, cooldown);
    }
  }

  predicate SameCandidates(limits: Limits, codes: seq<Code>, positions: seq<Position>, trades: seq<Trade>, day: Day) {
    EntrySignals(codes, positions, Recent(trades, day, LookbackDays(limits)), day, limits.cooldownDays)
    == EntrySignals(codes, positions, trades, day, limits.cooldownDays)
  }

  /** The executor's window changes no candidate list, whatever was traded, if and only if the
      strategy's cooldown fits into it. */
  lemma WindowSufficesIff(limits: Limits)
    ensures (forall codes, positions, trades, day :: SameCandidates(limits, codes, positions, trades, day))
       <==> limits.cooldownDays <= 30 || limits.cooldownDays <= 2 * limits.settingsCooldownDays
  {
    var days, cooldown := LookbackDays(limits), limits.cooldownDays;
    if cooldown <= days {
      forall codes, positions, trades, day
        ensures SameCandidates(limits, codes, positions, trades, day)
      {
        SameSignals(codes, positions, trades, day, days, cooldown);
      }
    } else {
      var trade := Trade("A", -cooldown, -cooldown, 1.0, 1.0, 1.0, 0, TimeExit);
      assert Recent([trade], 0, days) == [];
      assert ["A"][..0] == [];
      assert EntrySignals(["A"], [], [], 0, cooldown) == ["A"];
      assert trade in [trade] && SoldWithin([trade], "A", 0, cooldown);
      assert EntrySignals(["A"], [], [trade], 0, cooldown) == [];
      assert !SameCandidates(limits, ["A"], [], [trade], 0);
    }
  }

  // ---------------------------------------------------------------------------------------------
  // Spacing.

  ghost predicate DistinctStocks(ps: seq<Position>) {
    forall i, j :: 0 <= i < j < |ps| ==> ps[i].code != ps[j].code
  }

  ghost predicate DistinctCodes(codes: seq<Code>) {
    forall i, j :: 0 <= i < j < |codes| ==> codes[i] != codes[j]
  }

  /** More days than the cooldown, or more than the window shows the strategy: 30, or twice the days of
      the settings. */
  predicate Follows(limits: Limits, exitDay: Day, entryDay: Day) {
    var gap := entryDay - exitDay;
    gap >= 0 && (gap > limits.cooldownDays || (gap > 30 && gap > 2 * limits.settingsCooldownDays))
  }

  /** No stock is held twice, each lot was entered after every earlier lot of its stock was closed, and
      far enough from it. */
  ghost predicate Spaced(limits: Limits, book: Book) {
    && DistinctStocks(book.positions)
    && (forall t <- book.trades, p <- book.positions :: t.code == p.code ==> Follows(limits, t.exitDay, p.entryDay))
    && (forall i, j :: 0 <= i < j < |book.trades| && book.trades[i].code == book.trades[j].code
                       ==> Follows(limits, book.trades[i].exitDay, book.trades[j].entryDay))
  }

  ghost predicate ClosedBy(book: Book, day: Day) {
    forall t <- book.trades :: t.exitDay <= day
  }

  predicate LotOf(ps: seq<Position>, code: Code, entryDay: Day) {
    exists p <- ps :: p.code == code && p.entryDay == entryDay
  }

  lemma LotOfGrows(ps: seq<Position>, p: Position, code: Code, entryDay: Day)
    ensures LotOf(ps + [p], code, entryDay) <==> LotOf(ps, code, entryDay) || (p.code == code && p.entryDay == entryDay)
  {
    if LotOf(ps, code, entryDay) {
      var q :| q in ps && q.code == code && q.entryDay == entryDay;
      assert q in ps + [p];
    } else if p.code == code && p.entryDay == entryDay {
      assert p in ps + [p];
    }
  }

  /** Where the kept positions and the new trades come from. */
  lemma {:induction false} ExitShape(market: SwingMarket, day: Day, ps: seq<Position>)
    ensures forall k <- Kept(market, day, ps) :: LotOf(ps, k.code, k.entryDay)
    ensures forall t <- Sales(market, day, ps) :: LotOf(ps, t.code, t.entryDay) && t.exitDay == day
  {
    if ps != [] {
      var front, last := ps[..|ps| - 1], ps[|ps| - 1];
      ExitShape(market, day, front);
      assert ps == front + [last];
      forall k | k in Kept(market, day, ps) ensures LotOf(ps, k.code, k.entryDay) {
        LotOfGrows(front, last, k.code, k.entryDay);
      }
      forall t | t in Sales(market, day, ps) ensures LotOf(ps, t.code, t.entryDay) && t.exitDay == day {
        LotOfGrows(front, last, t.code, t.entryDay);
      }
    }
  }

  lemma {:induction false} ExitsSeparate(market: SwingMarket, day: Day, ps: seq<Position>)
    requires DistinctStocks(ps)
    ensures DistinctStocks(Kept(market, day, ps))
    ensures forall t <- Sales(market, day, ps), k <- Kept(market, day, ps) :: t.code != k.code
    ensures var sales := Sales(market, day, ps);
            forall i, j :: 0 <= i < j < |sales| ==> sales[i].code != sales[j].code
  {
    if ps != [] {
      var front, last := ps[..|ps| - 1], ps[|ps| - 1];
      ExitsSeparate(market, day, front);
      ExitShape(market, day, front);
      assert forall p <- front :: p.code != last.code;
      assert forall t <- Sales(market, day, front) :: t.code != last.code;
    }
  }

  lemma ExitsSpaced(market: SwingMarket, limits: Limits, day: Day, book: Book)
    requires Spaced(limits, book) && ClosedBy(book, day)
    ensures Spaced(limits, AfterExits(market, day, book)) && ClosedBy(AfterExits(market, day, book), day)
  {
    var after, n := AfterExits(market, day, book), |book.trades|;
    ExitShape(market, day, book.positions);
    ExitsSeparate(market, day, book.positions);
    forall i, j | 0 <= i < j < |after.trades| && after.trades[i].code == after.trades[j].code
      ensures Follows(limits, after.trades[i].exitDay, after.trades[j].entryDay)
    {
      if n <= j {
        assert after.trades[j] in Sales(market, day, book.positions);
      }
    }
  }

  lemma {:induction false} SignalsFresh(codes: seq<Code>, positions: seq<Position>, history: seq<Trade>, day: Day,
                                        cooldown: int)
    ensures forall c <- EntrySignals(codes, positions, history, day, cooldown) ::
              c in codes && !Held(positions, c) && !SoldWithin(history, c, day, cooldown)
    ensures DistinctCodes(codes) ==> DistinctCodes(EntrySignals(codes, positions, history, day, cooldown))
  {
    if codes != [] {
      SignalsFresh(codes[..|codes| - 1], positions, history, day, cooldown);
    }
  }

  /** The entered positions are today's, of candidate stocks, each at most once. */
  lemma {:induction false} EntryShape(market: SwingMarket, day: Day, codes: seq<Code>, entries: int, book: Book)
    requires DistinctCodes(codes) && DistinctStocks(book.positions)
    requires forall c <- codes :: !Held(book.positions, c)
    ensures var after := Entered(market, day, codes, entries, book);
            && after.trades == book.trades && DistinctStocks(after.positions)
            && (forall p <- after.positions :: p in book.positions || (p.code in codes && p.entryDay == day))
  {
    if codes != [] {
      var front, code := codes[..|codes| - 1], codes[|codes| - 1];
      EntryShape(market, day, front, entries, book);
      assert forall c <- front :: c != code;
      assert !Held(book.positions, code) && forall p <- book.positions :: p.code != code;
    }
  }

  lemma EntriesSpaced(market: SwingMarket, limits: Limits, day: Day, book: Book)
    requires Spaced(limits, book) && ClosedBy(book, day) && DistinctCodes(market.scan(day))
    ensures Spaced(limits, AfterEntries(market, limits, day, book))
    ensures ClosedBy(AfterEntries(market, limits, day, book), day)
  {
    var history, codes := Recent(book.trades, day, LookbackDays(limits)), Candidates(market, limits, day, book);
    var signals := EntrySignals(market.scan(day), book.positions, history, day, limits.cooldownDays);
    SignalsFresh(market.scan(day), book.positions, history, day, limits.cooldownDays);
    assert forall c <- codes :: c in signals;
    EntryShape(market, day, codes, |codes|, book);
    var after := AfterEntries(market, limits, day, book);
    forall t, p | t in after.trades && p in after.positions && t.code == p.code
      ensures Follows(limits, t.exitDay, p.entryDay)
    {
      if p !in book.positions {
        TruncatedSales(book.trades, p.code, day, LookbackDays(limits), limits.cooldownDays);
      }
    }
  }

  ghost predicate InOrder(days: seq<Day>) {
    forall i, j :: 0 <= i < j < |days| ==> days[i] <= days[j]
  }

  /** MAIN. Along every run over ordered days and distinct scan results, no stock is held twice and
      every entry comes far enough after every earlier exit of that stock. */
  lemma {:induction false} ReentrySpaced(market: SwingMarket, limits: Limits, days: seq<Day>, initial: real)
    requires InOrder(days) && forall d <- days :: DistinctCodes(market.scan(d))
    ensures Spaced(limits, AfterDays(market, limits, days, initial))
    ensures forall d :: (forall e <- days :: e <= d) ==> ClosedBy(AfterDays(market, limits, days, initial), d)
  {
    if days != [] {
      var front, day := days[..|days| - 1], days[|days| - 1];
      assert forall e <- front :: e in days && e <= day;
      ReentrySpaced(market, limits, front, initial);
      var book := AfterDays(market, limits, front, initial);
      ExitsSpaced(market, limits, day, book);
      EntriesSpaced(market, limits, day, AfterExits(market, day, book));
      assert ClosedBy(AfterDays(market, limits, days, initial), day);
      assert day in days;
    }
  }

  // ---------------------------------------------------------------------------------------------
  // The exit rule of the reversal strategy.

  datatype ExitRule = ExitRule(takeProfit: real, stopLoss: real, maxHoldingDays: int)

  function Return(closes: Closes, p: Position, day: Day): real
    requires p.code in closes && day in closes[p.code]
  {
    (closes[p.code][day] - p.entryPrice) / p.entryPrice
  }

  function ShouldExit(rule: ExitRule, closes: Closes, p: Position, day: Day): Option<Reason> {
    if p.code !in closes || day !in closes[p.code] then None
    else
      var ret := Return(closes, p, day);
      if ret >= rule.takeProfit then Some(TakeProfit)
      else if ret <= rule.stopLoss then Some(StopLoss)
      else if p.holdingDays >= rule.maxHoldingDays then Some(TimeExit)
      else None
  }

  lemma ReturnIs(closes: Closes, p: Position, day: Day, bound: real)
    requires HasClose(closes, p.code, day)
    ensures Return(closes, p, day) >= bound <==> closes[p.code][day] - p.entryPrice >= bound * p.entryPrice
    ensures Return(closes, p, day) <= bound <==> closes[p.code][day] - p.entryPrice <= bound * p.entryPrice
  {
    var ret, gain := Return(closes, p, day), closes[p.code][day] - p.entryPrice;
    assert ret * p.entryPrice == gain;
    Compare(ret, bound, p.entryPrice);
  }

  /** When each reason is given: the gain against what the position cost, profit before loss before age. */
  lemma ReasonIff(rule: ExitRule, closes: Closes, p: Position, day: Day)
    requires HasClose(closes, p.code, day)
    ensures var gain, reason := closes[p.code][day] - p.entryPrice, ShouldExit(rule, closes, p, day);
            var profit, loss := gain >= rule.takeProfit * p.entryPrice, gain <= rule.stopLoss * p.entryPrice;
            && (reason == Some(TakeProfit) <==> profit)
            && (reason == Some(StopLoss) <==> loss && !profit)
            && (reason == Some(TimeExit) <==> !loss && !profit && p.holdingDays >= rule.maxHoldingDays)
            && (reason == None <==> !loss && !profit && p.holdingDays < rule.maxHoldingDays)
  {
    ReturnIs(closes, p, day, rule.takeProfit);
    ReturnIs(closes, p, day, rule.stopLoss);
  }

  /** Younger than the limit, and the gain against what was paid is inside both bounds. */
  predicate InBounds(rule: ExitRule, close: real, k: Position) {
    && k.holdingDays < rule.maxHoldingDays
    && rule.stopLoss * k.entryPrice < close - k.entryPrice < rule.takeProfit * k.entryPrice
  }

  lemma CarriedInBounds(rule: ExitRule, market: SwingMarket, day: Day, p: Position)
    requires market.decide(Aged(p), day) == ShouldExit(rule, market.closes, Aged(p), day)
    ensures Carried(market, day, p) == p.(holdingDays := p.holdingDays + 1)
    ensures HasClose(market.closes, p.code, day) ==>
              (Sells(market, day, p) <==> !InBounds(rule, market.closes[p.code][day], Aged(p)))
  {
    if HasClose(market.closes, p.code, day) {
      ReasonIff(rule, market.closes, Aged(p), day);
    }
  }

  /** Under this rule no sale is ever held back for want of a price, and whatever is still held at the
      end of a day on which its stock traded is inside both bounds and younger than the limit. */
  lemma {:induction false} NothingOverstays(rule: ExitRule, market: SwingMarket, day: Day, ps: seq<Position>)
    requires forall p: Position :: market.decide(p, day) == ShouldExit(rule, market.closes, p, day)
    ensures forall p <- ps :: Carried(market, day, p) == p.(holdingDays := p.holdingDays + 1)
    ensures forall k <- Kept(market, day, ps) :: HasClose(market.closes, k.code, day) ==>
              InBounds(rule, market.closes[k.code][day], k)
  {
    if ps != [] {
      NothingOverstays(rule, market, day, ps[..|ps| - 1]);
      CarriedInBounds(rule, market, day, ps[|ps| - 1]);
    }
  }
}
