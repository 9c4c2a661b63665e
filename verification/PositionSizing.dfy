/** How a rebalance turns a target list and an account into orders: the diff calculator, and the order
    generator's later recalculation from the cash that is really there. Prices, quantities and cash are
    whole numbers; ratios and shares of the budget are exact. */
module PositionSizing {
  import opened Prelude
  import opened Dictionaries
  import opened Prices

  datatype Holding = Holding(code: Code, quantity: int, price: int, evalAmount: int)

  datatype Action = Sell | Buy | Hold

  datatype Item = Item(code: Code, action: Action, currentQty: int, currentPrice: int, currentValue: int,
                       targetQty: int, targetValue: int, orderQty: int, orderValue: int)

  datatype DiffResult = DiffResult(sells: seq<Item>, holds: seq<Item>, buys: seq<Item>,
                                   totalSell: int, totalBuy: int, cashAfter: int)

  datatype OrderRequest = OrderRequest(code: Code, quantity: int, price: int)

  // ---------------------------------------------------------------------------------------------
  // Classification.

  function HoldingMap(holdings: seq<Holding>): seq<Entry<Code, Holding>> {
    if holdings == [] then []
    else
      var last := holdings[|holdings| - 1];
      Put(HoldingMap(holdings[..|holdings| - 1]), last.code, last)
  }

  function HoldItem(e: Entry<Code, Holding>): Item {
    Item(e.key, Hold, e.value.quantity, e.value.price, e.value.evalAmount, 0, 0, 0, 0)
  }

  function SellItem(e: Entry<Code, Holding>): Item {
    Item(e.key, Sell, e.value.quantity, e.value.price, e.value.evalAmount, 0, 0,
         e.value.quantity, e.value.quantity * e.value.price)
  }

  function Holds(entries: seq<Entry<Code, Holding>>, buyCodes: seq<Code>): seq<Item> {
    if entries == [] then []
    else
      var front, last := Holds(entries[..|entries| - 1], buyCodes), entries[|entries| - 1];
      if last.key in buyCodes then front + [HoldItem(last)] else front
  }

  function Sells(entries: seq<Entry<Code, Holding>>, buyCodes: seq<Code>): seq<Item> {
    if entries == [] then []
    else
      var front, last := Sells(entries[..|entries| - 1], buyCodes), entries[|entries| - 1];
      if last.key in buyCodes then front else front + [SellItem(last)]
  }

  function NewCodes(entries: seq<Entry<Code, Holding>>, buyCodes: seq<Code>): seq<Code> {
    if buyCodes == [] then []
    else
      var front, last := NewCodes(entries, buyCodes[..|buyCodes| - 1]), buyCodes[|buyCodes| - 1];
      if HasKey(entries, last) then front else front + [last]
  }

  function OrderValue(items: seq<Item>): int {
    if items == [] then 0 else OrderValue(items[..|items| - 1]) + items[|items| - 1].orderValue
  }

  function CurrentValue(items: seq<Item>): int {
    if items == [] then 0 else CurrentValue(items[..|items| - 1]) + items[|items| - 1].currentValue
  }

  // ---------------------------------------------------------------------------------------------
  // Budget and quantities.

  /** What k new stocks out of n targets may cost: their equal share of money and held value together,
      but no more than the money. */
  function Budget(money: int, held: int, n: nat, k: nat): real {
    var perStock := if n > 0 then (money + held) as real / n as real else 0.0;
    var share := perStock * k as real;
    if share <= money as real then share else money as real
  }

  function PriceOf(prices: map<Code, int>, code: Code): int {
    if code in prices then prices[code] else 0
  }

  /** Whole shares for one stock's allotment; none without a price. */
  function Quantity(alloc: real, price: int): int {
    if price <= 0 then 0 else (alloc / price as real).Floor
  }

  function BuyItems(codes: seq<Code>, alloc: real, prices: map<Code, int>): seq<Item> {
    if codes == [] then []
    else
      var front, code := BuyItems(codes[..|codes| - 1], alloc, prices), codes[|codes| - 1];
      var price := PriceOf(prices, code);
      var qty := Quantity(alloc, price);
      if qty <= 0 then front
      else front + [Item(code, Buy, 0, price, 0, qty, Truncate(alloc), qty, qty * price)]
  }

  function SpendEqually(codes: seq<Code>, budget: real, prices: map<Code, int>): seq<Item> {
    if codes != [] && budget > 0.0 then BuyItems(codes, budget / |codes| as real, prices) else []
  }

  function NetInvestable(money: int, bufferRatio: real): int {
    money - Truncate(money as real * bufferRatio)
  }

  function BudgetFor(entries: seq<Entry<Code, Holding>>, buyCodes: seq<Code>, cash: int, bufferRatio: real): real {
    var net := NetInvestable(cash + OrderValue(Sells(entries, buyCodes)), bufferRatio);
    Budget(net, CurrentValue(Holds(entries, buyCodes)), |buyCodes|, |NewCodes(entries, buyCodes)|)
  }

  function DiffWithin(entries: seq<Entry<Code, Holding>>, buyCodes: seq<Code>, cash: int, budget: real,
                      prices: map<Code, int>): DiffResult
  {
    var sells, buys := Sells(entries, buyCodes), SpendEqually(NewCodes(entries, buyCodes), budget, prices);
    DiffResult(sells, Holds(entries, buyCodes), buys, OrderValue(sells), OrderValue(buys),
               cash + OrderValue(sells) - OrderValue(buys))
  }

  /** The whole diff. */
  function Diff(buyCodes: seq<Code>, holdings: seq<Holding>, cash: int, prices: map<Code, int>, bufferRatio: real)
    : DiffResult
  {
    var entries := HoldingMap(holdings);
    DiffWithin(entries, buyCodes, cash, BudgetFor(entries, buyCodes, cash, bufferRatio), prices)
  }

  // ---------------------------------------------------------------------------------------------
  // The order generator's recalculation.

  function Unheld(buyCodes: seq<Code>, holdList: seq<Item>): seq<Code> {
    if buyCodes == [] then []
    else
      var front, last := Unheld(buyCodes[..|buyCodes| - 1], holdList), buyCodes[|buyCodes| - 1];
      if exists item <- holdList :: item.code == last then front else front + [last]
  }

  function Orders(codes: seq<Code>, alloc: real, prices: map<Code, int>, market: bool): seq<OrderRequest> {
    if codes == [] then []
    else
      var front, code := Orders(codes[..|codes| - 1], alloc, prices, market), codes[|codes| - 1];
      var price := PriceOf(prices, code);
      var qty := Quantity(alloc, price);
      if qty <= 0 then front else front + [OrderRequest(code, qty, if market then 0 else price)]
  }

  function OrdersWithin(newCodes: seq<Code>, budget: real, cash: int, prices: map<Code, int>, market: bool)
    : seq<OrderRequest>
  {
    if cash <= 0 || newCodes == [] then [] else Orders(newCodes, budget / |newCodes| as real, prices, market)
  }

  function Recalculated(cash: int, buyCodes: seq<Code>, holdList: seq<Item>, prices: map<Code, int>, market: bool)
    : seq<OrderRequest>
  {
    var newCodes := Unheld(buyCodes, holdList);
    OrdersWithin(newCodes, Budget(cash, CurrentValue(holdList), |buyCodes|, |newCodes|), cash, prices, market)
  }

  // ---------------------------------------------------------------------------------------------
  // Partition.

  lemma {:induction false} MapHasHoldings(holdings: seq<Holding>, code: Code)
    ensures DistinctKeys(HoldingMap(holdings))
    ensures HasKey(HoldingMap(holdings), code) <==> exists h <- holdings :: h.code == code
  {
    if holdings != [] {
      var front, last := holdings[..|holdings| - 1], holdings[|holdings| - 1];
      MapHasHoldings(front, code);
      PutKeeps(HoldingMap(front), last.code, last, code);
      assert holdings == front + [last];
    }
  }

  predicate Lists(items: seq<Item>, code: Code) {
    exists item <- items :: item.code == code
  }

  lemma {:induction false} Classified(entries: seq<Entry<Code, Holding>>, buyCodes: seq<Code>, code: Code)
    ensures |Sells(entries, buyCodes)| + |Holds(entries, buyCodes)| == |entries|
    ensures Lists(Sells(entries, buyCodes), code) <==> HasKey(entries, code) && code !in buyCodes
    ensures Lists(Holds(entries, buyCodes), code) <==> HasKey(entries, code) && code in buyCodes
  {
    if entries != [] {
      var front, last := entries[..|entries| - 1], entries[|entries| - 1];
      Classified(front, buyCodes, code);
      assert HasKey(entries, code) <==> HasKey(front, code) || last.key == code by {
        if HasKey(front, code) {
          var i :| 0 <= i < |front| && front[i].key == code;
          assert entries[i].key == code;
        }
        assert entries[|front|] == last;
      }
    }
  }

  lemma {:induction false} NewAreUnheld(entries: seq<Entry<Code, Holding>>, buyCodes: seq<Code>)
    ensures forall c <- NewCodes(entries, buyCodes) :: c in buyCodes && !HasKey(entries, c)
    ensures |NewCodes(entries, buyCodes)| <= |buyCodes|
  {
    if buyCodes != [] {
      NewAreUnheld(entries, buyCodes[..|buyCodes| - 1]);
    }
  }

  lemma {:induction false} BuysAreListed(codes: seq<Code>, alloc: real, prices: map<Code, int>)
    ensures forall b <- BuyItems(codes, alloc, prices) :: b.code in codes
  {
    if codes != [] {
      BuysAreListed(codes[..|codes| - 1], alloc, prices);
    }
  }

  lemma BuysAreNew(entries: seq<Entry<Code, Holding>>, buyCodes: seq<Code>, budget: real, prices: map<Code, int>,
                   code: Code)
    requires Lists(SpendEqually(NewCodes(entries, buyCodes), budget, prices), code)
    ensures code in buyCodes && !HasKey(entries, code)
  {
    var newCodes := NewCodes(entries, buyCodes);
    NewAreUnheld(entries, buyCodes);
    BuysAreListed(newCodes, budget / |newCodes| as real, prices);
  }

  /** MAIN. Every held stock is sold or kept, never both, once each; exactly the kept ones are targets;
      and nothing that is held is bought. */
  lemma DiffPartitions(buyCodes: seq<Code>, holdings: seq<Holding>, cash: int, prices: map<Code, int>,
                       bufferRatio: real, code: Code)
    ensures var d := Diff(buyCodes, holdings, cash, prices, bufferRatio);
            var held := exists h <- holdings :: h.code == code;
            && (Lists(d.sells, code) <==> held && code !in buyCodes)
            && (Lists(d.holds, code) <==> held && code in buyCodes)
            && (Lists(d.buys, code) ==> !held && code in buyCodes)
            && |d.sells| + |d.holds| == |HoldingMap(holdings)|
  {
    var entries := HoldingMap(holdings);
    MapHasHoldings(holdings, code);
    Classified(entries, buyCodes, code);
    if Lists(Diff(buyCodes, holdings, cash, prices, bufferRatio).buys, code) {
      BuysAreNew(entries, buyCodes, BudgetFor(entries, buyCodes, cash, bufferRatio), prices, code);
    }
  }

  // ---------------------------------------------------------------------------------------------
  // What is sold and kept.

  /** The last entry of its stock in the list of holdings. */
  predicate LastHolding(holdings: seq<Holding>, h: Holding) {
    exists i :: 0 <= i < |holdings| && holdings[i] == h
             && forall j :: i < j < |holdings| ==> holdings[j].code != h.code
  }

  lemma LastOfMore(front: seq<Holding>, last: Holding, h: Holding)
    ensures LastHolding(front + [last], h) <==> h == last || (LastHolding(front, h) && h.code != last.code)
  {
    var all := front + [last];
    if h == last {
      assert all[|front|] == h;
    }
    if LastHolding(front, h) && h.code != last.code {
      var i :| 0 <= i < |front| && front[i] == h && forall j :: i < j < |front| ==> front[j].code != h.code;
      assert all[i] == h;
    }
    if LastHolding(all, h) && h != last {
      var i :| 0 <= i < |all| && all[i] == h && forall j :: i < j < |all| ==> all[j].code != h.code;
      assert front[i] == h && all[|front|] == last;
      assert forall j :: i < j < |front| ==> front[j] == all[j];
    }
  }

  lemma {:induction false} MapIsLast(holdings: seq<Holding>, e: Entry<Code, Holding>)
    ensures e in HoldingMap(holdings) <==> e.key == e.value.code && LastHolding(holdings, e.value)
  {
    if holdings != [] {
      var front, last := holdings[..|holdings| - 1], holdings[|holdings| - 1];
      MapIsLast(front, e);
      MapHasHoldings(front, last.code);
      PutMembers(HoldingMap(front), last.code, last, e);
      LastOfMore(front, last, e.value);
      assert holdings == front + [last];
    }
  }

  lemma {:induction false} SellsAre(entries: seq<Entry<Code, Holding>>, buyCodes: seq<Code>, item: Item)
    ensures item in Sells(entries, buyCodes)
        <==> exists e <- entries :: e.key !in buyCodes && item == SellItem(e)
    ensures item in Holds(entries, buyCodes)
        <==> exists e <- entries :: e.key in buyCodes && item == HoldItem(e)
  {
    if entries != [] {
      var front, last := entries[..|entries| - 1], entries[|entries| - 1];
      SellsAre(front, buyCodes, item);
      assert entries == front + [last];
    }
  }

  /** MAIN. The sales are exactly these: the last holding of each held stock that is no target, with its whole
      quantity, worth that quantity at its price. What is kept is the last holding of each held target. */
  lemma SalesAreHoldings(buyCodes: seq<Code>, holdings: seq<Holding>, cash: int, prices: map<Code, int>,
                         bufferRatio: real, item: Item)
    ensures var d := Diff(buyCodes, holdings, cash, prices, bufferRatio);
            && (item in d.sells <==> exists h: Holding ::
                  && LastHolding(holdings, h) && h.code !in buyCodes
                  && item == Item(h.code, Sell, h.quantity, h.price, h.evalAmount, 0, 0,
                                  h.quantity, h.quantity * h.price))
            && (item in d.holds <==> exists h: Holding ::
                  && LastHolding(holdings, h) && h.code in buyCodes
                  && item == Item(h.code, Hold, h.quantity, h.price, h.evalAmount, 0, 0, 0, 0))
  {
    var entries := HoldingMap(holdings);
    SellsAre(entries, buyCodes, item);
    forall e ensures e in entries <==> e.key == e.value.code && LastHolding(holdings, e.value) {
      MapIsLast(holdings, e);
    }
    forall h: Holding | LastHolding(holdings, h) ensures Entry(h.code, h) in entries {
    }
  }

  /** The codes in the order in which each first appears. */
  function Firsts(codes: seq<Code>): seq<Code> {
    if codes == [] then []
    else
      var front, last := Firsts(codes[..|codes| - 1]), codes[|codes| - 1];
      if last in front then front else front + [last]
  }

  function Without(codes: seq<Code>, excluded: seq<Code>): seq<Code> {
    if codes == [] then []
    else
      var front, last := Without(codes[..|codes| - 1], excluded), codes[|codes| - 1];
      if last in excluded then front else front + [last]
  }

  function HoldingCodes(holdings: seq<Holding>): seq<Code> {
    seq(|holdings|, i requires 0 <= i < |holdings| => holdings[i].code)
  }

  function Keys(entries: seq<Entry<Code, Holding>>): seq<Code> {
    seq(|entries|, i requires 0 <= i < |entries| => entries[i].key)
  }

  function ItemCodes(items: seq<Item>): seq<Code> {
    seq(|items|, i requires 0 <= i < |items| => items[i].code)
  }

  lemma {:induction false} KeysAreFirsts(holdings: seq<Holding>)
    ensures Keys(HoldingMap(holdings)) == Firsts(HoldingCodes(holdings))
  {
    if holdings != [] {
      var front, last := holdings[..|holdings| - 1], holdings[|holdings| - 1];
      var entries := HoldingMap(front);
      KeysAreFirsts(front);
      assert HoldingCodes(holdings)[..|front|] == HoldingCodes(front);
      var p := Find(entries, last.code);
      if p < |entries| {
        assert Keys(entries)[p] == last.code;
        assert Keys(Put(entries, last.code, last)) == Keys(entries);
      } else {
        assert Keys(Put(entries, last.code, last)) == Keys(entries) + [last.code];
      }
    }
  }

  lemma {:induction false} SellsInOrder(entries: seq<Entry<Code, Holding>>, buyCodes: seq<Code>)
    ensures ItemCodes(Sells(entries, buyCodes)) == Without(Keys(entries), buyCodes)
  {
    if entries != [] {
      var front, last := entries[..|entries| - 1], entries[|entries| - 1];
      SellsInOrder(front, buyCodes);
      assert Keys(entries)[..|front|] == Keys(front);
      if last.key !in buyCodes {
        assert ItemCodes(Sells(entries, buyCodes)) == ItemCodes(Sells(front, buyCodes)) + [last.key];
      }
    }
  }

  /** The sales come in the order in which their stocks first appear among the holdings. */
  lemma SalesInOrder(buyCodes: seq<Code>, holdings: seq<Holding>, cash: int, prices: map<Code, int>, bufferRatio: real)
    ensures ItemCodes(Diff(buyCodes, holdings, cash, prices, bufferRatio).sells)
         == Without(Firsts(HoldingCodes(holdings)), buyCodes)
  {
    KeysAreFirsts(holdings);
    SellsInOrder(HoldingMap(holdings), buyCodes);
  }

  /** What the items sell or buy, at their prices. */
  function Traded(items: seq<Item>): int {
    if items == [] then 0
    else var last := items[|items| - 1]; Traded(items[..|items| - 1]) + last.orderQty * last.currentPrice
  }

  lemma {:induction false} ValueIsTraded(items: seq<Item>)
    requires forall b <- items :: b.orderValue == b.orderQty * b.currentPrice
    ensures OrderValue(items) == Traded(items)
  {
    if items != [] {
      assert items[|items| - 1] in items;
      ValueIsTraded(items[..|items| - 1]);
    }
  }

  predicate DistinctCodes(items: seq<Item>) {
    forall i, j :: 0 <= i < j < |items| ==> items[i].code != items[j].code
  }

  lemma {:induction false} SoldOnce(entries: seq<Entry<Code, Holding>>, buyCodes: seq<Code>)
    requires DistinctKeys(entries)
    ensures DistinctCodes(Sells(entries, buyCodes)) && DistinctCodes(Holds(entries, buyCodes))
  {
    if entries != [] {
      var front, last := entries[..|entries| - 1], entries[|entries| - 1];
      SoldOnce(front, buyCodes);
      forall item | item in Sells(front, buyCodes) || item in Holds(front, buyCodes) ensures item.code != last.key {
        SellsAre(front, buyCodes, item);
      }
    }
  }

  /** MAIN. Each stock is sold or kept once; the totals are what the sales and the buys trade at their prices, and
      the cash afterwards is the cash with the one added and the other taken away. */
  lemma TotalsAreTraded(buyCodes: seq<Code>, holdings: seq<Holding>, cash: int, prices: map<Code, int>,
                        bufferRatio: real)
    ensures var d := Diff(buyCodes, holdings, cash, prices, bufferRatio);
            && DistinctCodes(d.sells) && DistinctCodes(d.holds)
            && d.totalSell == Traded(d.sells) && d.totalBuy == Traded(d.buys)
            && d.cashAfter == cash + Traded(d.sells) - Traded(d.buys)
  {
    var entries := HoldingMap(holdings);
    MapHasHoldings(holdings, "");
    SoldOnce(entries, buyCodes);
    forall item | item in Sells(entries, buyCodes) ensures item.orderValue == item.orderQty * item.currentPrice {
      SellsAre(entries, buyCodes, item);
    }
    ValueIsTraded(Sells(entries, buyCodes));
    BuysTrade(NewCodes(entries, buyCodes), BudgetFor(entries, buyCodes, cash, bufferRatio), prices);
  }

  lemma BuysTrade(codes: seq<Code>, budget: real, prices: map<Code, int>)
    ensures OrderValue(SpendEqually(codes, budget, prices)) == Traded(SpendEqually(codes, budget, prices))
  {
    if codes != [] && budget > 0.0 {
      BuysFit(codes, budget / |codes| as real, prices);
      ValueIsTraded(SpendEqually(codes, budget, prices));
    }
  }

  // ---------------------------------------------------------------------------------------------
  // Solvency.

  /** Floor division leaves less than one share of the allotment unspent. */
  lemma QuantityFits(alloc: real, price: int)
    requires price > 0
    ensures var value := (Quantity(alloc, price) * price) as real; alloc - price as real < value <= alloc
  {
    var q, p := Quantity(alloc, price), price as real;
    var x := alloc / p;
    assert q as real <= x < q as real + 1.0;
    assert x * p == alloc;
    Scale(q as real, x, p);
    Scale(x, q as real + 1.0, p);
    assert (q as real + 1.0) * p == q as real * p + p;
    assert (q * price) as real == q as real * p;
  }

  predicate WorthItsShare(b: Item, alloc: real) {
    && b.currentPrice > 0 && b.orderQty > 0 && b.orderValue == b.orderQty * b.currentPrice
    && alloc - b.currentPrice as real < b.orderValue as real <= alloc
  }

  lemma {:induction false} BuysFit(codes: seq<Code>, alloc: real, prices: map<Code, int>)
    ensures forall b <- BuyItems(codes, alloc, prices) ::
              && WorthItsShare(b, alloc) && b.currentPrice == PriceOf(prices, b.code)
              && b.action == Buy && b.targetQty == b.orderQty && b.targetValue == Truncate(alloc)
              && b.currentQty == 0 && b.currentValue == 0
    ensures |BuyItems(codes, alloc, prices)| <= |codes|
  {
    if codes != [] {
      var front, code := codes[..|codes| - 1], codes[|codes| - 1];
      BuysFit(front, alloc, prices);
      if Quantity(alloc, PriceOf(prices, code)) > 0 {
        QuantityFits(alloc, PriceOf(prices, code));
      }
    }
  }

  ghost function Repeated(alloc: real, k: nat): (r: real)
    requires alloc >= 0.0
    ensures r >= 0.0
  {
    if k == 0 then 0.0 else Repeated(alloc, k - 1) + alloc
  }

  lemma {:induction false} RepeatedIsProduct(alloc: real, k: nat)
    requires alloc >= 0.0
    ensures Repeated(alloc, k) == alloc * k as real
  {
    if k > 0 {
      RepeatedIsProduct(alloc, k - 1);
    }
  }

  lemma {:induction false} TotalFits(items: seq<Item>, alloc: real, k: nat)
    requires forall b <- items :: 0 <= b.orderValue && b.orderValue as real <= alloc
    requires alloc >= 0.0 && |items| <= k
    ensures 0 <= OrderValue(items) && OrderValue(items) as real <= Repeated(alloc, k)
  {
    if items != [] {
      TotalFits(items[..|items| - 1], alloc, k - 1);
    }
  }

  lemma {:induction false} SellsNotNegative(entries: seq<Entry<Code, Holding>>, buyCodes: seq<Code>)
    requires forall e <- entries :: e.value.quantity >= 0 && e.value.price >= 0
    ensures OrderValue(Sells(entries, buyCodes)) >= 0
  {
    if entries != [] {
      var last := entries[|entries| - 1];
      SellsNotNegative(entries[..|entries| - 1], buyCodes);
      assert last.value.quantity * last.value.price >= 0;
    }
  }

  lemma {:induction false} MapHoldsGiven(holdings: seq<Holding>)
    ensures forall e <- HoldingMap(holdings) :: e.value in holdings
  {
    if holdings != [] {
      var front, last := holdings[..|holdings| - 1], holdings[|holdings| - 1];
      MapHoldsGiven(front);
      assert forall h :: h in front ==> h in holdings;
      assert last in holdings;
    }
  }

  lemma BufferWithin(money: int, ratio: real)
    requires money >= 0 && 0.0 <= ratio <= 1.0
    ensures 0 <= NetInvestable(money, ratio) <= money
  {
    assert 0.0 <= money as real * ratio <= money as real;
  }

  lemma EqualShares(budget: real, k: nat)
    requires budget > 0.0 && k > 0
    ensures budget / k as real >= 0.0 && budget / k as real * k as real == budget
  {
  }

  lemma PositiveValue(b: Item, alloc: real)
    requires WorthItsShare(b, alloc)
    ensures 0 <= b.orderValue && b.orderValue as real <= alloc
  {
  }

  lemma ValuesBounded(codes: seq<Code>, alloc: real, prices: map<Code, int>)
    ensures forall b <- BuyItems(codes, alloc, prices) :: 0 <= b.orderValue && b.orderValue as real <= alloc
    ensures |BuyItems(codes, alloc, prices)| <= |codes|
  {
    BuysFit(codes, alloc, prices);
    forall b | b in BuyItems(codes, alloc, prices) ensures 0 <= b.orderValue && b.orderValue as real <= alloc {
      PositiveValue(b, alloc);
    }
  }

  lemma BuysCost(codes: seq<Code>, alloc: real, prices: map<Code, int>)
    requires alloc >= 0.0
    ensures 0 <= OrderValue(BuyItems(codes, alloc, prices))
    ensures OrderValue(BuyItems(codes, alloc, prices)) as real <= Repeated(alloc, |codes|)
  {
    ValuesBounded(codes, alloc, prices);
    TotalFits(BuyItems(codes, alloc, prices), alloc, |codes|);
  }

  lemma SharesAddUp(budget: real, k: nat)
    requires budget > 0.0 && k > 0
    ensures budget / k as real >= 0.0 && Repeated(budget / k as real, k) == budget
  {
    EqualShares(budget, k);
    RepeatedIsProduct(budget / k as real, k);
  }

  lemma SpendingFits(codes: seq<Code>, budget: real, prices: map<Code, int>)
    ensures 0 <= OrderValue(SpendEqually(codes, budget, prices))
    ensures OrderValue(SpendEqually(codes, budget, prices)) as real <= if budget > 0.0 then budget else 0.0
  {
    if codes != [] && budget > 0.0 {
      SharesAddUp(budget, |codes|);
      BuysCost(codes, budget / |codes| as real, prices);
    }
  }

  lemma SharesOfBudget(money: int, held: int, n: nat, k: nat)
    requires n > 0
    ensures var perStock := (money + held) as real / n as real;
            && perStock * n as real == (money + held) as real
            && (perStock * k as real) * n as real == (money + held) as real * k as real
  {
    var perStock := (money + held) as real / n as real;
    assert perStock * n as real == (money + held) as real;
    assert (perStock * k as real) * n as real == (perStock * n as real) * k as real;
  }

  /** The budget never exceeds the money, and over n targets k new stocks get at most k shares of money and
      held value together; one of the two bounds is always reached. */
  lemma BudgetIsCappedShare(money: int, held: int, n: nat, k: nat)
    requires n > 0
    ensures var budget := Budget(money, held, n, k);
            && budget <= money as real
            && budget * n as real <= ((money + held) * k) as real
            && (budget == money as real || budget * n as real == ((money + held) * k) as real)
  {
    var share := (money + held) as real / n as real * k as real;
    SharesOfBudget(money, held, n, k);
    assert ((money + held) * k) as real == (money + held) as real * k as real;
    if money as real < share {
      Scale(money as real, share, n as real);
    }
  }

  lemma CappedByMoney(money: int, held: int, n: nat, k: nat)
    ensures Budget(money, held, n, k) <= money as real
  {
  }

  lemma SpentWithin(entries: seq<Entry<Code, Holding>>, buyCodes: seq<Code>, cash: int, budget: real,
                    prices: map<Code, int>, net: int)
    requires budget <= net as real
    ensures 0 <= DiffWithin(entries, buyCodes, cash, budget, prices).totalBuy <= Max(0, net)
  {
    NewAreUnheld(entries, buyCodes);
    SpendingFits(NewCodes(entries, buyCodes), budget, prices);
  }

  /** MAIN. The buys cost no more than the investable money. */
  lemma DiffSolvent(buyCodes: seq<Code>, holdings: seq<Holding>, cash: int, prices: map<Code, int>, bufferRatio: real)
    ensures var d := Diff(buyCodes, holdings, cash, prices, bufferRatio);
            0 <= d.totalBuy <= Max(0, NetInvestable(cash + d.totalSell, bufferRatio))
  {
    var entries := HoldingMap(holdings);
    var net := NetInvestable(cash + OrderValue(Sells(entries, buyCodes)), bufferRatio);
    CappedByMoney(net, CurrentValue(Holds(entries, buyCodes)), |buyCodes|, |NewCodes(entries, buyCodes)|);
    SpentWithin(entries, buyCodes, cash, BudgetFor(entries, buyCodes, cash, bufferRatio), prices, net);
  }

  lemma ShareWithin(codes: seq<Code>, budget: real, prices: map<Code, int>, b: Item)
    requires b in SpendEqually(codes, budget, prices)
    ensures codes != [] && WorthItsShare(b, budget / |codes| as real) && b.currentPrice == PriceOf(prices, b.code)
    ensures b.action == Buy && b.targetQty == b.orderQty && b.targetValue == Truncate(budget / |codes| as real)
  {
    BuysFit(codes, budget / |codes| as real, prices);
  }

  /** MAIN. Every buy is worth its equal share of the budget to within one share price. */
  lemma DiffSharesEqually(buyCodes: seq<Code>, holdings: seq<Holding>, cash: int, prices: map<Code, int>,
                          bufferRatio: real, b: Item)
    requires b in Diff(buyCodes, holdings, cash, prices, bufferRatio).buys
    ensures var entries := HoldingMap(holdings);
            var newCodes := NewCodes(entries, buyCodes);
            && |newCodes| > 0
            && WorthItsShare(b, BudgetFor(entries, buyCodes, cash, bufferRatio) / |newCodes| as real)
            && b.currentPrice == PriceOf(prices, b.code)
            && b.action == Buy && b.targetQty == b.orderQty
            && b.targetValue == Truncate(BudgetFor(entries, buyCodes, cash, bufferRatio) / |newCodes| as real)
  {
    var entries := HoldingMap(holdings);
    ShareWithin(NewCodes(entries, buyCodes), BudgetFor(entries, buyCodes, cash, bufferRatio), prices, b);
  }

  /** MAIN. On a sound account the cash buffer survives the whole plan. */
  lemma DiffKeepsBuffer(buyCodes: seq<Code>, holdings: seq<Holding>, cash: int, prices: map<Code, int>,
                        bufferRatio: real)
    requires cash >= 0 && 0.0 <= bufferRatio <= 1.0 && (forall h <- holdings :: h.quantity >= 0 && h.price >= 0)
    ensures var d := Diff(buyCodes, holdings, cash, prices, bufferRatio);
            d.cashAfter >= Truncate((cash + d.totalSell) as real * bufferRatio) >= 0
  {
    var d := Diff(buyCodes, holdings, cash, prices, bufferRatio);
    MapHoldsGiven(holdings);
    SellsNotNegative(HoldingMap(holdings), buyCodes);
    BufferWithin(cash + d.totalSell, bufferRatio);
    DiffSolvent(buyCodes, holdings, cash, prices, bufferRatio);
  }

  // ---------------------------------------------------------------------------------------------
  // What is bought.

  /** A stock without a price, or dearer than the share, is not bought. */
  predicate Affordable(prices: map<Code, int>, code: Code, share: real) {
    code in prices && prices[code] > 0 && prices[code] as real <= share
  }

  function AffordableCodes(codes: seq<Code>, share: real, prices: map<Code, int>): seq<Code> {
    if codes == [] then []
    else
      var front, last := AffordableCodes(codes[..|codes| - 1], share, prices), codes[|codes| - 1];
      if Affordable(prices, last, share) then front + [last] else front
  }

  lemma BuysIfAffordable(share: real, prices: map<Code, int>, code: Code)
    ensures Quantity(share, PriceOf(prices, code)) > 0 <==> Affordable(prices, code, share)
  {
    var price := PriceOf(prices, code);
    if price > 0 {
      var x, p := share / price as real, price as real;
      assert x * p == share;
      if p <= share {
        Unscale(1.0, x, p);
      } else if x >= 1.0 {
        Scale(1.0, x, p);
      }
    }
  }

  lemma {:induction false} BuysInOrder(codes: seq<Code>, share: real, prices: map<Code, int>)
    ensures ItemCodes(BuyItems(codes, share, prices)) == AffordableCodes(codes, share, prices)
  {
    if codes != [] {
      var front, code := codes[..|codes| - 1], codes[|codes| - 1];
      BuysInOrder(front, share, prices);
      BuysIfAffordable(share, prices, code);
      var before, items := BuyItems(front, share, prices), BuyItems(codes, share, prices);
      if items != before {
        assert ItemCodes(items) == ItemCodes(before) + [code];
      }
    }
  }

  lemma {:induction false} NewCodesAre(entries: seq<Entry<Code, Holding>>, buyCodes: seq<Code>)
    ensures NewCodes(entries, buyCodes) == Without(buyCodes, Keys(entries))
  {
    if buyCodes != [] {
      var last := buyCodes[|buyCodes| - 1];
      NewCodesAre(entries, buyCodes[..|buyCodes| - 1]);
      if HasKey(entries, last) {
        var i :| 0 <= i < |entries| && entries[i].key == last;
        assert Keys(entries)[i] == last;
      }
    }
  }

  lemma {:induction false} FirstsHas(codes: seq<Code>, code: Code)
    ensures code in Firsts(codes) <==> code in codes
  {
    if codes != [] {
      FirstsHas(codes[..|codes| - 1], code);
      FirstsHas(codes[..|codes| - 1], codes[|codes| - 1]);
      assert codes == codes[..|codes| - 1] + [codes[|codes| - 1]];
    }
  }

  lemma {:induction false} SameExclusion(codes: seq<Code>, a: seq<Code>, b: seq<Code>)
    requires forall c :: c in a <==> c in b
    ensures Without(codes, a) == Without(codes, b)
  {
    if codes != [] {
      SameExclusion(codes[..|codes| - 1], a, b);
    }
  }

  /** The targets that are not held, in target order. */
  lemma NewTargetsAre(buyCodes: seq<Code>, holdings: seq<Holding>)
    ensures NewCodes(HoldingMap(holdings), buyCodes) == Without(buyCodes, HoldingCodes(holdings))
  {
    NewCodesAre(HoldingMap(holdings), buyCodes);
    KeysAreFirsts(holdings);
    forall c ensures c in Firsts(HoldingCodes(holdings)) <==> c in HoldingCodes(holdings) {
      FirstsHas(HoldingCodes(holdings), c);
    }
    SameExclusion(buyCodes, Firsts(HoldingCodes(holdings)), HoldingCodes(holdings));
  }

  /** MAIN. With a budget, the stocks bought are exactly the targets that are not held and whose price is known
      and within the share, in target order; without one, none is. */
  lemma BuysAreAffordable(buyCodes: seq<Code>, holdings: seq<Holding>, cash: int, prices: map<Code, int>,
                          bufferRatio: real)
    ensures var d := Diff(buyCodes, holdings, cash, prices, bufferRatio);
            var budget := BudgetFor(HoldingMap(holdings), buyCodes, cash, bufferRatio);
            var newCodes := Without(buyCodes, HoldingCodes(holdings));
            ItemCodes(d.buys) == if newCodes == [] || budget <= 0.0 then []
                                 else AffordableCodes(newCodes, budget / |newCodes| as real, prices)
  {
    NewTargetsAre(buyCodes, holdings);
    BuysWithin(NewCodes(HoldingMap(holdings), buyCodes),
               BudgetFor(HoldingMap(holdings), buyCodes, cash, bufferRatio), prices);
  }

  lemma BuysWithin(codes: seq<Code>, budget: real, prices: map<Code, int>)
    ensures ItemCodes(SpendEqually(codes, budget, prices))
         == if codes == [] || budget <= 0.0 then [] else AffordableCodes(codes, budget / |codes| as real, prices)
  {
    if codes != [] && budget > 0.0 {
      BuysInOrder(codes, budget / |codes| as real, prices);
    }
  }

  /** The buffer is cut to whole units of money, towards zero. */
  lemma BufferIsTruncated(money: int, ratio: real)
    ensures var buffer := (money - NetInvestable(money, ratio)) as real;
            if money as real * ratio >= 0.0 then buffer <= money as real * ratio < buffer + 1.0
            else buffer - 1.0 < money as real * ratio <= buffer
  {
  }

  /** The budget is the capped share, for the targets that are not held, of the money that remains without the
      buffer and of what is kept. */
  lemma BudgetForIs(buyCodes: seq<Code>, holdings: seq<Holding>, cash: int, prices: map<Code, int>, bufferRatio: real)
    ensures var d := Diff(buyCodes, holdings, cash, prices, bufferRatio);
            BudgetFor(HoldingMap(holdings), buyCodes, cash, bufferRatio)
            == Budget(NetInvestable(cash + d.totalSell, bufferRatio), CurrentValue(d.holds), |buyCodes|,
                      |Without(buyCodes, HoldingCodes(holdings))|)
  {
    NewTargetsAre(buyCodes, holdings);
  }

  // ---------------------------------------------------------------------------------------------
  // The two forms agree.

  function ItemLines(items: seq<Item>): seq<(Code, int)> {
    if items == [] then []
    else var last := items[|items| - 1]; ItemLines(items[..|items| - 1]) + [(last.code, last.orderQty)]
  }

  function OrderLines(orders: seq<OrderRequest>): seq<(Code, int)> {
    if orders == [] then []
    else var last := orders[|orders| - 1]; OrderLines(orders[..|orders| - 1]) + [(last.code, last.quantity)]
  }

  /** The same stocks in the same quantities, in the same order. */
  predicate SamePurchases(items: seq<Item>, orders: seq<OrderRequest>) {
    ItemLines(items) == OrderLines(orders)
  }

  lemma {:induction false} SameFreshCodes(entries: seq<Entry<Code, Holding>>, allCodes: seq<Code>, buyCodes: seq<Code>)
    requires forall c <- buyCodes :: c in allCodes
    ensures Unheld(buyCodes, Holds(entries, allCodes)) == NewCodes(entries, buyCodes)
  {
    if buyCodes != [] {
      SameFreshCodes(entries, allCodes, buyCodes[..|buyCodes| - 1]);
      Classified(entries, allCodes, buyCodes[|buyCodes| - 1]);
    }
  }

  lemma {:induction false} SameLoop(codes: seq<Code>, alloc: real, prices: map<Code, int>, market: bool)
    ensures SamePurchases(BuyItems(codes, alloc, prices), Orders(codes, alloc, prices, market))
  {
    if codes != [] {
      SameLoop(codes[..|codes| - 1], alloc, prices, market);
    }
  }

  lemma {:induction false} NothingToSpend(codes: seq<Code>, alloc: real, prices: map<Code, int>, market: bool)
    requires alloc <= 0.0
    ensures Orders(codes, alloc, prices, market) == []
  {
    if codes != [] {
      NothingToSpend(codes[..|codes| - 1], alloc, prices, market);
      var price := PriceOf(prices, codes[|codes| - 1]);
      if price > 0 {
        assert alloc / price as real <= 0.0;
      }
    }
  }

  lemma NoShare(budget: real, k: nat)
    requires budget <= 0.0 && k > 0
    ensures budget / k as real <= 0.0
  {
  }

  /** The calculator tests the budget for being positive, the generator the cash: with no cash there is no
      budget, and with no budget no order has a share in it. */
  lemma SameSpending(codes: seq<Code>, budget: real, net: int, prices: map<Code, int>, market: bool)
    requires codes != [] && budget <= net as real
    ensures SamePurchases(SpendEqually(codes, budget, prices),
                          if net <= 0 then [] else Orders(codes, budget / |codes| as real, prices, market))
  {
    SameLoop(codes, budget / |codes| as real, prices, market);
    if budget <= 0.0 {
      NoShare(budget, |codes|);
      NothingToSpend(codes, budget / |codes| as real, prices, market);
    }
  }

  lemma SameWithin(entries: seq<Entry<Code, Holding>>, buyCodes: seq<Code>, cash: int, budget: real, net: int,
                   prices: map<Code, int>, market: bool)
    requires budget <= net as real
    ensures SamePurchases(DiffWithin(entries, buyCodes, cash, budget, prices).buys,
                          OrdersWithin(NewCodes(entries, buyCodes), budget, net, prices, market))
  {
    if NewCodes(entries, buyCodes) != [] {
      SameSpending(NewCodes(entries, buyCodes), budget, net, prices, market);
    }
  }

  lemma RecalculatedWithin(entries: seq<Entry<Code, Holding>>, buyCodes: seq<Code>, net: int, prices: map<Code, int>,
                           market: bool)
    ensures var newCodes := NewCodes(entries, buyCodes);
            Recalculated(net, buyCodes, Holds(entries, buyCodes), prices, market)
            == OrdersWithin(newCodes, Budget(net, CurrentValue(Holds(entries, buyCodes)), |buyCodes|, |newCodes|), net,
                            prices, market)
  {
    SameFreshCodes(entries, buyCodes, buyCodes);
  }

  lemma AgreeWithin(entries: seq<Entry<Code, Holding>>, buyCodes: seq<Code>, cash: int, bufferRatio: real,
                    prices: map<Code, int>, market: bool)
    ensures var d := DiffWithin(entries, buyCodes, cash, BudgetFor(entries, buyCodes, cash, bufferRatio), prices);
            var net := NetInvestable(cash + d.totalSell, bufferRatio);
            SamePurchases(d.buys, Recalculated(net, buyCodes, d.holds, prices, market))
  {
    var net := NetInvestable(cash + OrderValue(Sells(entries, buyCodes)), bufferRatio);
    CappedByMoney(net, CurrentValue(Holds(entries, buyCodes)), |buyCodes|, |NewCodes(entries, buyCodes)|);
    RecalculatedWithin(entries, buyCodes, net, prices, market);
    SameWithin(entries, buyCodes, cash, BudgetFor(entries, buyCodes, cash, bufferRatio), net, prices, market);
  }

  /** MAIN. Recalculated from the calculator's own investable money and hold list, the orders are the
      calculator's purchases, code for code and share for share, for every input. */
  lemma FormsAgree(buyCodes: seq<Code>, holdings: seq<Holding>, cash: int, prices: map<Code, int>, bufferRatio: real,
                   market: bool)
    ensures var d := Diff(buyCodes, holdings, cash, prices, bufferRatio);
            var net := NetInvestable(cash + d.totalSell, bufferRatio);
            SamePurchases(d.buys, Recalculated(net, buyCodes, d.holds, prices, market))
  {
    AgreeWithin(HoldingMap(holdings), buyCodes, cash, bufferRatio, prices, market);
  }

  lemma {:induction false} OrdersAre(codes: seq<Code>, alloc: real, prices: map<Code, int>, market: bool)
    ensures forall o <- Orders(codes, alloc, prices, market) ::
              && o.code in codes && o.price == (if market then 0 else PriceOf(prices, o.code))
              && PriceOf(prices, o.code) > 0 && o.quantity > 0
  {
    if codes != [] {
      OrdersAre(codes[..|codes| - 1], alloc, prices, market);
    }
  }

  /** Recalculated market orders carry no price, limit orders the stock's; all of them are targets not held. */
  lemma RecalculatedOrdersAre(cash: int, buyCodes: seq<Code>, holdList: seq<Item>, prices: map<Code, int>, market: bool,
                              o: OrderRequest)
    requires o in Recalculated(cash, buyCodes, holdList, prices, market)
    ensures cash > 0 && o.code in buyCodes && !Lists(holdList, o.code)
    ensures o.code in prices && prices[o.code] > 0 && o.quantity > 0
    ensures o.price == if market then 0 else prices[o.code]
  {
    var newCodes := Unheld(buyCodes, holdList);
    UnheldAre(buyCodes, holdList, o.code);
    var budget := Budget(cash, CurrentValue(holdList), |buyCodes|, |newCodes|);
    OrdersAre(newCodes, budget / |newCodes| as real, prices, market);
  }

  lemma {:induction false} UnheldAre(buyCodes: seq<Code>, holdList: seq<Item>, code: Code)
    ensures code in Unheld(buyCodes, holdList) <==> code in buyCodes && !Lists(holdList, code)
  {
    if buyCodes != [] {
      UnheldAre(buyCodes[..|buyCodes| - 1], holdList, code);
      assert buyCodes == buyCodes[..|buyCodes| - 1] + [buyCodes[|buyCodes| - 1]];
    }
  }

  // ---------------------------------------------------------------------------------------------
  // What the recalculated orders cost.

  function OrdersCost(orders: seq<OrderRequest>, prices: map<Code, int>): int {
    if orders == [] then 0
    else
      var last := orders[|orders| - 1];
      OrdersCost(orders[..|orders| - 1], prices) + last.quantity * PriceOf(prices, last.code)
  }

  lemma CostSnoc(orders: seq<OrderRequest>, o: OrderRequest, prices: map<Code, int>)
    ensures OrdersCost(orders + [o], prices) == OrdersCost(orders, prices) + o.quantity * PriceOf(prices, o.code)
  {
    assert (orders + [o])[..|orders|] == orders;
  }

  lemma ValueSnoc(items: seq<Item>, item: Item)
    ensures OrderValue(items + [item]) == OrderValue(items) + item.orderValue
  {
    assert (items + [item])[..|items|] == items;
  }

  lemma {:induction false} OrdersCostItems(codes: seq<Code>, alloc: real, prices: map<Code, int>, market: bool)
    ensures OrdersCost(Orders(codes, alloc, prices, market), prices) == OrderValue(BuyItems(codes, alloc, prices))
  {
    if codes != [] {
      var front, code := codes[..|codes| - 1], codes[|codes| - 1];
      OrdersCostItems(front, alloc, prices, market);
      var price := PriceOf(prices, code);
      var qty := Quantity(alloc, price);
      if qty > 0 {
        CostSnoc(Orders(front, alloc, prices, market), OrderRequest(code, qty, if market then 0 else price), prices);
        ValueSnoc(BuyItems(front, alloc, prices),
                  Item(code, Buy, 0, price, 0, qty, Truncate(alloc), qty, qty * price));
      }
    }
  }

  lemma NothingCosts(codes: seq<Code>, alloc: real, prices: map<Code, int>, market: bool)
    requires alloc <= 0.0
    ensures OrdersCost(Orders(codes, alloc, prices, market), prices) == 0
  {
    NothingToSpend(codes, alloc, prices, market);
  }

  lemma OrdersSpend(newCodes: seq<Code>, budget: real, prices: map<Code, int>, market: bool)
    requires newCodes != []
    ensures OrdersCost(Orders(newCodes, budget / |newCodes| as real, prices, market), prices)
         == OrderValue(SpendEqually(newCodes, budget, prices))
  {
    if budget > 0.0 {
      OrdersCostItems(newCodes, budget / |newCodes| as real, prices, market);
    } else {
      NoShare(budget, |newCodes|);
      NothingCosts(newCodes, budget / |newCodes| as real, prices, market);
    }
  }

  lemma CostWithin(newCodes: seq<Code>, budget: real, cash: int, prices: map<Code, int>, market: bool)
    requires budget <= cash as real
    ensures 0 <= OrdersCost(OrdersWithin(newCodes, budget, cash, prices, market), prices) <= Max(0, cash)
  {
    if cash > 0 && newCodes != [] {
      OrdersSpend(newCodes, budget, prices, market);
      SpendingFits(newCodes, budget, prices);
    }
  }

  /** MAIN. For every input the recalculated orders, at the given prices, cost at least nothing and at most the
      cash. */
  lemma RecalculatedSolvent(cash: int, buyCodes: seq<Code>, holdList: seq<Item>, prices: map<Code, int>, market: bool)
    ensures 0 <= OrdersCost(Recalculated(cash, buyCodes, holdList, prices, market), prices) <= Max(0, cash)
  {
    var newCodes := Unheld(buyCodes, holdList);
    CappedByMoney(cash, CurrentValue(holdList), |buyCodes|, |newCodes|);
    CostWithin(newCodes, Budget(cash, CurrentValue(holdList), |buyCodes|, |newCodes|), cash, prices, market);
  }

  // ---------------------------------------------------------------------------------------------
  // Less cash never buys more.

  function Ordered(orders: seq<OrderRequest>, code: Code): int {
    if orders == [] then 0
    else
      var last := orders[|orders| - 1];
      Ordered(orders[..|orders| - 1], code) + if last.code == code then last.quantity else 0
  }

  lemma QuantityMonotone(a: real, b: real, price: int)
    requires a <= b && price > 0
    ensures Quantity(a, price) <= Quantity(b, price)
  {
    assert a / price as real <= b / price as real;
  }

  lemma {:induction false} OrdersMonotone(codes: seq<Code>, a: real, b: real, prices: map<Code, int>,
                                          market: bool, code: Code)
    requires a <= b
    ensures 0 <= Ordered(Orders(codes, a, prices, market), code) <= Ordered(Orders(codes, b, prices, market), code)
  {
    if codes != [] {
      var front, last := codes[..|codes| - 1], codes[|codes| - 1];
      OrdersMonotone(front, a, b, prices, market, code);
      var price := PriceOf(prices, last);
      if price > 0 {
        QuantityMonotone(a, b, price);
      }
      forall alloc: real ensures Ordered(Orders(codes, alloc, prices, market), code)
          == Ordered(Orders(front, alloc, prices, market), code)
             + if Quantity(alloc, price) > 0 && last == code then Quantity(alloc, price) else 0
      {
        var orders := Orders(front, alloc, prices, market);
        var o := OrderRequest(last, Quantity(alloc, price), if market then 0 else price);
        assert (orders + [o])[..|orders|] == orders;
      }
    }
  }

  lemma BudgetMonotone(low: int, high: int, held: int, n: nat, k: nat)
    requires low <= high && n > 0 && k > 0
    ensures Budget(low, held, n, k) / k as real <= Budget(high, held, n, k) / k as real
  {
    var x, y := (low + held) as real / n as real, (high + held) as real / n as real;
    assert x <= y;
    assert x * k as real <= y * k as real;
    assert Budget(low, held, n, k) <= Budget(high, held, n, k);
  }

  lemma UnheldOf(buyCodes: seq<Code>, holdList: seq<Item>)
    ensures |Unheld(buyCodes, holdList)| <= |buyCodes|
  {
  }

  /** MAIN. With less cash no stock is ordered in a larger quantity. */
  lemma LessCashBuysLess(low: int, high: int, buyCodes: seq<Code>, holdList: seq<Item>, prices: map<Code, int>,
                         market: bool, code: Code)
    requires low <= high
    ensures Ordered(Recalculated(low, buyCodes, holdList, prices, market), code)
         <= Ordered(Recalculated(high, buyCodes, holdList, prices, market), code)
  {
    var newCodes := Unheld(buyCodes, holdList);
    UnheldOf(buyCodes, holdList);
    if newCodes != [] {
      var n, k, held := |buyCodes|, |newCodes|, CurrentValue(holdList);
      BudgetMonotone(low, high, held, n, k);
      OrdersMonotone(newCodes, Budget(low, held, n, k) / k as real, Budget(high, held, n, k) / k as real,
                     prices, market, code);
    }
  }
}
