/** The diff calculator and the order generator's recalculation as they run: loops that append to
    result lists and add up totals, proved against the functions of PositionSizing. */
module PositionOrders {
  import opened Prelude
  import opened Dictionaries
  import opened PositionSizing
  import opened Prices

  class PositionDiffResult {
    var sells: seq<Item>
    var holds: seq<Item>
    var buys: seq<Item>
    var totalSell: int
    var totalBuy: int
    var cashAfter: int

    constructor ()
      ensures Value() == DiffResult([], [], [], 0, 0, 0)
    {
      sells, holds, buys, totalSell, totalBuy, cashAfter := [], [], [], 0, 0, 0;
    }

    ghost function Value(): DiffResult
      reads this
    {
      DiffResult(sells, holds, buys, totalSell, totalBuy, cashAfter)
    }
  }

  method BuildHoldingMap(holdings: seq<Holding>) returns (entries: seq<Entry<Code, Holding>>)
    ensures entries == HoldingMap(holdings)
  {
    entries := [];
    var i := 0;
    while i < |holdings|
      invariant 0 <= i <= |holdings| && entries == HoldingMap(holdings[..i])
    {
      assert holdings[..i + 1][..i] == holdings[..i];
      entries := Put(entries, holdings[i].code, holdings[i]);
      i := i + 1;
    }
    assert holdings[..i] == holdings;
  }

  lemma SnocValue(items: seq<Item>, item: Item)
    ensures OrderValue(items + [item]) == OrderValue(items) + item.orderValue
    ensures CurrentValue(items + [item]) == CurrentValue(items) + item.currentValue
  {
    assert (items + [item])[..|items|] == items;
  }

  method SumCurrentValue(items: seq<Item>) returns (sum: int)
    ensures sum == CurrentValue(items)
  {
    sum := 0;
    var i := 0;
    while i < |items|
      invariant 0 <= i <= |items| && sum == CurrentValue(items[..i])
    {
      assert items[..i + 1][..i] == items[..i];
      sum := sum + items[i].currentValue;
      i := i + 1;
    }
    assert items[..i] == items;
  }

  method BuyBudget(money: int, held: int, targets: nat, newStocks: nat) returns (budget: real)
    ensures budget == Budget(money, held, targets, newStocks)
  {
    var targetPerStock := if targets > 0 then (money + held) as real / targets as real else 0.0;
    var totalTarget := targetPerStock * newStocks as real;
    budget := if totalTarget <= money as real then totalTarget else money as real;
  }

  class PositionDiffCalculator {
    const cashBufferRatio: real

    constructor (cashBufferRatio: real)
      ensures this.cashBufferRatio == cashBufferRatio
    {
      this.cashBufferRatio := cashBufferRatio;
    }

    method AppendSale(item: Item, result: PositionDiffResult)
      requires result.totalSell == OrderValue(result.sells)
      modifies result`sells, result`totalSell
      ensures result.sells == old(result.sells) + [item] && result.totalSell == OrderValue(result.sells)
    {
      SnocValue(result.sells, item);
      result.sells := result.sells + [item];
      result.totalSell := result.totalSell + item.orderValue;
    }

    /** Splits what is held into positions to keep and positions to sell. */
    method Classify(entries: seq<Entry<Code, Holding>>, buyCodes: seq<Code>, result: PositionDiffResult)
      requires result.Value() == DiffResult([], [], [], 0, 0, 0)
      modifies result
      ensures var sells := Sells(entries, buyCodes);
              result.Value() == DiffResult(sells, Holds(entries, buyCodes), [], OrderValue(sells), 0, 0)
    {
      var i := 0;
      while i < |entries|
        invariant 0 <= i <= |entries| && result.holds == Holds(entries[..i], buyCodes)
        invariant result.sells == Sells(entries[..i], buyCodes) && result.totalSell == OrderValue(result.sells)
        invariant result.buys == [] && result.totalBuy == 0 && result.cashAfter == 0
      {
        assert entries[..i + 1][..i] == entries[..i];
        if entries[i].key in buyCodes {
          result.holds := result.holds + [HoldItem(entries[i])];
        } else {
          AppendSale(SellItem(entries[i]), result);
        }
        i := i + 1;
      }
      assert entries[..i] == entries;
    }

    method Unowned(entries: seq<Entry<Code, Holding>>, buyCodes: seq<Code>) returns (codes: seq<Code>)
      ensures codes == NewCodes(entries, buyCodes)
    {
      codes := [];
      var i := 0;
      while i < |buyCodes|
        invariant 0 <= i <= |buyCodes| && codes == NewCodes(entries, buyCodes[..i])
      {
        assert buyCodes[..i + 1][..i] == buyCodes[..i];
        if Find(entries, buyCodes[i]) == |entries| {
          codes := codes + [buyCodes[i]];
        }
        i := i + 1;
      }
      assert buyCodes[..i] == buyCodes;
    }

    /** Buys whole shares of each stock for the same amount. */
    method AppendItems(codes: seq<Code>, alloc: real, prices: map<Code, int>, result: PositionDiffResult)
      requires result.buys == [] && result.totalBuy == 0
      modifies result`buys, result`totalBuy
      ensures result.buys == BuyItems(codes, alloc, prices) && result.totalBuy == OrderValue(result.buys)
    {
      var i := 0;
      while i < |codes|
        invariant 0 <= i <= |codes| && result.buys == BuyItems(codes[..i], alloc, prices)
        invariant result.totalBuy == OrderValue(result.buys)
      {
        assert codes[..i + 1][..i] == codes[..i];
        var price := if codes[i] in prices then prices[codes[i]] else 0;
        if price > 0 {
          var qty := (alloc / price as real).Floor;
          if qty > 0 {
            var item := Item(codes[i], Buy, 0, price, 0, qty, Truncate(alloc), qty, qty * price);
            SnocValue(result.buys, item);
            result.buys := result.buys + [item];
            result.totalBuy := result.totalBuy + qty * price;
          }
        }
        i := i + 1;
      }
      assert codes[..i] == codes;
    }

    method AppendBuys(codes: seq<Code>, budget: real, prices: map<Code, int>, result: PositionDiffResult)
      requires result.buys == [] && result.totalBuy == 0
      modifies result`buys, result`totalBuy
      ensures result.buys == SpendEqually(codes, budget, prices) && result.totalBuy == OrderValue(result.buys)
    {
      if codes != [] && budget > 0.0 {
        AppendItems(codes, budget / |codes| as real, prices, result);
      }
    }

    method WithoutBuffer(totalInvestable: int) returns (netInvestable: int)
      ensures netInvestable == NetInvestable(totalInvestable, cashBufferRatio)
    {
      var cashBuffer := Truncate(totalInvestable as real * cashBufferRatio);
      netInvestable := totalInvestable - cashBuffer;
    }

    /** The budget for the new stocks, from the money after the sales and the value that is kept. */
    method NewStocksBudget(entries: seq<Entry<Code, Holding>>, buyCodes: seq<Code>, newStocks: nat,
                           availableCash: int, totalSell: int, holds: seq<Item>)
      returns (actualBudget: real)
      requires totalSell == OrderValue(Sells(entries, buyCodes)) && holds == Holds(entries, buyCodes)
      requires newStocks == |NewCodes(entries, buyCodes)|
      ensures actualBudget == BudgetFor(entries, buyCodes, availableCash, cashBufferRatio)
    {
      var netInvestable := WithoutBuffer(availableCash + totalSell);
      var holdValue := SumCurrentValue(holds);
      actualBudget := BuyBudget(netInvestable, holdValue, |buyCodes|, newStocks);
    }

    /** Buys for the given budget and settles the cash. */
    method Settle(entries: seq<Entry<Code, Holding>>, buyCodes: seq<Code>, newBuyCodes: seq<Code>, availableCash: int,
                  actualBudget: real, prices: map<Code, int>, result: PositionDiffResult)
      requires newBuyCodes == NewCodes(entries, buyCodes)
      requires var sells := Sells(entries, buyCodes);
               result.Value() == DiffResult(sells, Holds(entries, buyCodes), [], OrderValue(sells), 0, 0)
      modifies result
      ensures result.Value() == DiffWithin(entries, buyCodes, availableCash, actualBudget, prices)
    {
      AppendBuys(newBuyCodes, actualBudget, prices, result);
      result.cashAfter := availableCash + result.totalSell - result.totalBuy;
    }

    method Calculate(buyCodes: seq<Code>, holdings: seq<Holding>, availableCash: int, prices: map<Code, int>)
      returns (result: PositionDiffResult)
      ensures fresh(result)
      ensures result.Value() == Diff(buyCodes, holdings, availableCash, prices, cashBufferRatio)
    {
      var entries := BuildHoldingMap(holdings);
      result := new PositionDiffResult();
      Classify(entries, buyCodes, result);
      var newBuyCodes := Unowned(entries, buyCodes);
      var actualBudget := NewStocksBudget(entries, buyCodes, |newBuyCodes|, availableCash, result.totalSell,
                                          result.holds);
      Settle(entries, buyCodes, newBuyCodes, availableCash, actualBudget, prices, result);
    }
  }

  class OrderGenerator {
    const marketOrders: bool

    constructor (marketOrders: bool)
      ensures this.marketOrders == marketOrders
    {
      this.marketOrders := marketOrders;
    }

    method NotHeld(buyCodes: seq<Code>, holdList: seq<Item>) returns (codes: seq<Code>)
      ensures codes == Unheld(buyCodes, holdList)
    {
      var holdingCodes := set item <- holdList :: item.code;
      codes := [];
      var i := 0;
      while i < |buyCodes|
        invariant 0 <= i <= |buyCodes| && codes == Unheld(buyCodes[..i], holdList)
      {
        assert buyCodes[..i + 1][..i] == buyCodes[..i];
        if buyCodes[i] !in holdingCodes {
          codes := codes + [buyCodes[i]];
        }
        i := i + 1;
      }
      assert buyCodes[..i] == buyCodes;
    }

    method RecalculateBuyOrders(availableCash: int, buyCodes: seq<Code>, holdList: seq<Item>, prices: map<Code, int>)
      returns (orders: seq<OrderRequest>)
      ensures orders == Recalculated(availableCash, buyCodes, holdList, prices, marketOrders)
    {
      orders := [];
      if availableCash <= 0 || buyCodes == [] {
        return;
      }
      var holdValue := SumCurrentValue(holdList);
      var newBuyCodes := NotHeld(buyCodes, holdList);
      if newBuyCodes == [] {
        return;
      }
      var actualBudget := BuyBudget(availableCash, holdValue, |buyCodes|, |newBuyCodes|);
      var allocPerStock := actualBudget / |newBuyCodes| as real;
      var i := 0;
      while i < |newBuyCodes|
        invariant 0 <= i <= |newBuyCodes| && orders == Orders(newBuyCodes[..i], allocPerStock, prices, marketOrders)
      {
        var code := newBuyCodes[i];
        assert newBuyCodes[..i + 1][..i] == newBuyCodes[..i];
        var price := if code in prices then prices[code] else 0;
        if price > 0 {
          var qty := (allocPerStock / price as real).Floor;
          if qty > 0 {
            orders := orders + [OrderRequest(code, qty, if marketOrders then 0 else price)];
          }
        }
        i := i + 1;
      }
      assert newBuyCodes[..i] == newBuyCodes;
    }
  }
}
