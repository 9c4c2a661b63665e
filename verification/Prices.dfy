/** Stocks, days and daily closes, as the simulations and the metrics read them. */
module Prices {

  type Code = string
  type Day = int

  /** closes[c][d] is the close of stock c on day d. */
  type Closes = map<Code, map<Day, real>>

  predicate HasClose(closes: Closes, code: Code, day: Day) {
    code in closes && day in closes[code]
  }
}
