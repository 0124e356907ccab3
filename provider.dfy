/**
 What the market-data provider hands back, as inputs to the model: the
 provider's client is not part of it, only the outcomes of its calls.
 */
module Provider {

  import opened Wrappers
  import opened Calendar

  /**
   One row of the provider's daily table.  A present cell holds the price
   already rounded to two decimals, in hundredths of a rupee, or the volume;
   `None` is a cell that `float(...)` or `int(...)` cannot convert.
   */
  datatype Row = Row(open: Option<int>, high: Option<int>, low: Option<int>, close: Option<int>, volume: Option<int>)

  /** A row with the date of its index entry. */
  datatype Bar = Bar(date: Day, row: Row)

  /** One call of `history(period='5d')`: a table (oldest row first, possibly empty) or a raised error. */
  datatype Outcome = Table(bars: seq<Bar>) | Error

  /** `not history.empty` for a call that returned. */
  predicate IsNonEmpty(o: Outcome)
  {
    o.Table? && |o.bars| > 0
  }

  /** `history.iloc[-1]` together with `history.index[-1]`. */
  function LastBar(bars: seq<Bar>): (b: Bar)
    requires |bars| > 0
    ensures b in bars
  {
    bars[|bars| - 1]
  }
}
