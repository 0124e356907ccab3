/**
 The snapshot's price record and `validate_stock_data`, the OHLC sanity
 check that accepts or rejects one record.
 */
module Validator {

  import opened Wrappers
  import opened Calendar

  /** The sanity ceiling on the closing price, 100000 rupees, in hundredths. */
  const CloseCeiling := 100000 * 100

  /**
   One entry of `stocks`: prices in hundredths of a rupee, `None` where the
   value is missing.
   */
  datatype StockRecord = StockRecord(
    symbol: string,
    companyName: string,
    date: Day,
    open: Option<int>,
    high: Option<int>,
    low: Option<int>,
    close: Option<int>,
    volume: int)

  /**
   `validate_stock_data`: reject a missing price, then a price that is not
   positive, then a high below the low, then a close above the ceiling;
   accept otherwise.
   */
  predicate ValidateStockData(r: StockRecord)
  {
    if r.open.None? || r.high.None? || r.low.None? || r.close.None? then false
    else if r.open.value <= 0 || r.high.value <= 0 || r.low.value <= 0 || r.close.value <= 0 then false
    else if r.high.value < r.low.value then false
    else if r.close.value > CloseCeiling then false
    else true
  }

  /** The zero-volume warning is logged: only for a record that passed every rejection rule. */
  predicate ZeroVolumeWarning(r: StockRecord)
  {
    ValidateStockData(r) && r.volume == 0
  }

  /** The validator accepts exactly the records that meet all four rules. */
  lemma ValidateAcceptsExactly(r: StockRecord)
    ensures ValidateStockData(r) <==>
      && r.open.Some? && r.high.Some? && r.low.Some? && r.close.Some?
      && r.open.value > 0 && r.high.value > 0 && r.low.value > 0 && r.close.value > 0
      && r.high.value >= r.low.value
      && r.close.value <= CloseCeiling
  {
  }

  /** A record whose high is below its low is rejected, whatever its other fields. */
  lemma HighBelowLowRejected(r: StockRecord)
    requires r.high.Some? && r.low.Some? && r.high.value < r.low.value
    ensures !ValidateStockData(r)
  {
  }

  /** The volume never decides acceptance; a zero volume on an accepted record only warns. */
  lemma VolumeNeverRejects(r: StockRecord, v: int)
    ensures ValidateStockData(r.(volume := v)) == ValidateStockData(r)
    ensures ValidateStockData(r) ==> (ZeroVolumeWarning(r.(volume := 0)) && !ZeroVolumeWarning(r.(volume := 1)))
  {
  }
}
