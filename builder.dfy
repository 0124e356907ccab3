/**
 The snapshot builder `fetch_stock_data`: the loop over the symbol universe
 that fetches, builds, validates and collects one record per symbol, keeps
 the three run counters, and afterwards sets `total_stocks` and corrects
 `fetch_date` from the accepted records.
 */
module Builder {

  import opened Wrappers
  import opened Calendar
  import opened Provider
  import opened Validator
  import opened Fetcher
  import opened TradingDate

  /** The literal `schema_version` of every snapshot. */
  const SchemaVersion := "1.0"

  /** The provider suffix that `symbol.replace('.NS', '')` removes. */
  const Suffix := ".NS"

  /**
   `s.replace('.NS', '')`: every occurrence of `.NS`, scanning left to right
   without overlap, is removed.
   */
  function StripSuffix(s: string): string
    decreases |s|
  {
    if |s| < 3 then s
    else if s[..3] == Suffix then StripSuffix(s[3..])
    else [s[0]] + StripSuffix(s[1..])
  }

  /** A ticker `base.NS` whose base has no dot loses exactly its suffix. */
  lemma {:induction false} StripTicker(base: string)
    requires '.' !in base
    ensures StripSuffix(base + Suffix) == base
  {
    if base == [] {
      assert base + Suffix == Suffix;
    } else {
      assert (base + Suffix)[..3] != Suffix by {
        assert (base + Suffix)[0] == base[0] != '.';
      }
      assert (base + Suffix)[1..] == base[1..] + Suffix;
      StripTicker(base[1..]);
      assert [base[0]] + base[1..] == base;
    }
  }

  /** A name without a dot is left as it is. */
  lemma {:induction false} StripWithoutDot(s: string)
    requires '.' !in s
    ensures StripSuffix(s) == s
  {
    if |s| >= 3 {
      assert s[..3] != Suffix by {
        assert s[0] != '.';
      }
      StripWithoutDot(s[1..]);
      assert [s[0]] + s[1..] == s;
    }
  }

  /** The inputs for one symbol's `fetch_with_retry`: its provider outcomes and clock readings. */
  datatype Feed = Feed(outcomes: seq<Outcome>, elapsed: seq<real>)

  /** Every feed covers the default number of iterations. */
  predicate AllCovered(feeds: seq<Feed>)
  {
    forall i :: 0 <= i < |feeds| ==> Covers(feeds[i].outcomes, feeds[i].elapsed, DefaultMaxRetries)
  }

  /** A cell of the row cannot be converted to a number. */
  predicate CellMissing(row: Row)
  {
    row.open.None? || row.high.None? || row.low.None? || row.close.None? || row.volume.None?
  }

  /**
   The record built from the last row of a history, or `None` when a cell
   cannot be converted (the conversion raises, and the handler counts a
   failure).
   */
  function BuildRecord(symbol: string, latest: Bar): Option<StockRecord>
  {
    var row := latest.row;
    if CellMissing(row) then None
    else Some(StockRecord(
      StripSuffix(symbol), StripSuffix(symbol), latest.date,
      row.open, row.high, row.low, row.close, row.volume.value))
  }

  /** What the loop body does with one symbol. */
  datatype Verdict =
    | Accepted(record: StockRecord)  // validated and appended; `success_count += 1`
    | Invalid                        // built but rejected; `invalid_count += 1`
    | NoData                         // `fetch_with_retry` gave `None`; `fail_count += 1`
    | Fault                          // building the record raised; `fail_count += 1`

  /** The outcome of one iteration of the symbol loop. */
  function SymbolVerdict(symbol: string, feed: Feed): Verdict
    requires Covers(feed.outcomes, feed.elapsed, DefaultMaxRetries)
  {
    var report := FetchResult(feed.outcomes, feed.elapsed, DefaultMaxRetries, DefaultTimeout);
    match report.history
    case None => NoData
    case Some(history) =>
      if |history| == 0 then NoData
      else match BuildRecord(symbol, LastBar(history))
        case None => Fault
        case Some(stockData) => if ValidateStockData(stockData) then Accepted(stockData) else Invalid
  }

  /** The records the first `n` iterations append to `stocks`, in order. */
  function AcceptedUpTo(universe: seq<string>, feeds: seq<Feed>, n: nat): seq<StockRecord>
    requires |feeds| == |universe| && AllCovered(feeds) && n <= |universe|
  {
    if n == 0 then []
    else
      AcceptedUpTo(universe, feeds, n - 1) +
      match SymbolVerdict(universe[n - 1], feeds[n - 1])
      case Accepted(r) => [r]
      case _ => []
  }

  /** The three counters of the run. */
  datatype RunStatistics = RunStatistics(success: nat, failed: nat, invalid: nat)

  /** The counters after the first `n` iterations. */
  function TallyUpTo(universe: seq<string>, feeds: seq<Feed>, n: nat): RunStatistics
    requires |feeds| == |universe| && AllCovered(feeds) && n <= |universe|
  {
    if n == 0 then RunStatistics(0, 0, 0)
    else
      var t := TallyUpTo(universe, feeds, n - 1);
      match SymbolVerdict(universe[n - 1], feeds[n - 1])
      case Accepted(_) => t.(success := t.success + 1)
      case Invalid => t.(invalid := t.invalid + 1)
      case NoData => t.(failed := t.failed + 1)
      case Fault => t.(failed := t.failed + 1)
  }

  /** The positions, among the first `n`, of the symbols whose record was accepted. */
  function AcceptedIndices(universe: seq<string>, feeds: seq<Feed>, n: nat): seq<nat>
    requires |feeds| == |universe| && AllCovered(feeds) && n <= |universe|
  {
    if n == 0 then []
    else
      AcceptedIndices(universe, feeds, n - 1) +
      if SymbolVerdict(universe[n - 1], feeds[n - 1]).Accepted? then [n - 1] else []
  }

  /** One more iteration extends the prefix functions by that symbol's verdict. */
  lemma StepUpTo(universe: seq<string>, feeds: seq<Feed>, i: nat)
    requires |feeds| == |universe| && AllCovered(feeds) && i < |universe|
    ensures var v := SymbolVerdict(universe[i], feeds[i]);
      && AcceptedUpTo(universe, feeds, i + 1) ==
         AcceptedUpTo(universe, feeds, i) + (if v.Accepted? then [v.record] else [])
      && var t := TallyUpTo(universe, feeds, i);
         TallyUpTo(universe, feeds, i + 1) ==
         (if v.Accepted? then t.(success := t.success + 1)
          else if v.Invalid? then t.(invalid := t.invalid + 1)
          else t.(failed := t.failed + 1))
  {
  }

  /** `max(s["date"] for s in stocks)`. */
  function MaxDate(stocks: seq<StockRecord>): Day
    requires |stocks| > 0
  {
    if |stocks| == 1 then stocks[0].date
    else
      var m := MaxDate(stocks[..|stocks| - 1]);
      var d := stocks[|stocks| - 1].date;
      if d > m then d else m
  }

  /** The `fetch_date` after the correction: the newest accepted date, or the provisional one. */
  function FinalFetchDate(provisional: Day, stocks: seq<StockRecord>): Day
  {
    if stocks == [] then provisional else MaxDate(stocks)
  }

  /** `int(datetime.now().strftime("%H%M"))`. */
  function HourMinute(hour: int, minute: int): int
  {
    hour * 100 + minute
  }

  /** `market_status`: "open" for a clock reading from 9:15 to 15:30 inclusive. */
  function MarketStatus(nowHm: int): string
  {
    if 915 <= nowHm <= 1530 then "open" else "closed"
  }

  /** The dictionary `all_data`. */
  datatype Snapshot = Snapshot(
    schemaVersion: string,
    fetchDate: Day,
    fetchTime: string,
    marketStatus: string,
    totalStocks: nat,
    stocks: seq<StockRecord>)

  /**
   The body of the symbol loop up to its counters: fetch the history with the
   default retries, build the record from the last row, validate it.
   */
  method ProcessSymbol(symbol: string, feed: Feed) returns (verdict: Verdict)
    requires Covers(feed.outcomes, feed.elapsed, DefaultMaxRetries)
    ensures verdict == SymbolVerdict(symbol, feed)
  {
    var report := FetchWithRetry(feed.outcomes, feed.elapsed, DefaultMaxRetries, DefaultTimeout);
    if report.history.Some? && |report.history.value| > 0 {
      var history := report.history.value;
      var built := BuildRecord(symbol, history[|history| - 1]);
      if built.None? {
        verdict := Fault;
      } else if ValidateStockData(built.value) {
        verdict := Accepted(built.value);
      } else {
        verdict := Invalid;
      }
    } else {
      verdict := NoData;
    }
  }

  /**
   `fetch_stock_data`, with the provider's and the clock's results as
   inputs: `probe` for the trading-date probe, `today`, the clock's hour and
   minute and the formatted `fetchTime`, and one feed per symbol.
   */
  method FetchStockData(universe: seq<string>, feeds: seq<Feed>, probe: Outcome, today: Day,
                        clockHour: int, clockMinute: int, fetchTime: string)
    returns (snapshot: Snapshot, stats: RunStatistics)
    requires |feeds| == |universe| && AllCovered(feeds)
    ensures snapshot.schemaVersion == SchemaVersion && snapshot.fetchTime == fetchTime
    ensures snapshot.marketStatus == MarketStatus(HourMinute(clockHour, clockMinute))
    ensures snapshot.stocks == AcceptedUpTo(universe, feeds, |universe|)
    ensures stats == TallyUpTo(universe, feeds, |universe|)
    ensures stats.success + stats.failed + stats.invalid == |universe|
    ensures snapshot.totalStocks == stats.success == |snapshot.stocks|
    ensures forall i :: 0 <= i < |snapshot.stocks| ==> ValidateStockData(snapshot.stocks[i])
    ensures snapshot.fetchDate == FinalFetchDate(ResolvedDate(probe, today), snapshot.stocks)
    ensures snapshot.stocks != [] ==>
      && (exists i :: 0 <= i < |snapshot.stocks| && snapshot.stocks[i].date == snapshot.fetchDate)
      && (forall i :: 0 <= i < |snapshot.stocks| ==> snapshot.stocks[i].date <= snapshot.fetchDate)
  {
    var dateString := GetActualTradingDate(probe, today);
    var status := MarketStatus(HourMinute(clockHour, clockMinute));
    snapshot := Snapshot(SchemaVersion, dateString, fetchTime, status, 0, []);
    var successCount, failCount, invalidCount := 0, 0, 0;
    for i := 0 to |universe|
      invariant snapshot.schemaVersion == SchemaVersion && snapshot.fetchDate == dateString
      invariant snapshot.fetchTime == fetchTime && snapshot.marketStatus == status
      invariant snapshot.stocks == AcceptedUpTo(universe, feeds, i)
      invariant RunStatistics(successCount, failCount, invalidCount) == TallyUpTo(universe, feeds, i)
    {
      var verdict := ProcessSymbol(universe[i], feeds[i]);
      StepUpTo(universe, feeds, i);
      match verdict {
        case Accepted(stockData) =>
          snapshot := snapshot.(stocks := snapshot.stocks + [stockData]);
          successCount := successCount + 1;
        case Invalid =>
          invalidCount := invalidCount + 1;
        case NoData =>
          failCount := failCount + 1;
        case Fault =>
          failCount := failCount + 1;
      }
    }
    snapshot := snapshot.(totalStocks := successCount);
    if snapshot.stocks != [] {
      snapshot := snapshot.(fetchDate := MaxDate(snapshot.stocks));
    }
    stats := RunStatistics(successCount, failCount, invalidCount);
    TallyPartition(universe, feeds, |universe|);
    AcceptedAreValid(universe, feeds, |universe|);
    if snapshot.stocks != [] {
      MaxDateIsNewest(snapshot.stocks);
    }
  }

  /**
   Every iteration bumps exactly one counter: the counters sum to the
   number of symbols seen, and the success counter is the number of
   records appended.
   */
  lemma {:induction false} TallyPartition(universe: seq<string>, feeds: seq<Feed>, n: nat)
    requires |feeds| == |universe| && AllCovered(feeds) && n <= |universe|
    ensures var t := TallyUpTo(universe, feeds, n);
      t.success + t.failed + t.invalid == n && t.success == |AcceptedUpTo(universe, feeds, n)|
  {
    if n > 0 {
      TallyPartition(universe, feeds, n - 1);
    }
  }

  /** The fetch of one symbol returned a non-empty history. */
  predicate Fetched(report: FetchReport)
  {
    report.history.Some? && |report.history.value| > 0
  }

  /**
   A symbol is accepted exactly when its fetch returned rows, every cell of
   the last row converts and the record passes the validator; the record then
   carries the stripped symbol as symbol and company name and the last row's
   date, prices and volume.
   */
  lemma AcceptedVerdict(symbol: string, feed: Feed)
    requires Covers(feed.outcomes, feed.elapsed, DefaultMaxRetries)
    ensures var report := FetchResult(feed.outcomes, feed.elapsed, DefaultMaxRetries, DefaultTimeout);
      var v := SymbolVerdict(symbol, feed);
      && (v.Accepted? <==>
            && Fetched(report)
            && !CellMissing(LastBar(report.history.value).row)
            && var last := LastBar(report.history.value);
               ValidateStockData(StockRecord(StripSuffix(symbol), StripSuffix(symbol), last.date,
                 last.row.open, last.row.high, last.row.low, last.row.close, last.row.volume.value)))
      && (v.Accepted? ==>
            && Fetched(report)
            && var r := v.record;
               var last := LastBar(report.history.value);
               && r.symbol == StripSuffix(symbol) && r.companyName == StripSuffix(symbol)
               && r.date == last.date
               && r.open == last.row.open && r.high == last.row.high
               && r.low == last.row.low && r.close == last.row.close
               && Some(r.volume) == last.row.volume
               && ValidateStockData(r))
  {
  }

  /**
   The other three verdicts: no data exactly when the fetch returned `None`
   (a returned history is never empty); a fault exactly when the last row has
   a cell that does not convert; invalid exactly when the row converts but
   the record fails the validator.
   */
  lemma VerdictOutcomes(symbol: string, feed: Feed)
    requires Covers(feed.outcomes, feed.elapsed, DefaultMaxRetries)
    ensures var report := FetchResult(feed.outcomes, feed.elapsed, DefaultMaxRetries, DefaultTimeout);
      var v := SymbolVerdict(symbol, feed);
      && (v.NoData? <==> report.history.None?)
      && (report.history.Some? ==> Fetched(report))
      && (v.Fault? <==> Fetched(report) && CellMissing(LastBar(report.history.value).row))
      && (v.Invalid? <==>
            && Fetched(report)
            && !CellMissing(LastBar(report.history.value).row)
            && var last := LastBar(report.history.value);
               !ValidateStockData(StockRecord(StripSuffix(symbol), StripSuffix(symbol), last.date,
                 last.row.open, last.row.high, last.row.low, last.row.close, last.row.volume.value)))
  {
    FetchWithRetryPromises(feed.outcomes, feed.elapsed, DefaultMaxRetries, DefaultTimeout);
  }

  /** Every appended record satisfies the validator. */
  lemma {:induction false} AcceptedAreValid(universe: seq<string>, feeds: seq<Feed>, n: nat)
    requires |feeds| == |universe| && AllCovered(feeds) && n <= |universe|
    ensures forall k :: 0 <= k < |AcceptedUpTo(universe, feeds, n)| ==> ValidateStockData(AcceptedUpTo(universe, feeds, n)[k])
  {
    if n > 0 {
      AcceptedAreValid(universe, feeds, n - 1);
    }
  }

  /**
   `stocks` lists the accepted records in universe order: its `k`-th record
   is that of the `k`-th accepted symbol, the positions increase, and no
   accepted symbol is missing.
   */
  lemma {:induction false} AcceptedInUniverseOrder(universe: seq<string>, feeds: seq<Feed>, n: nat)
    requires |feeds| == |universe| && AllCovered(feeds) && n <= |universe|
    ensures var idx := AcceptedIndices(universe, feeds, n);
      var stocks := AcceptedUpTo(universe, feeds, n);
      && |idx| == |stocks|
      && (forall k :: 0 <= k < |idx| ==>
            idx[k] < n && SymbolVerdict(universe[idx[k]], feeds[idx[k]]) == Accepted(stocks[k]))
      && (forall k, l :: 0 <= k < l < |idx| ==> idx[k] < idx[l])
      && (forall i :: 0 <= i < n && SymbolVerdict(universe[i], feeds[i]).Accepted? ==> i in idx)
  {
    if n > 0 {
      AcceptedInUniverseOrder(universe, feeds, n - 1);
    }
  }

  /** `stocks` is non-empty exactly when some symbol's record was accepted. */
  lemma {:induction false} SomeAccepted(universe: seq<string>, feeds: seq<Feed>, n: nat)
    requires |feeds| == |universe| && AllCovered(feeds) && n <= |universe|
    ensures AcceptedUpTo(universe, feeds, n) != [] <==>
      exists i :: 0 <= i < n && SymbolVerdict(universe[i], feeds[i]).Accepted?
  {
    if n > 0 {
      SomeAccepted(universe, feeds, n - 1);
      if SymbolVerdict(universe[n - 1], feeds[n - 1]).Accepted? {
        assert AcceptedUpTo(universe, feeds, n) != [];
      }
    }
  }

  /** The corrected date is the newest date among the records. */
  lemma {:induction false} MaxDateIsNewest(stocks: seq<StockRecord>)
    requires |stocks| > 0
    ensures exists i :: 0 <= i < |stocks| && stocks[i].date == MaxDate(stocks)
    ensures forall i :: 0 <= i < |stocks| ==> stocks[i].date <= MaxDate(stocks)
  {
    if |stocks| > 1 {
      var init := stocks[..|stocks| - 1];
      MaxDateIsNewest(init);
      assert forall i :: 0 <= i < |init| ==> init[i] == stocks[i];
      var j :| 0 <= j < |init| && init[j].date == MaxDate(init);
      if stocks[|stocks| - 1].date > MaxDate(init) {
        assert stocks[|stocks| - 1].date == MaxDate(stocks);
      } else {
        assert stocks[j].date == MaxDate(stocks);
      }
    } else {
      assert stocks[0].date == MaxDate(stocks);
    }
  }

  /** `market_status` is "open" or "closed", and "open" exactly from 9:15 to 15:30 on the clock. */
  lemma MarketStatusByClock(hour: int, minute: int)
    requires 0 <= hour < 24 && 0 <= minute < 60
    ensures MarketStatus(HourMinute(hour, minute)) in {"open", "closed"}
    ensures MarketStatus(HourMinute(hour, minute)) == "open" <==> 9 * 60 + 15 <= hour * 60 + minute <= 15 * 60 + 30
  {
  }

  /**
   Three symbols: A has a valid row dated 2025-11-10, B a row with its high
   below its low, C no data after both attempts.  Only A's record is kept,
   each counter is one, and the corrected date is A's.
   */
  lemma ThreeSymbolRun(provisional: Day)
    ensures var universe := ["A.NS", "B.NS", "C.NS"];
      var a := Bar(20402, Row(Some(10000), Some(11000), Some(9000), Some(10500), Some(1000)));
      var b := Bar(20402, Row(Some(10000), Some(9000), Some(11000), Some(10000), Some(500)));
      var feeds := [Feed([Table([a]), Error], [0.0, 0.0]), Feed([Table([b]), Error], [0.0, 0.0]),
                    Feed([Error, Error], [0.0, 2.0])];
      var stocks := AcceptedUpTo(universe, feeds, 3);
      && stocks == [StockRecord("A", "A", 20402, Some(10000), Some(11000), Some(9000), Some(10500), 1000)]
      && TallyUpTo(universe, feeds, 3) == RunStatistics(1, 1, 1)
      && FinalFetchDate(provisional, stocks) == 20402
  {
    var universe := ["A.NS", "B.NS", "C.NS"];
    var a := Bar(20402, Row(Some(10000), Some(11000), Some(9000), Some(10500), Some(1000)));
    var b := Bar(20402, Row(Some(10000), Some(9000), Some(11000), Some(10000), Some(500)));
    var feeds := [Feed([Table([a]), Error], [0.0, 0.0]), Feed([Table([b]), Error], [0.0, 0.0]),
                  Feed([Error, Error], [0.0, 2.0])];
    StripTicker("A");
    assert SymbolVerdict(universe[0], feeds[0]) == Accepted(StockRecord("A", "A", 20402, Some(10000), Some(11000), Some(9000), Some(10500), 1000));
    assert SymbolVerdict(universe[1], feeds[1]) == Invalid;
    assert SymbolVerdict(universe[2], feeds[2]) == NoData;
    assert TallyUpTo(universe, feeds, 1) == RunStatistics(1, 0, 0);
    assert TallyUpTo(universe, feeds, 2) == RunStatistics(1, 0, 1);
    assert AcceptedUpTo(universe, feeds, 2) == AcceptedUpTo(universe, feeds, 1);
  }
}
