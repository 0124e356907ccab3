# Nifty 50 end-of-day fetcher, modelled in Dafny

This project models the decision logic of `Nifty50_base.py`, the script that
fetches daily prices for the 50 NIFTY symbols from Yahoo Finance and writes one
JSON snapshot per trading day. The network, the clock and the disk are inputs.
The logic is modelled as follows:

- **Calendar** (`Calendar`). `is_market_open` rejects a listed 2025 NSE
  holiday, then a Saturday or Sunday. Dates are day numbers since
  1970-01-01. `IsoDate` is the `%Y-%m-%d` text of a day.
- **Trading-date oracle** (`TradingDate`). `get_actual_trading_date` is a
  method with its `for days_back in range(7)` loop. A probe of RELIANCE.NS is
  an input outcome.
- **Validator** (`Validator`). `validate_stock_data` is a total predicate on
  one record. Prices are integer hundredths of a rupee.
- **Retry fetcher** (`Fetcher`). `fetch_with_retry` is a method with its
  bounded loop and early returns. It is proved equal to a recursive
  specification, `Retry`. Its inputs are the provider outcome of each
  iteration (a table of bars, possibly empty, or an error) and the elapsed
  time read at the top of each iteration.
- **Snapshot builder** (`Builder`). `fetch_stock_data` is a method.
  - It carries the `all_data` dictionary as a `Snapshot` value.
  - It keeps the three counters and appends the accepted records.
  - After the loop it sets `total_stocks` and corrects `fetch_date`.
  - It is proved against prefix functions (`AcceptedUpTo`, `TallyUpTo`) over
    each symbol's `SymbolVerdict`.
- **Save paths** (`Persist`). The default file name, the final path and the
  temporary path of `save_to_json_atomic`.
- **Exit decision** (`Entry`). The exit code of the `__main__` block and its
  low-success warning.

The spelling of the holiday list:

- The source writes the holidays as ISO strings and tests
  `date_str in NSE_HOLIDAYS_2025`.
- The model keeps that list verbatim (`NseHolidays2025`). It tests a day number
  against `HolidayDays`, the same holidays as day numbers, entry for entry.
- `HolidayListSpelling` proves that each day number prints as the source's
  string at the same position.

The retry count:

- With the default `max_retries=2`, `fetch_with_retry` makes at most two
  calls with one back-off between them.
- After two empty tables it returns `None`, even if a third call would have
  returned rows. `Fetcher.EmptyTwiceThenRows` proves this, and that three
  iterations would return the third table after two back-offs.

## Model

| member | source | states |
|---|---|---|
| Calendar.Weekday | Nifty50_base.py:104 | `weekday()` of a day number, Monday 0 to Sunday 6; its ensures bounds it to 0..6 |
| Calendar.IsMarketOpen | Nifty50_base.py:98-107 | the definition: a listed holiday is closed, then a Saturday or Sunday is closed, else open |
| Calendar.IsoDate | Nifty50_base.py:129 | the text of a date is ten characters, `-` at positions 4 and 7 and decimal digits elsewhere |
| Calendar.MarketOpenRules | Nifty50_base.py:98-107 | a listed holiday is closed, a Saturday or Sunday is closed, and a day is open exactly when it is neither |
| Calendar.EpochAnchor | Nifty50_base.py:104 | day 0 prints as 1970-01-01 and has weekday 3 (Thursday, with Monday as 0 as `weekday()` counts) |
| Calendar.TradingMondayAnchor | Nifty50_base.py:98-107 | 2025-11-10 is a Monday and a trading day |
| Calendar.HolidayListSpelling | Nifty50_base.py:69-92 | the day-number holiday list has the source list's length, and its i-th day prints as the source's i-th string |
| Calendar.HolidaysAreListed | Nifty50_base.py:100 | every day the model treats as a holiday prints as a string on the source's holiday list |
| TradingDate.FallbackFrom | Nifty50_base.py:127-133 | the definition of the walk from candidate `today - daysBack` on: the first candidate that passes the test, or today after seven |
| TradingDate.ResolvedDate | Nifty50_base.py:114-133 | the definition of the oracle's date: the last row's date of a probe with rows, else the fallback walk over `IsMarketOpen` |
| TradingDate.WalkBack | Nifty50_base.py:126-133 | the `for days_back in range(7)` loop with its early return computes exactly `FallbackFrom(isOpen, today, 0)` |
| TradingDate.GetActualTradingDate | Nifty50_base.py:109-133 | the loop returns the probe's newest row date when it has rows, else the fallback walk's date |
| TradingDate.FallbackFromIsFirstOpen | Nifty50_base.py:127-133 | from any step, the walk returns the latest open day in the remaining window, with no open day between it and the start, or today when there is none |
| TradingDate.FallbackDate | Nifty50_base.py:126-133 | the fallback date lies in today-6..today, is the first of today, today-1, ..., today-6 that is open, and is today when none of them is |
| TradingDate.ResolvedDateSources | Nifty50_base.py:114-133 | a probe with rows decides the date by its last row; an empty or failed probe gives the fallback date, within the last seven days |
| Validator.ValidateStockData | Nifty50_base.py:135-151 | the definition: the four rejection tests in the source's order, then accept |
| Validator.ValidateAcceptsExactly | Nifty50_base.py:135-151 | a record is accepted if and only if all four prices are present and positive, high >= low and close <= 100000 rupees |
| Validator.HighBelowLowRejected | Nifty50_base.py:142-143 | a high below the low is rejected whatever the other fields are |
| Validator.VolumeNeverRejects | Nifty50_base.py:146-148 | the volume never changes the verdict; a zero volume on an accepted record gives only the warning |
| Fetcher.Retry | Nifty50_base.py:156-175 | the definition of the loop from iteration `attempt` with `sleeps` back-offs so far: over the budget gives a timed-out `None`, a non-empty table is returned, an empty or failed call sleeps unless it is the last iteration |
| Fetcher.FetchResult | Nifty50_base.py:153-175 | the definition of the whole call: the loop from iteration 0 with no sleeps |
| Fetcher.FetchWithRetry | Nifty50_base.py:153-175 | the loop's report (history, calls made, sleeps, timed out) equals the recursive specification `FetchResult` |
| Fetcher.RetryFrom | Nifty50_base.py:156-175 | from any iteration: calls stay within the budget, every call but a successful last one failed, a history is the first non-empty table, `None` means a timeout or exhausted iterations, and the sleep count is one per failed call except on the last iteration |
| Fetcher.FetchWithRetryPromises | Nifty50_base.py:156-175 | at most `max_retries` calls; a history is returned if and only if some call within the budget is non-empty, and it is the first such; `None` when every call failed or the time ran out before a call; at most `max_retries - 1` sleeps, none after the call of the final iteration |
| Fetcher.EmptyTwiceThenRows | Nifty50_base.py:153-175 | empty, empty, rows: with the default two iterations the result is `None` after 2 calls and 1 sleep; with three it is the third table after 2 sleeps |
| Fetcher.SlowFirstCall | Nifty50_base.py:157-167 | an empty or failed first call followed by a reading over 15 seconds returns `None` after one call and one back-off, timed out |
| Fetcher.TimeoutBeforeFirstCall | Nifty50_base.py:155-159 | a first clock reading over the budget returns `None` without any call or sleep; the script meets this only with a budget below its first reading |
| Builder.StripSuffix | Nifty50_base.py:229-230 | the definition of `replace('.NS', '')`: every occurrence removed, left to right, without overlap |
| Builder.BuildRecord | Nifty50_base.py:227-237 | the definition of the record built from the last row, `None` when a cell does not convert |
| Builder.SymbolVerdict | Nifty50_base.py:225-255 | the definition of one symbol's outcome: no data, fault, accepted record or invalid |
| Builder.StripTicker | Nifty50_base.py:229-230 | `replace('.NS', '')` on `BASE.NS` with a dot-free base gives back the base |
| Builder.StripWithoutDot | Nifty50_base.py:229-230 | a name without a dot is unchanged by the replacement |
| Builder.FetchStockData | Nifty50_base.py:181-276 | the snapshot's fields, `stocks` equal to the accepted records, counters equal to the tally and summing to the number of symbols, `total_stocks == success_count == len(stocks)`, every stock valid, and `fetch_date` the newest accepted date or else the provisional one |
| Builder.TallyPartition | Nifty50_base.py:222-255 | every symbol bumps exactly one counter, so the counters sum to the symbols seen, and the success counter is the length of `stocks` |
| Builder.AcceptedVerdict | Nifty50_base.py:225-240 | a symbol is accepted if and only if its fetch returned rows, every cell of the last row converts and the built record passes the validator; the record then has the stripped symbol as symbol and company name and the last row's date, open, high, low, close and volume |
| Builder.VerdictOutcomes | Nifty50_base.py:225-255 | no data if and only if the fetch returned `None` (a returned history is never empty); a fault if and only if a cell of the last row does not convert; invalid if and only if the row converts but the record fails the validator |
| Builder.AcceptedAreValid | Nifty50_base.py:238-240 | every record in `stocks` satisfies the validator |
| Builder.AcceptedInUniverseOrder | Nifty50_base.py:222-240 | `stocks` lists the accepted symbols' records in universe order, each once, none missing |
| Builder.SomeAccepted | Nifty50_base.py:261 | `stocks` is non-empty if and only if some symbol's record was accepted |
| Builder.MaxDate | Nifty50_base.py:262 | the definition of `max(s["date"] for s in stocks)` over a non-empty list |
| Builder.FinalFetchDate | Nifty50_base.py:205-262 | the definition of the corrected `fetch_date`: the newest record date, or the provisional date when there is no record |
| Builder.MaxDateIsNewest | Nifty50_base.py:261-262 | the corrected date is the date of some record and no record is newer |
| Builder.HourMinute | Nifty50_base.py:200 | the definition of `int(now.strftime("%H%M"))` from the hour and minute |
| Builder.MarketStatus | Nifty50_base.py:201 | the definition: "open" for 915 to 1530 inclusive, else "closed" |
| Builder.MarketStatusByClock | Nifty50_base.py:200-201 | the status is "open" or "closed", and "open" exactly from 9:15 to 15:30 inclusive |
| Builder.ThreeSymbolRun | Nifty50_base.py:222-262 | a valid symbol, one with high below low and one with no data give one record, counters (1, 1, 1) and the valid record's date as `fetch_date` |
| Persist.JoinPath | Nifty50_base.py:283 | the definition of POSIX `os.path.join` for two components: an absolute name wins, else one `/` between them |
| Persist.DefaultFilename | Nifty50_base.py:281 | the definition of `nifty50_<fetch_date>.json` |
| Persist.SaveTargets | Nifty50_base.py:280-284 | the definition of the final path (the given or default name in the output directory) and the temporary path beside it |
| Persist.DirectoryPartIgnoresTail | Nifty50_base.py:284 | appending text without `/` keeps a path in the same directory |
| Persist.DefaultFilenameShape | Nifty50_base.py:281 | the default name is `nifty50_`, the date's ten-character text, `.json`, and contains no `/` |
| Persist.TempBesideFinal | Nifty50_base.py:283-284 | the temporary path is the final path plus `.tmp`: different from it and in the same directory |
| Persist.DefaultPathLayout | Nifty50_base.py:280-283 | without a file name, the final path is the default name inside the output directory |
| Persist.GivenFilename | Nifty50_base.py:280-283 | a given file name makes the date irrelevant, and an absolute name replaces the output directory |
| Entry.MainExit | Nifty50_base.py:328-353 | the definition of the exit decision: no stocks exits 1 unsaved, otherwise warn below 40, save, and exit 0, or 1 when the save raises |
| Entry.ExitReflectsRun | Nifty50_base.py:325-353 | the script exits 0 exactly when some record was accepted and the save succeeded; it warns exactly when 1 to 39 records were accepted |

## Left out

- The Yahoo Finance client (lines 116-117, 161-162) is not modelled. Its answers are inputs: an `Outcome` per call. An exception becomes `Error`.
- Logging, its setup and the log directory (lines 23-43) are not modelled. Every `logging.*` and `print` call is left out too: they have no functional content.
- Sleeps are not modelled as time. The back-off sleeps of `fetch_with_retry` are only counted (`FetchReport.sleeps`). The jitter sleep and its random draw (line 251) are left out.
- Clock reads become parameters:
  - `datetime.now()` becomes `today`, the clock hour and minute, and the formatted `fetchTime`;
  - `time.time() - start` becomes one elapsed reading per loop iteration.
- The run's elapsed time (lines 216, 257, 269, 273) is not modelled; it is only printed and logged.
- File work in `save_to_json_atomic` (lines 286-312) is not modelled: the existence message, `json.dump`, `shutil.move`, `os.path.getsize` and the removal of the temporary file. Whether the save raises is the input `saveSucceeds` of `Entry.MainExit`.
- The module-level paths (lines 23-32) are not modelled. The output directory is a parameter of `Persist.SaveTargets`.
- Floating point is not modelled. `round(float(x), 2)` is taken as already done: prices are integer hundredths. NaN is a value Python's comparisons would let through the validator; it has no counterpart here.
- Builder.FetchStockData: a per-symbol fault comes only from a row cell that cannot be converted to a number (a `None` cell). Exceptions raised by printing or by the jitter sleep are not modelled.
- Builder.FetchStockData: the symbol universe is a parameter. The list `NIFTY_50_SYMBOLS` (lines 50-61) is not part of this model.
- Validator.ValidateAcceptsExactly: the `try/except` at lines 149-151 cannot fire in the model. A record is typed, so indexing and comparison cannot raise.
- Calendar.HolidayListSpelling: it proves only that each holiday's day number prints as the listed string. It does not prove the converse, that no other day prints as a listed string (`IsoDate` being injective). The day-number holiday test is therefore argued equal to the source's string test, but only one direction is proved.
- Calendar.IsoDate: the text is right only for years 1000 to 9999, because each year is printed with four digits. `strptime` on a malformed string (an `InvalidDate`) cannot arise with day numbers.
- Builder.MaxDateIsNewest: the source takes the maximum of ISO date strings. The model takes the maximum of day numbers. The two agree for four-digit years.
- Entry.ExitReflectsRun: `KeyboardInterrupt` and any other exception of the run (lines 355-364) exit 1. The model covers only the save raising.
