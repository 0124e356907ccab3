/**
 The trading-date oracle `get_actual_trading_date`: the date of the newest
 row of a probe of RELIANCE.NS, or else a walk back from today through the
 calendar.
 */
module TradingDate {

  import opened Calendar
  import opened Provider

  /** The number of candidate days of the fallback walk (`range(7)`). */
  const FallbackWindow := 7

  /**
   The fallback walk from candidate `today - daysBack` on, for a trading-day
   test `isOpen`: the first candidate that passes it, or `today` when none of
   the seven does.  The oracle uses it with `IsMarketOpen`; the walk's
   properties hold for any test.
   */
  function FallbackFrom(isOpen: Day -> bool, today: Day, daysBack: nat): Day
    requires daysBack <= FallbackWindow
    decreases FallbackWindow - daysBack
  {
    if daysBack == FallbackWindow then today
    else if isOpen(today - daysBack) then today - daysBack
    else FallbackFrom(isOpen, today, daysBack + 1)
  }

  /** The date the oracle resolves, given the probe's outcome and the current date. */
  function ResolvedDate(probe: Outcome, today: Day): Day
  {
    if IsNonEmpty(probe) then LastBar(probe.bars).date else FallbackFrom(IsMarketOpen, today, 0)
  }

  /**
   The fallback loop of `get_actual_trading_date`: today, yesterday, ... up to
   six days back, the first day that passes `isOpen`, else today.
   */
  method WalkBack(isOpen: Day -> bool, today: Day) returns (date: Day)
    ensures date == FallbackFrom(isOpen, today, 0)
  {
    for daysBack := 0 to FallbackWindow
      invariant FallbackFrom(isOpen, today, daysBack) == FallbackFrom(isOpen, today, 0)
    {
      var checkDate := today - daysBack;
      if isOpen(checkDate) {
        return checkDate;
      }
    }
    return today;
  }

  /** `get_actual_trading_date`, with the probe's outcome and `datetime.now()` as inputs. */
  method GetActualTradingDate(probe: Outcome, today: Day) returns (date: Day)
    ensures date == ResolvedDate(probe, today)
  {
    if probe.Table? && |probe.bars| > 0 {
      return probe.bars[|probe.bars| - 1].date;
    }
    date := WalkBack(IsMarketOpen, today);
  }

  /**
   The walk from `daysBack` on returns the latest candidate at or before
   `today - daysBack` that passes the test, or `today` when none does.
   */
  lemma {:induction false} FallbackFromIsFirstOpen(isOpen: Day -> bool, today: Day, daysBack: nat)
    requires daysBack <= FallbackWindow
    decreases FallbackWindow - daysBack
    ensures (exists c :: today - FallbackWindow < c <= today - daysBack && isOpen(c)) ==>
      var d := FallbackFrom(isOpen, today, daysBack);
      && today - FallbackWindow < d <= today - daysBack
      && isOpen(d)
      && forall c :: d < c <= today - daysBack ==> !isOpen(c)
    ensures (forall c :: today - FallbackWindow < c <= today - daysBack ==> !isOpen(c)) ==>
      FallbackFrom(isOpen, today, daysBack) == today
  {
    if daysBack < FallbackWindow && !isOpen(today - daysBack) {
      FallbackFromIsFirstOpen(isOpen, today, daysBack + 1);
    }
  }

  /**
   The fallback date is the first of today, today-1, ..., today-6 that is a
   trading day, and today when none is; so it is never after today and never
   more than six days before it.
   */
  lemma FallbackDate(today: Day)
    ensures today - (FallbackWindow - 1) <= FallbackFrom(IsMarketOpen, today, 0) <= today
    ensures (exists c :: today - FallbackWindow < c <= today && IsMarketOpen(c)) ==>
      var d := FallbackFrom(IsMarketOpen, today, 0);
      IsMarketOpen(d) && forall c :: d < c <= today ==> !IsMarketOpen(c)
    ensures (forall c :: today - FallbackWindow < c <= today ==> !IsMarketOpen(c)) ==>
      FallbackFrom(IsMarketOpen, today, 0) == today
  {
    FallbackFromIsFirstOpen(IsMarketOpen, today, 0);
  }

  /** A probe with rows decides the date by itself; a failed or empty probe falls back to the calendar. */
  lemma ResolvedDateSources(probe: Outcome, today: Day)
    ensures IsNonEmpty(probe) ==> ResolvedDate(probe, today) == probe.bars[|probe.bars| - 1].date
    ensures !IsNonEmpty(probe) ==> ResolvedDate(probe, today) == FallbackFrom(IsMarketOpen, today, 0)
    ensures !IsNonEmpty(probe) ==> today - (FallbackWindow - 1) <= ResolvedDate(probe, today) <= today
  {
    FallbackDate(today);
  }
}
