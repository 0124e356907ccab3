/**
 The exit decision of the script's `__main__` block, once
 `fetch_stock_data` has returned.
 */
module Entry {

  import opened Builder

  /** Below this many accepted records the run still succeeds but warns of a low success rate. */
  const LowSuccessThreshold := 40

  /** The process exit code, whether the low-success warning is given, and whether the snapshot is saved. */
  datatype ExitDecision = ExitDecision(code: int, lowSuccessWarning: bool, saveAttempted: bool)

  /**
   No accepted record exits 1 before saving; otherwise the warning is given
   below the threshold and the snapshot is saved, exiting 0 when the save
   returns and 1 when it raises.
   */
  function MainExit(totalStocks: nat, saveSucceeds: bool): ExitDecision
  {
    if totalStocks == 0 then ExitDecision(1, false, false)
    else ExitDecision(if saveSucceeds then 0 else 1, totalStocks < LowSuccessThreshold, true)
  }

  /**
   For a whole run: the script exits 0 exactly when some symbol's record was
   accepted and the save succeeded, and warns exactly when between 1 and 39
   records were accepted.
   */
  lemma ExitReflectsRun(universe: seq<string>, feeds: seq<Feed>, saveSucceeds: bool)
    requires |feeds| == |universe| && AllCovered(feeds)
    ensures var total := TallyUpTo(universe, feeds, |universe|).success;
      && (MainExit(total, saveSucceeds).code == 0 <==>
            saveSucceeds && exists i :: 0 <= i < |universe| && SymbolVerdict(universe[i], feeds[i]).Accepted?)
      && (MainExit(total, saveSucceeds).lowSuccessWarning <==> 0 < total < LowSuccessThreshold)
      && (MainExit(total, saveSucceeds).code != 0 <==> total == 0 || !saveSucceeds)
  {
    TallyPartition(universe, feeds, |universe|);
    SomeAccepted(universe, feeds, |universe|);
  }
}
