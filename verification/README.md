# Verified models of the backtest engines and the ETR zone-entry lifecycle

This project models, in Dafny, the deterministic step machines of the trading-signal repository
and proves what their docstrings, tests and comments promise of them:

- the **SMC engine**: the swing-structure tracker that emits BOS and CHoCH breaks, their mapping
  from a higher timeframe, the order-block arm / retest / mitigate / expire machine, the
  position walk, and the windows of the autosearch;
- the **HTF-Fib engine**: delayed pivot confirmation, the versioned swing with its Fibonacci
  levels, the position walk with fixed-lot or risk-fraction accounts, window statistics and the
  sweep line over its trades;
- the **fast indicators**: the monotonic-deque rolling extremes and the one-pass DMI/ADX series,
  each against a simple definition;
- the **Donchian engine**: the entry filters with their memory of RSI alignments, and one mutable
  ledger with breakeven, trailing, time, counter-signal and pending-fill rules;
- the **ETR lifecycle**: report diff, shadow events, and the per-asset state transition of a poll.

## How it is laid out

Each engine is a class with the source's fields and a method per bar. Every method is proved
equal to a pure step function, and a whole run is a fold (`Run`) of that step. The theorems are
about the fold, so they hold of every run and can compare two runs. Prices and cash are `real`,
timestamps are `int`; a missing or NaN value is `None`.

| part | files |
|---|---|
| shared | `Wrappers`, `Seqs`, `Reals`, `Text`, `Market`, `Costs`, `Brackets`, `Mirror` |
| indicators | `Wilder`, `Averages`, `HighLow`, `Rsi`, `IndicatorMirror`, `Dmi`, `DmiTheorems`, `DmiAgreement`, `DmiDirections` |
| frames | `Htf`, `HtfBuckets`, `HtfNesting`, `AsOfLookup` |
| SMC structure | `Structure`, `StructureRuns`, `StructureBreaks`, `HtfCausality` |
| SMC walk | `SmcModel`, `SmcWalk`, `SmcRuns`, `SmcSignals`, `SmcCompleteness`, `SmcRetests`, `SmcAcceptance`, `SmcTerms`, `SmcMirror`, `SmcSolvency`, `SmcContinuity`, `SmcGap`, `SmcCausality`, `SmcSettled` |
| windows | `Windows`, `WindowMeanings`, `Autosearch`, `Holdout`, `HoldoutPeek` |
| HTF-Fib | `Swing`, `SwingRuns`, `SwingLegs`, `Pivots`, `FibModel`, `FibWalk`, `FibRuns`, `FibLedger`, `FibTerms`, `FibSignals`, `FibCompleteness`, `FibConditions`, `FibPivots`, `FibSwings`, `FibEntries`, `FibMirror`, `FibReflection`, `FibTies`, `FibCausality`, `FibFrames`, `FibPipeline`, `FibSeen`, `FibWindows`, `FibOverstay`, `SweepLine` |
| Donchian | `DonchianSignals`, `DonchianSetups`, `Donchian`, `DonchianTerms`, `DonchianMirror`, `DonchianRuns`, `DonchianExits`, `DonchianLedger`, `DonchianStops`, `DonchianLoosening`, `DonchianKnownStops`, `DonchianCausality`, `DonchianFrames`, `DonchianPipeline`, `DonchianSeries`, `DonchianCases`, `DonchianPeeks` |
| ETR | `EtrModels`, `EtrDiff`, `EtrShadow`, `EtrShadowRuns`, `EtrReasons`, `EtrWords`, `EtrService`, `EtrServiceRuns`, `EtrEdges` |

What an entry needs is stated twice. The model has it as the source writes it, once for longs and once
for shorts. The reference definitions (`SmcRetests`, `SmcAcceptance`, `StructureBreaks`,
`FibConditions`, `DonchianSetups`) read it off bars and indicators for both sides at once, through the
signed move in the direction of the trade, and the theorems say that the runs enter exactly then. The
mirror theorems (`SmcMirror`, `FibMirror`, `FibReflection`, `DonchianMirror`, `DmiDirections`) say that
prices turned upside down give the same runs with long and short exchanged.

`dafny verify dfyconfig.toml` checks everything; give it `--resource-limit 2000000`.

## What the code does that its descriptions do not say

The model follows the code. Where a promise fails, a lemma says exactly when it holds and another
gives an input on which it does not:

- `SwingState.low < SwingState.high` is not kept by every pivot sequence. One branch, a pivot that
  extends a leg past the leg's own other end, inverts the swing and leaves stale levels
  (`SwingRuns.SwingCanInvert`); from an ordered swing every other update keeps the order
  (`SwingRuns.UpdateKeepsOrderExactly`). The levels themselves always lie inside the last swing
  that was drawn.
- Long and short are treated alike by the SMC and Fib walks (`SmcMirror.RunFlips`, `FibMirror.RunFlips`),
  by the whole Fib backtest from raw bars (`FibReflection.PipelineFlips`) and by the Donchian filters and
  loop with their bounds in order (`DonchianMirror.FilteredRunFlips`). The swing structure is not: its
  first pivot is always a low, and a bar that is a high and a low at once counts as a high
  (`StructureRuns.PivotsAlternate`, `StructureRuns.PivotRecordedExactly`). The two RSI differ: that of the Fib
  backtest is its own mirror on every list, the shared one exactly where some price moves
  (`IndicatorMirror.ReadingFlipsExactly`).
- A bar that confirms a new swing high does not break the one before it, even if its close crosses it:
  the new level takes its place first (`StructureBreaks.BreaksOfEarlierPivots`, and
  `StructureBreaks.RenewedHighIsNoBreak` for an input).
- The Donchian backtest reads ahead. It looks the half-hour and hour indicators up by the start of
  their bars, so a trading bar reads the RSI, ADX and DI of the hour in progress, up to that hour's
  close. Two loads that differ only in the last quarter of an hour take different trades before it
  (`DonchianPeeks.HourCloseIsReadEarly`, with the default parameters). Agreement on `k` bars settles
  what the first `k` read, whatever the indicator, exactly when bar `k` opens a new hour
  (`DonchianPipeline.SettledAtHourEnds`); loads that agree until then close the same trades before `k`
  (`DonchianPipeline.PipelineReadsToHourEnd`). The DI filter reads further still: its columns are empty
  on a load of fewer than 29 hours, so whether a DI is there from the sixteenth hour on depends on the
  length of the load (`DonchianPipeline.DiReadExactly`, `DonchianPipeline.DiSettledExactly`). The SMC
  and Fib backtests do not read ahead (`SmcCausality.PipelineIsCausal`, `FibPipeline.PipelineIsCausal`);
  the Fib RSI of longer frames is shifted by one bar (`FibFrames.ConfirmedAgrees`).
- A confirmed Fib pivot is consumed only by a trading bar that begins at the start of the bucket that
  confirms it. All confirmed pivots are seen exactly when every such start is the time of a bar
  (`FibSeen.AllPivotsSeenExactly`); after a gap one can be dropped (`FibSeen.LatePivotIsDropped`).
- The search reads the holdout as long as a trade entered before it is open: `max_hold + 1` bars at most,
  none if no position is open at its start (`Autosearch.SearchReadsUntilSettled`,
  `Autosearch.HoldingWindowSettles`, `Autosearch.FlatStartSettles`); the first holdout bar can move the
  score (`HoldoutPeek.HoldoutBarMovesScore`).
- The loss per SMC trade is bounded by risk cash, slippage share and commission exactly when a time
  exit does not open beyond the stop (`SmcSolvency.TradeLoss`). No run on given bars has such an exit
  exactly when every bar from the third on opens inside the range of the bar before
  (`SmcContinuity.NeverGapsExactly`), and then the balance keeps its floor
  (`SmcSolvency.ContinuousBarsKeepFloor`); on five bars with a gap the balance falls below zero
  (`SmcGap.GapBreachesFloor`).
- The DMI series and `calculate_adx_full` do not always agree on ADX. Where both report, they agree
  exactly when the first `period` true ranges have a positive sum or the first `period - 1` DX values
  of the batch form are zero (`DmiAgreement.AdxAgreesExactly`); on valid bars the second half means
  that the `period - 1` bars from the first range on show no directional movement
  (`DmiAgreement.AdxAgreesOnBars`). After other flat starts they differ, because the batch form skips
  the undefined DX values and the series counts them as zero
  (`DmiTheorems.FlatStartMakesAdxDiffer`), and the batch form reports nothing until `period` indices
  from the first range on, while the series does from bar 2·period + 1. Both forms skip the true
  range at list index `period`.
- The Donchian stop can loosen inside a trade: on a bar without ATR it falls back from the trail to
  the base stop, which is looser exactly when the trail was tighter
  (`DonchianLoosening.StopsLoosenExactly`). The ATR list has such a bar exactly among the first 14 and
  where the last 14 bars had no range (`DonchianLoosening.AtrMissingExactly`), and
  `DonchianCases.MissingAtrLoosensStop` is a run in which that happens.
- The stop in force on a Donchian bar is not always the one known at its open: the bar's own high, low,
  close and ATR move it before its range is tested, exactly when it is the first to reach break-even,
  when its own close tightens the trail, or when its missing ATR drops the trail
  (`DonchianKnownStops.StopsAreKnownExactly`, and `DonchianCases.OwnCloseMovesStop` for a run).
- The Donchian confirmation window accepts "never aligned" when it is longer than the warm-up
  (`DonchianSignals.WindowIsExact`, and `DonchianCases.NeverAlignedFires` for an input).
- The Donchian size is taken from the stop in force at the exit, not at the entry. From a positive
  balance, a stop-out at a price other than zero is worth one percent of the balance before costs
  exactly when that stop is off the entry price; with the stop at the entry price, as after break-even
  without trailing, every exit is sized by a single unit (`DonchianLedger.ManagedExitRule`,
  `DonchianLedger.StopAtEntryIsBreakeven`, and `DonchianCases.BreakevenStopIsOneUnit` for a run).
- In the Fib walk an exit needs a positive stop distance. A position outlasts its holding window
  exactly when its stop is placed by the ATR of the bar before the entry and that ATR is zero
  (`FibWindows.OverstaysExactly`), and then it is never closed (`FibRuns.ZeroRiskNeverCloses`). With an
  ATR period of two or more computed from the bars this cannot happen
  (`FibWindows.EveryPositionLeaves`); with a period of one it can (`FibOverstay.PositionOverstays`).
- A zone entry needs only that the price was *not known* to be in the zone before
  (`EtrServiceRuns.EdgeIsTransition`). A reported entry follows no known exit exactly when the asset's
  last fetched poll had no price or no zone (`EtrEdges.RearmedExactly`, and
  `EtrEdges.MissingPriceRearms` for a run of three polls). An entry whose notification raises is lost:
  the flag is already stored (`EtrEdges.LostEntry`).

## Model

| member | source | states |
|---|---|---|
| Costs.MakeBook | src/backtest/cost_book.py:48-54 | a cost book exists exactly for non-negative costs and a positive lot size, and then holds the given values; otherwise ValueError |
| Costs.RoundTripCost | src/backtest/cost_book.py:56-74 | entry and exit fill together cost the spread and two slippages, on either side |
| Brackets.ExitReasonIsSameBarExit | src/backtest/exits.py:17-42 | inside the holding window the walks' exit rule is the shared tie-break, for every accepted side name |
| HighLow.RollingHighestHighs | src/indicators/high_low.py:48-68 | the deque pass gives the window maximum at every index (none before a full window), ValueError for a non-positive lookback, and at most one pop per bar |
| HighLow.RollingLowestLows | src/indicators/high_low.py:71-91 | the same for the minimum |
| HighLow.RollingHighMatchesPerBar | src/indicators/high_low.py:18-23 | the pass equals `highest_high` on the prefix ending at each index and `previous_rolling_highest_high` one index later |
| HighLow.RollingLowMatchesPerBar | src/indicators/high_low.py:26-31 | the same for `lowest_low` and `previous_rolling_lowest_low` |
| HighLow.Displace | src/indicators/high_low.py:61-65 | popping the dominated bars and appending the new one keeps the deque equal to the peaks of the window |
| Rsi.CalculateRsi | src/indicators/rsi.py:29-60 | the loop over two running averages computes the Wilder reading, or nothing when there are too few prices |
| Rsi.ReadingBounds | src/indicators/rsi.py:43-60 | a percentage; one hundred exactly when no price falls, standing still included, and zero exactly when some price falls and none rises |
| IndicatorMirror.ReadingFlipsExactly | src/indicators/rsi.py:43-60 | on negated prices the reading is one hundred less the reading exactly when some price moves |
| Dmi.CalculateAdxFull | src/indicators/adx.py:6-69 | the loops over mutable accumulators compute the recursive Wilder definition, or nothing when there are too few or misaligned bars |
| Dmi.PrecomputeDmiSeries | scripts/run_donchian_backtest.py:293-374 | the preallocated lists are filled, index by index, with the recursive series values and nothing elsewhere |
| DmiTheorems.SeriesDiIsBatchDi | scripts/run_donchian_backtest.py:341-364 | whenever the batch form on the prefix ending at k gives a reading, its DI pair is the series' pair at k, zero ranges included |
| DmiAgreement.AdxAgreesExactly | scripts/run_donchian_backtest.py:335-372 | the series holds an ADX from bar 2·period+1 on; the batch form of the prefix reports exactly when `period` indices from the first range on have been seen; where both report they agree exactly when the first `period` ranges have a positive sum or the first period−1 DX of the batch form are zero |
| DmiAgreement.AdxAgreesOnBars | src/indicators/adx.py:41-69 | on valid bars that condition reads: the first `period` bars have moved, or the period−1 bars from the first range on show no directional movement |
| DmiAgreement.FirstRangeOnInputs | src/indicators/adx.py:41-52 | the first range is the first index after `period` with a positive true range, unless the first `period` already have a positive sum |
| DmiAgreement.LeadingZerosHarmless | src/indicators/adx.py:62-66 | leading zeros leave a Wilder average unchanged exactly when all but the last of the first `period` values after them are zero |
| DmiTheorems.FlatStartMakesAdxDiffer | src/indicators/adx.py:43-60 | a flat start on which the two forms report 100 and 75 |
| DmiTheorems.ReadingBounds | src/indicators/adx.py:25-69 | on bars with low ≤ close ≤ high, both DI are non-negative with sum at most 100 and ADX is in [0, 100] |
| DmiTheorems.SeriesBounds | scripts/run_donchian_backtest.py:340-372 | the same for every bar of the series |
| DmiDirections.ReadingFlips | src/indicators/adx.py:25-69 | highs and lows exchanged and all prices negated, the batch form exchanges the two DI and keeps the ADX |
| DmiDirections.SeriesFlips | scripts/run_donchian_backtest.py:312-374 | and so does the series at every bar |
| DmiDirections.DiZeroExactly | scripts/run_donchian_backtest.py:316-345 | on valid bars +DI is zero exactly while no high rises by more than the low falls, −DI exactly while no low falls by more than the high rises, the pair of bars at list index `period` apart |
| DmiDirections.FallingReads | src/indicators/adx.py:25-69 | over a full frame of falling highs and lows both forms read +DI 0, −DI above it and ADX 100, the series from its first values on |
| DmiDirections.RisingReads | src/indicators/adx.py:25-69 | and the other way round while they rise |
| Averages.DecayIsWilder | src/indicators/adx.py:49-67 | the smoothing of sums and the smoothing of averages are the same, up to the period |
| Averages.AtrWithin | scripts/run_htf_fib_backtest.py:309-329 | the ATR lies between the least and the greatest true range so far |
| Averages.EmaFollowsCloses | scripts/run_htf_fib_backtest.py:521-522 | a moving average goes two parts in span + 1 of the way to each close and stays in the range of the closes |
| Structure.StructureTracker.ProcessBar | scripts/run_smc_backtest.py:142-217 | the in-place update of leg, pivots, bias and crossed flags is one tracker step, with the break it returns |
| Structure.BuildBreakSchedule | scripts/run_smc_backtest.py:262-274 | the schedule holds exactly the bars at which a run of the tracker emits a break |
| StructureBreaks.BreaksExactly | scripts/run_smc_backtest.py:148-217 | on every series and for both sides a break is emitted on a bar exactly when its close crosses the latest pivot of the side confirmed by then and no break before was of that pivot; tag, level, pivot bar, swing top and bottom are those of the break before and of the latest pivots |
| StructureBreaks.BreaksOfEarlierPivots | scripts/run_smc_backtest.py:163-215 | on valid bars that is the latest pivot of the bars before, unless this bar confirms a newer one of its kind |
| StructureBreaks.RenewedHighIsNoBreak | scripts/run_smc_backtest.py:163-190 | five valid bars whose last close crosses the latest swing high of the bars before, unbroken so far, and on which no break is emitted |
| StructureRuns.PivotsAlternate | scripts/run_smc_backtest.py:155-172 | recorded pivots alternate strictly, beginning with a low |
| StructureRuns.PivotsAreSwingPoints | scripts/run_smc_backtest.py:149-163 | each recorded level is the true price of its bar, strictly more extreme than the next swing_length bars, known only swing_length bars later |
| StructureRuns.PivotRecordedExactly | scripts/run_smc_backtest.py:155-172 | a pivot is recorded exactly when the bar is a swing point that the alternation allows; none is missed |
| StructureRuns.BreakCrossesConfirmedPivot | scripts/run_smc_backtest.py:174-215 | a break crosses on the close the latest confirmed pivot of its side, strictly after the bar that confirmed it |
| StructureRuns.BreaksOfOneSideUseLaterPivots | scripts/run_smc_backtest.py:177-186 | each pivot emits at most one break |
| StructureRuns.ChangeOfCharacter | scripts/run_smc_backtest.py:182-203 | a break is CHoCH exactly when the previous break went the other way |
| StructureRuns.LevelsAreConfirmed | scripts/run_smc_backtest.py:142-172 | a level in the tracker belongs to a bar at least swing_length bars back |
| Htf.ResampleGrows | scripts/run_htf_fib_backtest.py:332-345 | as trading bars arrive only the newest higher-timeframe bar can change |
| HtfBuckets.BucketExactly | scripts/run_htf_fib_backtest.py:332-345 | a bucket starts at the last multiple of the period that is not after the time |
| HtfBuckets.ResampleExactly | scripts/run_htf_fib_backtest.py:332-345 | on bars in order of time: one bar for every bucket that holds a bar, in order, with the open of its first, the close of its last, the highest high and the lowest low of exactly the bars of its bucket |
| HtfNesting.ResamplingNests | src/data/dukascopy_fetcher.py:515-525 | resampling minutes to quarters and these to hours is resampling minutes to hours |
| AsOfLookup.LookupExactly | scripts/run_donchian_backtest.py:680-681 | a lookup reads the latest value of the longer bars that have begun by the time of the trading bar, each over the bars up to it, the one in progress included |
| AsOfLookup.LookupsAgree | scripts/run_donchian_backtest.py:680-681 | series that agree until the bucket of bar k−1 is over give the first k bars the same readings of every indicator on the longer frame |
| AsOfLookup.LookupsSettledExactly | scripts/run_donchian_backtest.py:680-681 | agreement on k bars settles those readings, for every indicator and every continuation, exactly when bar k opens a new bucket |
| Htf.FirstAtOrAfter | scripts/run_smc_backtest.py:290-292 | the least trading bar at or after a time |
| Htf.MapHtfScheduleToLtf | scripts/run_smc_backtest.py:277-304 | the loop builds the mapped schedule, later breaks overwriting earlier ones |
| Htf.MappedEntry | scripts/run_smc_backtest.py:289-303 | what the mapped schedule holds at a bar is the latest break whose bar has its first trading bar at or after the close there, re-indexed |
| Htf.MappingPreservesOrder | scripts/run_smc_backtest.py:289-294 | a later higher-timeframe break never lands earlier |
| Htf.FinalBeforeUse | scripts/run_smc_backtest.py:398-413 | when a higher-timeframe bar is used, the trading bars strictly before have already built it and all before it in final form |
| HtfCausality.MappedAfterClose | scripts/run_smc_backtest.py:277-304 | every mapped break sits on the first trading bar at or after its bar's close and uses only completed bars |
| HtfCausality.HtfScheduleSameStart | scripts/run_smc_backtest.py:384-414 | series that agree on their first k bars have the same mapped breaks before k, whatever their unfinished bucket becomes |
| SmcModel.OrderBlockIsLegExtreme | scripts/run_smc_backtest.py:307-322 | the order block is the first most extreme parsed candle of the leg from pivot to break |
| SmcTerms.ParsedExactly | scripts/run_smc_backtest.py:244-259 | the parsed prices of a bar are its high and low, exchanged exactly when its range is at least twice its 200-bar ATR |
| SmcWalk.Walk.FillPending | scripts/run_smc_backtest.py:499-519 | the fill part of a bar, in place, is the fill part of the pure step |
| SmcWalk.Walk.ExitPosition | scripts/run_smc_backtest.py:521-582 | the exit part, with ledger and trade list, in place |
| SmcWalk.Walk.ArmOnFlatBar | scripts/run_smc_backtest.py:587-630 | the order-block and break part of a flat bar, in place |
| SmcWalk.Walk.Step | scripts/run_smc_backtest.py:492-630 | one bar in place is one pure step |
| SmcWalk.RunPreparedBacktest | scripts/run_smc_backtest.py:458-632 | the reported trades and balance are those of the fold over all bars; an empty series raises IndexError |
| SmcRuns.TradesLeaveAtFirstTouch | scripts/run_smc_backtest.py:499-585 | every trade is filled at the open after its signal and leaves at the first bar of its window touching stop or target, stop winning, else at the open after the window |
| SmcRuns.PositionsNeverOverlap | scripts/run_smc_backtest.py:583-585 | the next entry is at least two bars after an exit |
| SmcRuns.BalanceIsStartPlusPnl | scripts/run_smc_backtest.py:558-583 | the balance is the start plus the net result of all trades |
| SmcRuns.PendingFillsOnNextBar | scripts/run_smc_backtest.py:499-519 | a pending entry becomes a position, or a trade closed at once, on the very next bar |
| SmcSignals.SignalsAreGenuine | scripts/run_smc_backtest.py:587-630 | every entry comes from an accepted break on its bar or from the first unmitigated retest, within its life, of a block an accepted break armed |
| SmcCompleteness.BreaksAreTakenExactly | scripts/run_smc_backtest.py:600-630 | without order blocks an entry is pending after a bar exactly when the walk was flat and funded on it, the bar has an accepted break and there is a next bar; and it is that break's |
| SmcCompleteness.BreakArmsBlock | scripts/run_smc_backtest.py:587-626 | with order blocks an accepted break on a flat, funded bar arms its block, unless the bar retests the block before it |
| SmcCompleteness.RetestsAreTaken | scripts/run_smc_backtest.py:587-598 | the first retest of an armed block within its life is taken, unless a close has mitigated it or another accepted break replaced it |
| SmcRetests.RetestEntriesExactly | scripts/run_smc_backtest.py:350-381 | with order blocks an entry is pending after a bar exactly when a bar is left to fill it on and the bar is the first, within the life of a block the walk armed, to come back to its near side and close in its direction beyond its far side, with no close through it and no other accepted break between; block, side and ATR are those of the break that armed it |
| SmcRetests.TradesRetestBlocks | scripts/run_smc_backtest.py:587-626 | every trade of every run with order blocks was entered on the bar after such a retest |
| SmcAcceptance.ScheduleExactly | scripts/run_smc_backtest.py:384-414 | on every timeframe a bar is scheduled exactly when a break is known there, by close of its own bar, and then it is the latest one, with the fields its frame gives it |
| SmcAcceptance.AcceptedExactly | scripts/run_smc_backtest.py:325-347 | from raw bars a break of a side is accepted exactly when the bar has a range, the latest break known there is of that side, its tag is wanted, and the close is no further from the end of the swing range where the trade starts than from the other |
| SmcAcceptance.BreakEntriesExactly | scripts/run_smc_backtest.py:599-630 | from raw bars, without order blocks, an entry of a side is pending after a bar exactly when the walk was flat and funded, the raw bars give such a break there and there is a next bar |
| SmcAcceptance.ArmsExactly | scripts/run_smc_backtest.py:612-626 | with order blocks, what the walk arms is the block of such a break |
| SmcTerms.FlatExactly | scripts/run_smc_backtest.py:584-585 | a walk looks for entries on a bar exactly when it holds nothing and waits for no fill as the bar begins |
| SmcTerms.TradesKeepTerms | scripts/run_smc_backtest.py:501-577 | every trade of every run: fill one spread and slippage beyond the open, stop the larger of ATR stop and five pips behind it, target the ATR target ahead; exit one slippage behind its level; lots that make the way to the stop worth the risked cash; net result, R multiples and percentage from the way between the fills |
| SmcMirror.RetestFlips | scripts/run_smc_backtest.py:350-381 | in the mirror long retests are short retests and mitigations mitigations |
| SmcMirror.RunFlips | scripts/run_smc_backtest.py:458-632 | on prepared inputs in the mirror every run is the same run with long and short exchanged and the same results |
| SmcMirror.PrepareFlips | scripts/run_smc_backtest.py:417-455 | ATR and parsed prices of bars in the mirror are those of the bars, in the mirror |
| SmcSolvency.TradeLoss | scripts/run_smc_backtest.py:521-561 | a stop-out costs exactly risk cash, its slippage share and commission; a trade costs more exactly when it is a time exit that opened beyond the stop |
| SmcSolvency.TradeResult | scripts/run_smc_backtest.py:538-561 | every trade earns its mid-to-mid move less the spread and two slippages, in stop distances worth the risked cash each, less commission; a target exit the target distance less one slippage |
| SmcSolvency.StopOutLossIsBounded | scripts/run_smc_backtest.py:506-506 | the five-pip minimum stop caps that loss at risk cash · (1 + slippage pips / 5) + commission |
| SmcSolvency.LiveMeansFunded | scripts/run_smc_backtest.py:606-612 | while a position, a pending entry or a block is live the balance exceeds 5 % of the start |
| SmcSolvency.BalanceStaysAboveFloor | scripts/run_smc_backtest.py:458-632 | a run whose time exits open on the safe side of the stop keeps the balance at or above (0.05 − risk fraction · (1 + slippage pips / 5)) · initial − commission |
| SmcSolvency.NoGapsInContinuousBars | scripts/run_smc_backtest.py:521-536 | on bars that from the third on open inside the range of the bar before, every time exit of every configuration and account opens on the safe side of its stop |
| SmcSolvency.ContinuousBarsKeepFloor | scripts/run_smc_backtest.py:458-632 | so on such bars no run falls below that floor |
| SmcContinuity.NeverGapsExactly | scripts/run_smc_backtest.py:521-536 | on valid bars no run, whatever its breaks, ATR list, configuration and account, has a time exit beyond a stop exactly when every bar from the third on opens inside the range of the bar before |
| SmcGap.GapBreachesFloor | scripts/run_smc_backtest.py:417-585 | five raw bars, prepared as the source does, whose run closes a short beyond its stop and takes the balance below zero |
| SmcCausality.PrepareIsReady | scripts/run_smc_backtest.py:417-455 | what preparation builds is a valid input of the walk, in every entry mode and timeframe |
| SmcCausality.PrepareAgrees | scripts/run_smc_backtest.py:417-455 | ATR, parsed prices and breaks of a bar depend on no later bar |
| SmcCausality.WalkIsCausal | scripts/run_smc_backtest.py:458-632 | inputs that agree on k bars give the same trades with exit before k |
| SmcCausality.PipelineIsCausal | scripts/run_smc_backtest.py:655-684 | the same from raw bars to trades |
| SmcCausality.PipelineTailIsBounded | scripts/run_smc_backtest.py:521-523 | series that agree through bar c + max_hold + 1 give the same trades entered by bar c |
| Windows.AggregateWindow | scripts/run_htf_fib_backtest.py:829-867 | the loops compute the window statistics, trades stably ordered by exit time |
| Windows.NetPctIsPooledPnl | scripts/run_htf_fib_backtest.py:850-864 | the net percentage is the pooled result over the initial capital, whatever the exit order |
| Windows.CurveBounds | scripts/run_htf_fib_backtest.py:852-857 | no point of the equity curve is above the peak or deeper below its own peak than the reported drawdown |
| Windows.CurveAttains | scripts/run_htf_fib_backtest.py:852-857 | some point attains the peak and some point the drawdown |
| WindowMeanings.StatisticsMean | scripts/run_htf_fib_backtest.py:848-867 | the win rate is the share of trades with a positive net R, the two profit factors are of gross and net R, and the profitable pairs are those whose selected trades add up to more than zero |
| WindowMeanings.CurveFollowsExits | scripts/run_htf_fib_backtest.py:851-863 | the equity curve starts at the capital of the first pair and takes the pooled trades in the order in which they exit, those of one time in the order in which they came |
| WindowMeanings.GainsMean | scripts/run_htf_fib_backtest.py:395-400 | gains are the sum of the values above zero, and the wins their number |
| WindowMeanings.ProfitFactorMeans | scripts/run_htf_fib_backtest.py:395-400 | with a loss the factor times the losses is the gains, and it is above one exactly when the values add up to more than zero; without, 99 or zero |
| WindowMeanings.ScoreMeans | scripts/run_smc_backtest.py:696-707 | the score is the validation result exactly when the sample is no better and there are thirty trades; otherwise less by half of what the sample is better by and a quarter of every missing trade |
| Autosearch.SelectWindow | research/smc_autosearch.py:158-184 | each pair keeps exactly its trades after the start and at or before the end, an empty table meaning no bound |
| Autosearch.WindowsPartitionTrades | research/smc_autosearch.py:139-144 | in-sample, validation and holdout trades, concatenated, are the trade list |
| Autosearch.RunsAreInEntryOrder | research/smc_autosearch.py:187-202 | the partition applies to every run's trades |
| Autosearch.StatsIgnoreEnding | scripts/run_htf_fib_backtest.py:829-867 | window statistics do not look at the ending balance, which the tail does move |
| Autosearch.SearchReadsUntilSettled | research/smc_autosearch.py:109-155 | statistics and score of a configuration do not depend on bars after which no trade entered by the holdout start is open |
| Autosearch.HoldingWindowSettles | scripts/run_smc_backtest.py:521-523 | max_hold + 1 bars past the holdout start are always enough |
| Autosearch.FlatStartSettles | research/smc_autosearch.py:139-146 | without an open position at the holdout start no bar past it is read, a pending entry notwithstanding |
| HoldoutPeek.HoldoutBarMovesScore | research/smc_autosearch.py:109-155 | two searches that agree through the holdout start and whose scores differ by the first bar after it |
| SmcSettled.SettledTradesAgree | scripts/run_smc_backtest.py:458-632 | inputs that agree until no trade entered by bar c is open give the same trades entered by it |
| Holdout.HoldoutCountsEveryTradeOnce | research/smc_autosearch.py:187-204 | the final evaluation counts every trade once, before or inside the holdout, and its two net percentages add up to that of all trades |
| Holdout.FiltersAreRedundant | research/smc_autosearch.py:199-202 | the filters before its two aggregations change nothing |
| Holdout.PreHoldoutAgrees | research/smc_autosearch.py:199-201 | its pre-holdout statistics do not depend on bars after which no trade entered by the holdout start is open |
| Swing.SwingState.UpdateFib | scripts/run_htf_fib_backtest.py:136-149 | the in-place drawing of the levels and the version bump |
| Swing.SwingState.Consume | scripts/run_htf_fib_backtest.py:151-207 | one pivot, in place, with whether the levels changed |
| Swing.SwingState.Reset | scripts/run_htf_fib_backtest.py:209-219 | invalidation, keeping the latest pivot |
| SwingRuns.SwingRunsKeepInv | scripts/run_htf_fib_backtest.py:136-219 | after any pivots and invalidations: direction exactly when both levels exist; both strictly inside the last drawn swing and ordered by direction; each drawing has its own, larger version |
| SwingRuns.VersionNeverDecreases | scripts/run_htf_fib_backtest.py:136-219 | the version never decreases along a run |
| SwingRuns.UpdateKeepsOrderExactly | scripts/run_htf_fib_backtest.py:158-182 | an update keeps low below high exactly outside the branch that extends a leg past its origin |
| SwingRuns.SwingCanInvert | scripts/run_htf_fib_backtest.py:174-177 | six pivots after which high = 6, low = 10, direction = 1 with stale levels |
| SwingLegs.PivotsDrawLegs | scripts/run_htf_fib_backtest.py:151-207 | a pivot beyond the last one draws a leg from it, or extends the leg it continues; in every other case it only becomes the last pivot, or not even that; both kinds at once, with all fields |
| SwingLegs.LevelsAreRetracements | scripts/run_htf_fib_backtest.py:136-149 | after any pivots and invalidations the levels are the 61.8 and 78.6 percent retracements of the last drawn swing |
| FibMirror.SwingRunsFlip | scripts/run_htf_fib_backtest.py:136-219 | any pivots and invalidations in the mirror give the swing in the mirror |
| Pivots.ConfirmedPivotEvents | scripts/run_htf_fib_backtest.py:348-380 | the loop and the final sort |
| Pivots.FinalSortIsIdentity | scripts/run_htf_fib_backtest.py:380-380 | the list is in key order before the sort |
| Pivots.PrefixStable | scripts/run_htf_fib_backtest.py:364-379 | the events of a prefix of k bars are exactly the full series' events confirmed before bar k |
| Pivots.PivotReadsOnlyClosedBars | scripts/run_htf_fib_backtest.py:367-374 | a pivot depends on no bar at or after its confirmation bar |
| Pivots.PivotsAreSpread | scripts/run_htf_fib_backtest.py:371-374 | two pivots of one kind are more than min(left, right) bars apart |
| FibPivots.BarShowsPivot | scripts/run_htf_fib_backtest.py:348-380 | a trading bar shows exactly the pivot of the bar whose right-hand side is over when it begins, at its price, high or low by comparison with each bar on both sides, and none if that bar is both |
| FibPivots.ConfirmedReadsClosedBars | scripts/run_htf_fib_backtest.py:383-388 | a confirmed reading is the indicator on exactly the longer bars that have closed by the time of the trading bar |
| FibSwings.BarMovesSwing | scripts/run_htf_fib_backtest.py:702-720 | every bar takes its one pivot first, ends the swing if it then goes beyond the start of the leg, and moves it in no other way |
| FibModel.CapitalStopLosesFraction | scripts/run_htf_fib_backtest.py:471-488 | leaving at the stop, slippage and commission included, loses exactly the chosen fraction of the capital |
| FibWalk.Walk.ExitPosition | scripts/run_htf_fib_backtest.py:625-700 | the exit part of a bar in place, for both account kinds |
| FibWalk.Walk.TrackSwing | scripts/run_htf_fib_backtest.py:702-720 | the bar's pivots, the dropped double pivot and the invalidation, in place |
| FibWalk.Walk.TestEntry | scripts/run_htf_fib_backtest.py:722-787 | the entry conditions, triggers and arming, in place |
| FibWalk.Walk.Step | scripts/run_htf_fib_backtest.py:587-787 | one bar in place is one pure step, or the exception it raises |
| FibWalk.RunPreparedBacktest | scripts/run_htf_fib_backtest.py:535-789 | trades and balance are those of the fold; exceptions are final |
| FibRuns.TradesLeaveAtFirstTouch | scripts/run_htf_fib_backtest.py:593-700 | every exit is the first touch in the holding window, stop winning, else the open after it |
| FibRuns.PositionsAndLedger | scripts/run_htf_fib_backtest.py:593-700 | the next entry is after the exit bar, and the balance is the start plus all net results |
| FibLedger.ResultsFollowFills | scripts/run_htf_fib_backtest.py:645-697 | every closed trade carries the result its fills, the rate of its exit bar and the balance then held give it |
| FibLedger.FixedLotResult | scripts/run_htf_fib_backtest.py:459-468 | a fixed lot earns its mid-to-mid move less the spread and two slippages, at the rate of the exit bar, less its commission |
| FibWindows.RiskIsAtr | scripts/run_htf_fib_backtest.py:597-622 | an open position has no stop distance exactly when its stop is placed by ATR and the ATR of the bar before the entry is zero |
| FibWindows.OverstaysExactly | scripts/run_htf_fib_backtest.py:625-645 | a position is still open beyond its window exactly then |
| FibWindows.EveryPositionLeaves | scripts/run_htf_fib_backtest.py:309-329 | with an ATR period of two or more and pivots computed from the bars, every position leaves by the end of its window |
| FibOverstay.PositionOverstays | scripts/run_htf_fib_backtest.py:625-645 | a run on eighteen bars, all inputs computed from them and a one-bar ATR, whose position is open past its window |
| FibRuns.ZeroRiskNeverCloses | scripts/run_htf_fib_backtest.py:645-645 | a position without a stop distance is never closed again |
| FibSignals.SignalsAreGenuine | scripts/run_htf_fib_backtest.py:702-787 | every entry answers, on the bar before, a condition of its side that has just become true, in the swing the bars alone have drawn, and is bracketed from that bar's ATR |
| FibCompleteness.SignalsAreTakenExactly | scripts/run_htf_fib_backtest.py:722-787 | a walk that is flat after a bar has an entry pending exactly when a condition has just become true there on a swing that may still be traded, with a bar left to fill on |
| FibConditions.EntriesShowConditions | scripts/run_htf_fib_backtest.py:744-772 | the bar before every entry of every run has given back 61.8 to 78.6 percent of the last drawn swing, beyond the averages in the direction of the trade, with every RSI that counts at or past its bound and the candle asked for |
| FibConditions.EntriesExactly | scripts/run_htf_fib_backtest.py:744-787 | over every run without exception: an entry of a side is pending after a bar exactly when the walk is flat, that condition has just become true or the bar before was not tested, no entry was signalled on this swing yet, if that counts, and there is a next bar |
| FibEntries.TradedExactly | scripts/run_htf_fib_backtest.py:775-784 | with one entry per swing the version remembered is that of the swing exactly when an entry was signalled on it |
| FibTerms.TradesKeepTerms | scripts/run_htf_fib_backtest.py:593-697 | every trade of every run: fill, stop by ATR or by the fraction of the account that leaving there costs, target, exit, size by lot or by the balance then held, both commissions, net result, R multiple and percentage |
| FibMirror.RunFlips | scripts/run_htf_fib_backtest.py:535-789 | on inputs in the mirror, RSI and bounds reflected around fifty, every run is the same run with long and short exchanged, the same results and the same exception |
| FibReflection.PipelineFlips | scripts/run_htf_fib_backtest.py:491-789 | the same from raw bars: averages, RSI of all frames, ATR, pivots and levels included |
| IndicatorMirror.RsiAfterFlips | scripts/run_htf_fib_backtest.py:284-306 | on every list of prices the Fib RSI of the negated prices is one hundred less the RSI |
| FibCausality.GroupByTime | scripts/run_htf_fib_backtest.py:505-514 | the pivots are grouped by confirmation time in their order |
| FibCausality.LookupIsFilter | scripts/run_htf_fib_backtest.py:702-702 | a bar's group is exactly the events confirmed at its time |
| FibCausality.SeenEventsAgree | scripts/run_htf_fib_backtest.py:348-380 | a trading bar sees the same pivots in every series that agrees with it up to that bar, whatever its unfinished higher-timeframe bar becomes |
| FibCausality.WalkIsCausal | scripts/run_htf_fib_backtest.py:792-826 | inputs that agree on k bars close the same trades before bar k, pivots found on each series' own resampled bars; an exception before bar k ends both runs alike |
| FibCausality.TailIsBounded | scripts/run_htf_fib_backtest.py:625-627 | inputs that agree through bar c + max_hold + 1 give the same trades entered by bar c |
| FibFrames.WilderRsi | scripts/run_htf_fib_backtest.py:284-306 | the one-pass list holds at each index the reading of the prices up to it |
| FibFrames.RsiAgreesExactly | scripts/run_htf_fib_backtest.py:296-299 | this RSI and the shared one agree on a list of prices exactly when some price moves; otherwise they read 50 and 100 |
| FibFrames.ConfirmedAgrees | scripts/run_htf_fib_backtest.py:383-388 | a confirmed reading of a longer frame is settled by the bars up to its own, for every indicator |
| FibFrames.InputsAgree | scripts/run_htf_fib_backtest.py:516-532 | averages, RSI, ATR and pivots of a bar depend on no later bar |
| FibPipeline.PipelineIsCausal | scripts/run_htf_fib_backtest.py:491-826 | loads that agree on k bars close the same trades before bar k, from raw bars and rates; an exception before bar k ends both runs alike |
| FibPipeline.PipelineTailIsBounded | scripts/run_htf_fib_backtest.py:625-627 | loads that agree through bar c + max_hold + 1 give the same trades entered by bar c |
| FibSeen.SeenIsFilter | scripts/run_htf_fib_backtest.py:702-702 | the pivots that the trading bars look up, in order, are those confirmed at the time of a bar |
| FibSeen.AllPivotsSeenExactly | scripts/run_htf_fib_backtest.py:505-514 | they are all confirmed pivots exactly when every confirming bucket start is the time of a trading bar |
| FibSeen.LatePivotIsDropped | scripts/run_htf_fib_backtest.py:702-702 | four bars with a late last one, whose confirmed pivot is never seen |
| FibEntries.OneEntryPerSwing | scripts/run_htf_fib_backtest.py:773-785 | armed versions strictly increase and each was drawn; trades ≤ armed ≤ drawings ≤ consumed pivots |
| FibEntries.LevelsKeepGeometry | scripts/run_htf_fib_backtest.py:702-720 | the geometry of the levels holds along every walk |
| FibTies.StopFirstIsPessimal | scripts/run_htf_fib_backtest.py:625-700 | for every oracle deciding bars that touch both levels, a fixed-lot run has the same entries and exit bars, and no trade and no balance worse than the stop-first run |
| SweepLine.MaxConcurrentTrades | scripts/evaluate_htf_fib_accounts.py:42-54 | the sweep returns the maximum over time of the number of trades with entry ≤ t < exit, zero-length trades included |
| DonchianSignals.Scan | scripts/run_donchian_backtest.py:677-786 | the filter part of the loop, with its early ends of a bar and its two remembered bars, gives each bar its triggers |
| DonchianSignals.MemoryIsLatest | scripts/run_donchian_backtest.py:702-712 | the remembered bar is the latest alignment on a bar that passed the checks, and none if there was none |
| DonchianSignals.WindowIsExact | scripts/run_donchian_backtest.py:714-717 | the window test holds exactly when there is an alignment within the confirmation bars, or none at all and the window is longer than the warm-up |
| DonchianSignals.TriggersAreSetups | scripts/run_donchian_backtest.py:719-786 | a bar triggers exactly when its setup holds and the window accepts it, which with a window no longer than the warm-up means a recent alignment |
| DonchianSetups.TriggersExactly | scripts/run_donchian_backtest.py:702-786 | on every bar and for both sides the filters fire exactly when the longer RSI are beyond the bound and the quarter-hour RSI crosses back, the bar goes beyond every bar of the lookback by more than the buffer and closes back inside, the DI against the trade is at most the ratio times the DI for it if both are known, the gates are open, the RSI fades and all RSI were beyond the bound within the window |
| DonchianSetups.TradesTrigger | scripts/run_donchian_backtest.py:788-847 | the bar before every trade of every run triggers for its side, and a counter-signal close is on a bar that triggers for the other |
| DonchianSetups.EntriesExactly | scripts/run_donchian_backtest.py:836-847 | a walk without a position has an entry pending after a bar exactly when the bar triggers, longs first, and there is a next bar |
| DonchianMirror.SignalsFlip | scripts/run_donchian_backtest.py:677-786 | prices negated, RSI and bounds reflected around fifty and the DI exchanged, long triggers are short triggers |
| DonchianMirror.FilteredRunFlips | scripts/run_donchian_backtest.py:410-871 | with the bounds in order every run over filters and loop is then the same run with long and short exchanged |
| DonchianSignals.SignalsExclude | scripts/run_donchian_backtest.py:764-786 | with the bounds in order no bar triggers both ways |
| DonchianSignals.RunFiltered | scripts/run_donchian_backtest.py:410-871 | filters and ledger together |
| Donchian.Backtest.Step | scripts/run_donchian_backtest.py:527-871 | one bar over the mutable ledger is one pure step |
| Donchian.RunConfig | scripts/run_donchian_backtest.py:410-871 | the loop is the fold over all bars after the warm-up |
| DonchianRuns.LedgerIsExact | scripts/run_donchian_backtest.py:610-675 | balance = 100000 + all results; each exit tally counts the closes of its kind, and with the counter-signal closes they are all trades; the loss counters are the current and the longest run of results ≤ 0 |
| DonchianRuns.TimeExitBindsHolding | scripts/run_donchian_backtest.py:605-608 | with the time exit on, no trade or open position is held longer than the limit |
| DonchianRuns.PendingFillsOnNextBar | scripts/run_donchian_backtest.py:534-550 | a pending signal fills at the open of the next bar |
| DonchianExits.TradesLiveAsTheBarsSay | scripts/run_donchian_backtest.py:534-871 | every trade was opened on the bar after its signal from that bar's ATR; each of its stops is the base stop tightened by the best trail so far; no bar before the exit touched stop, target or time limit or fired against it; and it left for the first of these reasons, at its price |
| DonchianExits.SignalsAreTakenExactly | scripts/run_donchian_backtest.py:836-847 | a walk that is flat after a bar has exactly the entry pending that the bar fires, if there is a bar left to fill on |
| DonchianLedger.ResultsFollowBars | scripts/run_donchian_backtest.py:610-662 | every record's result, target and stop are those its bars, its stop in force and the balance then held give it, counter-signal closes included |
| DonchianLedger.ManagedExitRule | scripts/run_donchian_backtest.py:610-626 | every managed exit earns its move on the units of one percent of the balance per distance from entry to the stop in force, less slippage and commission; on one unit when that stop is the entry price; a stop-out is worth one percent before costs exactly when it is not |
| DonchianTerms.TradesKeepTerms | scripts/run_donchian_backtest.py:534-544 | every trade of every run: fill one spread and slippage beyond the open, target and stop at their distance in pips or ATR; a counter-signal close is worth its way less one slippage on one percent of the balance per distance to the entry stop, less both commissions |
| DonchianTerms.StopTerms | scripts/run_donchian_backtest.py:556-583 | break-even at its percentage of the way to the target, base stop and target at the entry distances, trail candidate its ATR behind the close |
| DonchianTerms.PeakAndDrawdownAreExact | scripts/run_donchian_backtest.py:637-639 | the peak is the greatest balance so far and the drawdown the largest relative fall below the peak before it |
| DonchianLedger.StopAtEntryIsBreakeven | scripts/run_donchian_backtest.py:560-583 | without trailing the stop in force is the entry price exactly after break-even, or when the entry stop was there already |
| DonchianCases.BreakevenStopIsOneUnit | scripts/run_donchian_backtest.py:619-626 | a run from raw bars whose break-even stop-out books slippage on one unit and commission |
| DonchianCausality.ReadingsDecideTrades | scripts/run_donchian_backtest.py:410-871 | bars and readings that agree on k bars close the same trades before bar k; the DI columns count only with the DI filter |
| DonchianFrames.ColumnsAreDmiSeries | scripts/run_donchian_backtest.py:293-374 | the DI and ADX columns read as of a bar are those of the one-pass series, each entry from the bars up to it but for the length of the frame |
| DonchianFrames.BuildPairCache | scripts/run_donchian_backtest.py:377-403 | the loops over bars and frames, with the lookups of the run, give every bar its readings |
| DonchianPipeline.RunPair | scripts/run_donchian_backtest.py:377-871 | cache and run together, from raw bars |
| DonchianPipeline.SettledAtHourEnds | scripts/run_donchian_backtest.py:680-681 | agreement on k bars settles what the first k read of half-hours and hours exactly when bar k opens a new hour |
| DonchianPipeline.PipelineReadsToHourEnd | scripts/run_donchian_backtest.py:410-871 | loads that agree until the hour of bar k−1 is over close the same trades before bar k, from raw bars, if with the DI filter on it is settled whether the DI columns are there |
| DonchianPipeline.DiReadExactly | scripts/run_donchian_backtest.py:305-310 | a DI is read exactly on loads of at least 29 hours, from the sixteenth hour on |
| DonchianPipeline.DiSettledExactly | scripts/run_donchian_backtest.py:305-310 | loads that agree until the hour is over read the same DI exactly when both are long enough or neither is, or no DI can be there yet |
| DonchianPeeks.HourCloseIsReadEarly | scripts/run_donchian_backtest.py:680-681 | two loads with the same first 87 bars, of which one fires and closes a trade before bar 87 and the other does not |
| DonchianKnownStops.StopsAreKnownExactly | scripts/run_donchian_backtest.py:556-603 | on every bar of every closed trade the stop in force is the one known at the open exactly when the bar neither reaches break-even first, nor tightens the trail by its own close, nor drops it for want of an ATR |
| DonchianCases.OwnCloseMovesStop | scripts/run_donchian_backtest.py:578-582 | a run whose entry bar moves its own stop from 10.8996 to 10.5 |
| DonchianLoosening.StopsLoosenExactly | scripts/run_donchian_backtest.py:575-603 | of two consecutive stops of any trade of any run the second is looser exactly when trailing is on, the ATR is there on the first bar and missing on the second, and the trail was tighter than the base stop |
| DonchianLoosening.AtrMissingExactly | scripts/run_donchian_backtest.py:198-215 | the ATR list holds a usable value exactly from bar `period` on, except where the last `period` bars had no range |
| DonchianStops.StopsNeverLoosen | scripts/run_donchian_backtest.py:552-603 | within a trade the stop never loosens if trailing is off or every bar has a positive ATR |
| DonchianCases.MissingAtrLoosensStop | scripts/run_donchian_backtest.py:575-603 | a run on one hundred raw bars whose stop goes from 10.05 back to the entry stop |
| DonchianCases.NeverAlignedFires | scripts/run_donchian_backtest.py:714-717 | raw bars on which a short fires although nothing was ever aligned |
| EtrModels.ReportRoundTrip | src/etr/models.py:152-191 | reading back a stored report returns it, whatever the text conversions do |
| EtrDiff.DiffReports | src/etr/diff.py:26-144 | nothing without a previous report, otherwise the changes of the eight fields in their order |
| EtrDiff.DiffIsExact | src/etr/diff.py:42-142 | a change is in the diff exactly when its field has changed, with its own wording and severity |
| EtrDiff.EntryIsEdge | src/etr/diff.py:129-142 | a zone entry is reported exactly when the price is in the zone and was not known to be before |
| EtrDiff.OnlyPriceMoved | src/etr/diff.py:35-35 | if only the price moved, and not into the zone, the diff is empty |
| EtrWords.SameTextExactly | src/etr/diff.py:8-12 | two texts of a report count as the same exactly when they have the same words, whatever case and spaces |
| EtrWords.ScoreChangedExactly | src/etr/diff.py:110-120 | the score counts as changed exactly when both are known and it has moved by the delta or left its side of a threshold |
| EtrShadow.ShadowLog.Settle | src/etr/shadow.py:231-268 | the loop over the stored events keeps and resolves exactly the events it should, with its counts |
| EtrShadow.ShadowLog.Process | src/etr/shadow.py:211-302 | one poll in place is one pure step, with the counts of its summary |
| EtrShadowRuns.RunKeepsInv | src/etr/shadow.py:211-302 | over any interleaving of assets: one open event per asset; opened = resolved + open; each event opened on a zone entry at its price, has exact high and low water, and closed at the first poll of its asset that gives a reason |
| EtrShadowRuns.OpeningNeverOverwrites | src/etr/shadow.py:73-74 | a new event has a key no open event has |
| EtrShadowRuns.ExcursionsAreNonNegative | src/etr/shadow.py:142-159 | low water ≤ entry ≤ high water, so MFE, MAE ≥ 0 |
| EtrShadowRuns.ExcursionsReachTheLevel | src/etr/shadow.py:162-190 | a target hit has MFE at least the distance to the target, an invalidation MAE at least the distance to it |
| EtrShadowRuns.PricedPollClearsHorizon | src/etr/shadow.py:200-206 | after a priced poll no open event of the asset is at or past the horizon |
| EtrReasons.EventsCarryTheirPoll | src/etr/shadow.py:109-139 | over any run an open event carries price, time, direction, zone and levels of the poll that opened it and has counted the polls of its asset since |
| EtrReasons.ReasonsExactly | src/etr/shadow.py:162-208 | a poll closes an event for the first of: price at or beyond the target, at or behind the invalidation, a bias that names the other direction, the horizon; nothing without a price |
| EtrReasons.FlipsAreTurns | src/etr/shadow.py:193-199 | over any run an event closed by a turned bias was closed on the first priced poll of its asset whose bias names the other direction, short of its target and clear of its invalidation |
| EtrReasons.BiasOfEachDirection | src/etr/shadow.py:193-199 | one run of each direction with each bias: a rising event is closed by a falling bias, a falling one by a rising bias, neither by its own |
| EtrReasons.ExcursionsAreExtremes | src/etr/shadow.py:142-159 | over any run MFE and MAE of a closed event are the furthest the price went with and against it on its priced polls |
| EtrService.Service.PollAsset | src/etr/service.py:118-232 | one asset in place is one transition: seed, diff, store, shadow; withheld and failed fetches change nothing; a raising notifier leaves the snapshot stored and the shadow log unvisited |
| EtrService.Service.PollAndNotify | src/etr/service.py:105-244 | an unknown asset stops the run with nothing changed; otherwise the loop is the fold of the transition |
| EtrServiceRuns.SnapshotIsLastFetched | src/etr/service.py:124-166 | the stored snapshot is that of the last fetched poll of the asset |
| EtrServiceRuns.EdgeIsTransition | src/etr/service.py:148-156 | a zone entry is reported exactly when the price is in the zone now and was not at the asset's last fetched poll |
| EtrServiceRuns.EdgesAreSeparated | src/etr/diff.py:129-142 | between two zone entries of one asset lies a fetched poll of it that was not in the zone |
| EtrServiceRuns.FirstPollIsSilent | src/etr/service.py:128-146 | the first poll of an asset reports nothing |
| EtrEdges.RearmedExactly | src/etr/diff.py:129-142 | a reported entry follows no known exit exactly when the asset's last fetched poll could not tell whether the price was in the zone |
| EtrEdges.ReportedAgainExactly | src/etr/diff.py:129-142 | of two polls in the zone without a third between them the second is reported exactly when some poll of the asset was fetched between them |
| EtrEdges.MissingPriceRearms | src/etr/models.py:119-128 | three polls, in the zone, without a price and in the zone, of which the third is reported |
| EtrEdges.OpensExactly | src/etr/shadow.py:271-290 | a poll opens an event exactly when it is a zone entry whose notification did not raise, its scenario names a direction, and no event of the asset outlives it |
| EtrEdges.OpeningsAreCounted | src/etr/shadow.py:271-290 | over any history the openings are exactly those polls |
| EtrEdges.LostEntry | src/etr/service.py:160-204 | an entry whose notification raises leaves the shadow log alone and is not reported again while the price stays in the zone |
| EtrServiceRuns.OpensAreEdges | src/etr/shadow.py:271-290 | shadow openings never exceed zone entries |
| EtrServiceRuns.ServiceKeepsShadowSound | src/etr/service.py:118-204 | whatever the service does, one open event per asset, and opened = resolved + open ≤ zone entries |

## Left out

- Binary floating point: prices, cash and percentages are `real`, so nothing is said about rounding.
- SMC and Fib conversion rates: given per bar as positive numbers, so the ValueError for a missing rate, the fill of leading gaps and the choice of conversion pair are not modelled.
- Walk-level statements about the Fib and Donchian backtests take their indicator lists as given; the pipelines and the runs shown compute them from raw bars.
- Donchian filters and position loop are two passes, where the source interleaves them; the half-hour and hour frames are resampled from the quarter-hours, where the source resamples all three from minutes (`HtfNesting.ResamplingNests` says this is the same). The average of the ATR list, which no decision reads, is not modelled.
- Donchian summary figures such as profit factor and average win, and the RSI values kept with a trade.
- Integer parameters: swing length, left and right bars, ADX period and lookbacks are at least 1 (the deque passes also reject the others as the source does); the holding window is a natural number.
- Sizing parameters: the risk fraction, the initial balance and the ATR multipliers are positive, so the branch for a risk cash of zero is not modelled.
- Resampling: buckets are aligned by whole division of the timestamp; frames with missing prices are not modelled.
- Unknown side strings in the cost book's fills: the walks pass only the two sides; the shared tie-break models the ValueError.
- KeyError for a pair without a cutoff time: every pair is required to have one.
- Verdict thresholds, search perturbation, selection score, report writers and command lines.
- Result labels: pair, configuration and account names, and event ids.
- ETR fetching, parsing, fingerprints, notification texts, the poll interval and audit files.
- ETR report fields that neither the diff nor the shadow log reads, and the alternative scenario.
- ETR number formatting and parsing, and timestamp parsing: parameters of the model, or integers in one unit.
- ETR shadow files: their loss or corruption between polls, and a run that stops between the shadow log and saving the state, are not modelled.
- Library sorting and searching: stable sort and binary search are specification functions.
