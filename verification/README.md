# Verified model of the trading harness's kernel, command bus, safety gates and ledgers

A Dafny model of the parts of the trading research and paper-trading harness whose logic
decides money, safety or delivery, with proofs of what they promise over every input and
every run:

- the mean-reversion backtest kernel in both its forms, its indicator series, its parameter
  grid and its drawdown (`Kernel`, `KernelProofs`, `KernelAttribution`, `KernelTerms`,
  `Indicators`, `Sweep`, `Metrics`);
- the two-bus command queue, its claim protocol under interleaving and faults, and its merged
  fetch (`CommandQueue`, `CommandProtocol`, `CommandFetch`);
- the safety state machines: degradation with restarts, the cold-start gate with its pausable
  clock, the runbook supervisor with the live-consumption latch (`Degradation`,
  `ColdStartGate`, `BarFreshness`, `ControlPlane`);
- the ring-buffer window, the simulated broker, the outbound alert cap, the alert throttle and
  the unitized leg return (`RollingWindow`, `SimulatedBroker`, `OutboundCap`, `Throttle`,
  `LegReturn`).

How it is laid out. Code that loops or updates objects in the original is a method or a class
here, proved equal to a specification function of its inputs or its old state; the lemmas
then prove what the design promises about that function, over whole runs. Pure code is
functions and lemmas. A whole-run function takes a list of operations, first one first.

Conventions.

- Prices, cash and returns are reals. Truncation to whole shares is explicit. The square root
  and the annualization constant are parameters, so every result holds for any of them.
- Clocks are parameters. Timestamps that the original compares as ISO-8601 strings in UTC are
  integers.
- What the network, workers, validators, hooks and callbacks do is a parameter of the step
  that waits for it. A database statement is one atomic step on a map or a list.
- Where documentation and code differ the code is followed: `evaluate_verification` does not
  re-protect a verified leg on a stale feed when the matrices align, the remote terminal
  update carries no status guard, and a restore callback that raises inside the failure
  handler escapes the runbook without blocking consumption.
- Both simulators run through the same open, carry, margin and statistics steps here, because
  the two copies in the original agree there line by line. That sharing is a choice of the
  model: `KernelProofs.Lockstep` compares what differs, the signal scans, the warm-up and the
  entry counts.

Properties that do not hold everywhere are stated with the exact condition, and with an input
outside it where that is not plain from the condition:

- drawdown in one pass: `Metrics.OnePassIsLargestDrop` for a curve, `Metrics.PeakIsWorstExactly`
  for a point, `KernelProofs.ReportedDrawdownIsLargestDrop` for a run;
  `Metrics.NegativeCurveIsUnderstated` fails it;
- exactly-once claims: `CommandProtocol.StepLeaksExactly` for a step,
  `CommandProtocol.ExclusiveExactly` for a run, `CommandQueue.SecondClaimExactly` for an
  uninterrupted claim; `CommandProtocol.LostReadClaimsTwice` and
  `CommandProtocol.LateInsertClaimsTwice` leak;
- blocked iff failed: `ControlPlane.BlockedIffFailedExactly` for one runbook,
  `ControlPlane.GateTellsTheTruth` for a lifecycle; `ControlPlane.EscapedRunStaysOpen` and
  `ControlPlane.GoodBootKeepsTheLatch` fail it;
- `LegReturn.TimeWeightedExactlyWhenSolvent`, `ColdStartGate.ClockShowsUnpausedTime` and
  `ColdStartGate.VerifyMayKeepStale`.

## Model

| member | source | states |
|---|---|---|
| Kernel.FillPending | src/backtest/vectorized_mr.py:382-443 | the open fills, drops or closes what was pending, and says which side it entered |
| Kernel.CloseLong | src/backtest/vectorized_mr.py:419-429 | selling a long books the pnl as win or loss and flattens the position |
| Kernel.PayCarry | src/backtest/vectorized_mr.py:445-459 | a short pays the overnight fee at a session start and the ex-date dividend, and the holding period is counted |
| Kernel.MarginCall | src/backtest/vectorized_mr.py:461-482 | a short whose marked equity is below the maintenance rate on its value, and only such a one, is covered at the close with penal slippage |
| Kernel.Scan | src/backtest/vectorized_mr.py:484-494 | time stop first, then entry and exit bands of the shared z-score |
| Kernel.ScanDecoupled | src/backtest/vectorized_mr.py:699-715 | time stop first, then entries per series and exits on the open leg's own series |
| Kernel.Track | src/backtest/vectorized_mr.py:496-507 | one more equity mark updates peak, drawdown and return sums |
| Kernel.SimulateSlice | src/backtest/vectorized_mr.py:330-532 | the loop reports exactly what the bar-by-bar specification reports, for every slice |
| Kernel.SimulateSliceDecoupled | src/backtest/vectorized_mr.py:536-750 | the same for separate horizons, with the entry counts of each side |
| KernelProofs.LongSizeIsLargestAllowed | src/backtest/vectorized_mr.py:244-261 | a long is the largest whole size that risk, cash and concentration each pay for, and nothing when an input is not positive |
| KernelProofs.ShortSizeIsLargestAllowed | src/backtest/vectorized_mr.py:265-283 | a short is the largest whole size that risk, concentration and margin pay for after scaling, for every multiplier, zero and negative ones included |
| KernelProofs.AffordableShares | src/backtest/vectorized_mr.py:252-261 | a sized long never costs more than the cash |
| KernelProofs.FillKeepsLedger | src/backtest/vectorized_mr.py:382-443 | no fill, of any kind, creates or destroys money |
| KernelProofs.MarginCallKeepsLedger | src/backtest/vectorized_mr.py:463-482 | nor does a liquidation |
| KernelProofs.BarPaysOnlyCarry | src/backtest/vectorized_mr.py:378-494 | across a whole bar the ledger loses exactly the carry due on it |
| KernelProofs.LedgerBalances | src/backtest/vectorized_mr.py:378-494 | at every bar cash and entry value equal opening equity plus realised result less carry paid, on every branch |
| KernelProofs.EquityDecomposes | src/backtest/vectorized_mr.py:461-509 | marked equity is opening equity plus realised and unrealised result less carry |
| KernelProofs.EveryBarIsSound | src/backtest/vectorized_mr.py:455-494 | longs leave cash nonnegative, a short's cash less its value covers the maintenance rate on that value at each close, no position outlives the time stop |
| KernelProofs.FillsPairUp | src/backtest/vectorized_mr.py:378-443 | fills are twice the entries, less one while a position is open |
| KernelProofs.BooksAgree | src/backtest/vectorized_mr.py:590-724 | given one series twice, the decoupled run has the coupled run's book and statistics at every bar |
| KernelProofs.Lockstep | src/backtest/vectorized_mr.py:536-750 | on equal horizons both simulators report the same, and the entry counts account for every fill |
| KernelProofs.KernelDrawdown | src/backtest/vectorized_mr.py:496-501 | the kernel's running drawdown is the one-pass drawdown of its equity curve |
| KernelProofs.ReportedDrawdownIsLargestDrop | src/backtest/vectorized_mr.py:496-532 | the reported drawdown is the largest fall between any two points of the equity curve iff no fall below zero from the least positive equity is larger; the larger of the two always is |
| KernelProofs.NoLookAhead | src/backtest/vectorized_mr.py:378-507 | runs whose inputs agree so far have the same book and statistics so far |
| KernelProofs.FillUsesOnlyThePast | src/backtest/vectorized_mr.py:382-443 | a fill depends on that bar's open and on earlier bars only |
| KernelAttribution.FillLosesSlippage | src/backtest/vectorized_mr.py:382-443 | marked at the raw open, any fill loses exactly its slippage |
| KernelAttribution.MarginCallLosesSlippage | src/backtest/vectorized_mr.py:306-326 | a liquidation loses exactly its penal slippage at the close |
| KernelAttribution.BarIsAttributed | src/backtest/vectorized_mr.py:378-482 | a bar changes equity by the price moves of the position held, less slippage, carry and liquidation penalty, and by nothing else |
| KernelAttribution.EquityIsAttributed | src/backtest/vectorized_mr.py:378-509 | over any run equity is opening equity plus price moves less costs |
| KernelAttribution.FrictionsNeverHelp | src/backtest/vectorized_mr.py:292-326 | with nonnegative prices and rates no cost ever works in the book's favour |
| KernelAttribution.TradesHaveCauses | src/backtest/vectorized_mr.py:382-494 | the open enters or exits exactly when the z-score, regime or time stop at the close before asked for it and a share can be sized |
| KernelAttribution.NoReentryAfterLiquidation | src/backtest/vectorized_mr.py:463-484 | after a liquidation the next open does not enter |
| KernelTerms.LiquidationExactly | src/backtest/vectorized_mr.py:461-482 | a short is flat after the close iff its cash less its value was below the maintenance rate on that value, and it pays the close plus penal slippage |
| KernelTerms.HoldingPeriodIsCounted | src/backtest/vectorized_mr.py:455-459 | the bar counter is the number of closes in a row the position has been open |
| KernelTerms.LongEntryInTerms | src/backtest/vectorized_mr.py:244-261 | n shares are bought iff the flat close before had its means and scored below the band in an open regime, and n shares at the slipped open fit risk, cash and concentration |
| KernelTerms.ShortEntryInTerms | src/backtest/vectorized_mr.py:265-283 | the same for shorts, without a long signal beside them |
| KernelTerms.ExitInTerms | src/backtest/vectorized_mr.py:484-494 | a position is closed whole at the next open iff it was held for the time stop or its own score lies inside the exit band |
| KernelTerms.FillsInTerms | src/backtest/vectorized_mr.py:382-443 | whatever an open trades costs its shares at the open and their slippage |
| KernelTerms.CarryInTerms | src/backtest/vectorized_mr.py:445-454 | a short pays a 252nd of the annual fee on its value at a session start and each dividend, nobody else pays |
| KernelTerms.BorrowFeeInTerms | src/backtest/vectorized_mr.py:291-302 | the fee is a 252nd of the annual rate on a short's value, nothing otherwise |
| KernelTerms.FlatHasNoEntryValue | src/backtest/vectorized_mr.py:305-443 | a flat book carries no entry value |
| KernelTerms.ResultsAreBookedOnce | src/backtest/vectorized_mr.py:305-429 | a bar adds to the wins or to the losses, never to both, and takes from neither |
| KernelTerms.EntriesInTerms | src/backtest/vectorized_mr.py:600-640 | a side's entries are the opens that found the book flat and left it on that side |
| KernelTerms.ReportInTerms | src/backtest/vectorized_mr.py:509-532 | return times opening equity is price moves less costs, profit factor times losses the wins; a run too short for its means reports nothing |
| Metrics.MaxDrawdown | src/backtest/metrics.py:8-17 | the loop computes the one-pass drawdown |
| Metrics.DropIsFraction | src/backtest/metrics.py:15 | a drop times its peak is the fall in money, and nothing is a drop from a nonpositive peak |
| Metrics.OnePassIsLargestDrop | src/backtest/metrics.py:8-17 | the one-pass value is the largest pairwise fall iff no fall below zero, taken from the least positive point before it, is larger; so always on curves that never go negative |
| Metrics.TwoPassesAreLargestDrop | src/backtest/metrics.py:8-17 | on every curve the larger of the one-pass value and the falls below zero is the largest fall |
| Metrics.PeakIsWorstExactly | src/backtest/metrics.py:13-16 | measuring a point from the running peak misses no larger fall to it iff the point is not negative or every positive point so far is that peak |
| Metrics.NegativeCurveIsUnderstated | src/backtest/metrics.py:8-17 | a curve outside that condition: 1, 2, -2 falls by 3, the one-pass value is 2 |
| Indicators.PrecomputeSmaStd | src/backtest/vectorized_mr.py:180-204 | the sliding sums give the mean and the root of the population variance of each window |
| Indicators.WindowStatistics | src/backtest/vectorized_mr.py:197-203 | mean and clamped variance of a full window are the direct ones |
| Indicators.Slide | src/backtest/vectorized_mr.py:190-196 | taking one close in and one out moves both sums one window on |
| Indicators.SlidingVariance | src/backtest/vectorized_mr.py:197-203 | the mean-of-squares variance is the mean squared deviation, never negative, so the clamp never fires |
| Indicators.ReturnsAreSummed | src/backtest/vectorized_mr.py:502-507 | the running sums are the sums of the bar returns and of their squares |
| Indicators.SharpeIsMeanOverDeviation | src/backtest/vectorized_mr.py:515-523 | the reported ratio times the root of the population variance of the bar returns is their mean annualized; zero without two returns or any deviation |
| Indicators.PrecomputeZScores | src/backtest/vectorized_mr.py:208-214 | each score is the deviation from the window mean in standard deviations, zero when there is none |
| Indicators.ScoreInTerms | src/backtest/vectorized_mr.py:180-214 | mean times window length is the total of the window's closes, score times deviation how far the last close lies above the mean |
| Indicators.PrecomputeAtr | src/backtest/vectorized_mr.py:218-240 | each value is the mean true range of its window |
| Indicators.TrueRangeIsLargest | src/backtest/vectorized_mr.py:222-234 | the true range is the largest distance among high, low and the close before |
| Indicators.SeriesStartAtZero | src/backtest/vectorized_mr.py:180-240 | every series is zero before its window is full; a full window's average true range times its length is the sum of its true ranges |
| Indicators.PreparedAgree | src/backtest/vectorized_mr.py:180-240 | price histories agreeing so far give indicator series agreeing so far, on a shared horizon or separate ones |
| Indicators.PipelineHasNoLookAhead | src/backtest/vectorized_mr.py:180-443 | from raw prices to fills, nothing depends on data not yet seen, in both simulators |
| Sweep.DecodeOfEncode | src/backtest/vectorized_mr.py:885-898 | every grid point has an index inside the grid that decodes back to it |
| Sweep.EncodeOfDecode | src/backtest/vectorized_mr.py:885-898 | every index below the grid size is the index of the point it decodes to |
| Sweep.CellInTerms | src/backtest/vectorized_mr.py:754-834 | index and contents of a cell spelled out digit by digit |
| Sweep.SweepInnerGrid | src/backtest/vectorized_mr.py:754-834 | after the sweep each grid point's cell holds that point's simulation |
| CommandQueue.ReachableClaim | src/control/command_queue.py:283-346 | with the remote bus reachable a claim wins iff the command is claimable, ends that, and touches no other |
| CommandQueue.ClaimMovesOwnRows | src/control/command_queue.py:266-346 | whatever the network does, a claim moves its own command's rows only, from pending to processing, and wins with such a move |
| CommandQueue.SecondClaimExactly | src/control/command_queue.py:310-346 | a command the remote bus already gave out or finished is claimed again iff the remote read does not answer and a pending local copy is left |
| CommandQueue.CommandBus.EnqueueLocal | src/control/command_queue.py:152-213 | stages a pending row; refuses a TTL on an emergency command, a duplicate id and a duplicate idempotency key; keys stay unique |
| CommandQueue.CommandBus.Enqueue | src/control/command_queue.py:108-149 | remote first; a duplicate is answered with the row that holds the key; any other failure stages locally under the same id; keys stay unique |
| CommandQueue.CommandBus.FetchByKey | src/control/command_queue.py:374-399 | finds the row holding the key, remote first, local when the remote read fails or knows none, and nothing iff no reachable bus holds it |
| CommandQueue.CommandBus.TransitionLocalPendingToProcessing | src/control/command_queue.py:266-280 | moves only a pending local row |
| CommandQueue.CommandBus.TryClaim | src/control/command_queue.py:283-346 | both tables and the verdict, for every outcome of the two remote calls |
| CommandQueue.CommandBus.MarkTerminal | src/control/command_queue.py:428-473 | writes both buses, never over a terminal local row, and reports whether anything holds it |
| CommandQueue.CommandBus.ReclaimOrphans | src/control/command_queue.py:528-610 | an orphan with an attempt to spare is pending again and has spent it, one without fails, no other row moves; the pending rows rise by the number returned |
| CommandQueue.CommandBus.RetireExpired | src/control/command_queue.py:613-633 | every live row past its TTL fails and no other row moves; none is left overdue; the live commands fall by exactly the number returned |
| CommandQueue.CommandBus.RetireStaleOrphans | src/control/command_queue.py:636-676 | exactly the old processing rows of the chosen type fail |
| CommandProtocol.InsertsAddOneRow | src/control/command_queue.py:108-213 | an insert adds one unclaimed pending row to its own table, only a local one with a TTL, and nothing else changes |
| CommandProtocol.StepKeepsBudget | src/control/command_queue.py:266-676 | every atomic step, faults included, keeps claims within the attempts spent |
| CommandProtocol.BoundedRefire | src/control/command_queue.py:528-610 | in every interleaving the local bus gives a command out at most four times and the remote at most once |
| CommandProtocol.BoundIsReached | src/control/command_queue.py:528-610 | the bound is tight: three recoveries give a command out three more times, and the fourth fails it |
| CommandProtocol.StepLeaksExactly | src/control/command_queue.py:283-346 | a step keeps a remote command free of local claims iff it neither swaps a pending local copy of it nor inserts it remotely after a local claim |
| CommandProtocol.ExclusiveExactly | src/control/command_queue.py:283-346 | over any run a remote command was never claimed locally iff no step leaked it |
| CommandProtocol.ExactlyOnce | src/control/command_queue.py:283-346 | over every interleaving, crash and network fault, a command the remote bus holds is claimed at most once in all unless a step leaked it |
| CommandProtocol.CarefulRunsDoNotLeak | src/control/command_queue.py:310-328 | when every remote read answers and remote inserts use fresh ids, no step leaks |
| CommandProtocol.LostReadClaimsTwice | src/control/command_queue.py:316-328 | a leaking run: the remote read fails and the command is claimed on both buses |
| CommandProtocol.LateInsertClaimsTwice | src/control/command_queue.py:128-149 | another: every call answers, but the remote insert lands after the local copy was claimed |
| CommandProtocol.ClaimIsARun | src/control/command_queue.py:283-346 | an uninterrupted claim is a run of the interleaved protocol with the same outcome |
| CommandProtocol.MarkIsARun | src/control/command_queue.py:428-473 | marking a command terminal is a run of the interleaved protocol with the same outcome |
| CommandProtocol.PassIsARun | src/control/command_queue.py:528-676 | recovery and both retirements are runs of one step a row, and leave the table the bus methods leave |
| CommandProtocol.CrashLosesThePlace | src/control/command_queue.py:283-346 | a crashed poller forgets its claim and changes nothing |
| CommandProtocol.LadderDescends | src/control/command_queue.py:528-676 | every status change moves strictly down (attempts left, status); terminal rows never move |
| CommandProtocol.NoLivelock | src/control/command_queue.py:528-676 | over any run a command's local status changes at most eleven times |
| CommandProtocol.EmergencyNeverExpires | src/control/command_queue.py:152-172 | in no reachable state does a TTL retire a protective command |
| CommandFetch.MergeIsOldestOfUnion | src/control/command_queue.py:216-263 | merging, sorting and cutting the two selects is one ordered, limited select over the union |
| CommandFetch.FewOlderIsFetched | src/control/command_queue.py:261-263 | a pending command with fewer than the limit as old or older is in the batch |
| CommandFetch.ReachablePoll | src/control/command_queue.py:349-371 | with the claims answered, exactly the claimable emergency commands of the batch are claimed, the rest stay as claimable as they were, and one with fewer than the limit ahead of it is never missed |
| CommandFetch.FetchPending | src/control/command_queue.py:216-263 | the batch is the oldest pending commands of both buses, no id twice; of the local bus alone when the remote select fails |
| CommandFetch.FetchAndClaimEmergency | src/control/command_queue.py:349-371 | whatever the network does, each emergency command of the batch is claimed or not, and its rows moved, as if alone on the buses as they were; nothing else moves |
| Degradation.DegradationManager.HydrateFromVault | src/engine/degradation_manager.py:71-88 | mode, latch and entry time survive a restart, the streak does not |
| Degradation.DegradationManager.ApplySoftDegrade | src/engine/degradation_manager.py:145-159 | never weakens Hard; only a fresh entry resets the streak |
| Degradation.DegradationManager.ApplyReconDegradedManage | src/engine/degradation_manager.py:161-170 | never weakens Hard |
| Degradation.DegradationManager.ApplyHardCriticalDegrade | src/engine/degradation_manager.py:172-186 | latches a flatten; stamps and announces only the entry |
| Degradation.DegradationManager.ResetToNormal | src/engine/degradation_manager.py:259-271 | back to a fresh state, announced if it was degraded |
| Degradation.DegradationManager.EvaluateFromSlo | src/engine/degradation_manager.py:93-143 | the new state for every mode and verdict, with one notice per entry and per recovery step |
| Degradation.DegradationManager.ConsumeFlattenRequest | src/engine/degradation_manager.py:282-287 | hands the latched request out once |
| Degradation.Reboot | src/engine/degradation_manager.py:71-88 | a new process on the same vault is the restarted state |
| Degradation.EvaluationTicks | src/engine/degradation_manager.py:93-143 | one evaluation is one tick of a nine-step countdown, in every mode |
| Degradation.Perform | src/engine/degradation_manager.py:93-287 | every call moves the manager as the histories say |
| Degradation.ManagerIsCountdown | src/engine/degradation_manager.py:93-143 | over any verdicts the mode is the countdown's mode |
| Degradation.NineHealthyVerdictsToNormal | src/engine/degradation_manager.py:22-31 | over verdicts alone, Hard holds exactly until the sixth healthy one after a breach and normal needs the ninth |
| Degradation.HistoryIsCountdown | src/engine/degradation_manager.py:71-287 | in every history, restarts and manual operations included, the mode is that of a countdown without streaks, latches or a vault |
| Degradation.NineHealthyVerdictsInEveryHistory | src/engine/degradation_manager.py:71-186 | in every history without a manual reset, leaving Hard takes six healthy verdicts and normal nine, counted from any application of Hard or restart that finds it |
| Degradation.FlattensArePaidFor | src/engine/degradation_manager.py:172-186 | in every history a latched flatten means Hard and consumed flattens never outnumber applications |
| Degradation.LatchedExactly | src/engine/degradation_manager.py:172-186 | in every history a flatten is requested iff Hard was applied since the last consume and the mode never left Hard in between |
| Degradation.ConsumeHandsOutExactly | src/engine/degradation_manager.py:282-287 | a consume hands out one flatten iff such a request stands, and ends it |
| Degradation.SinceIsEntryTime | src/engine/degradation_manager.py:145-186 | the stamp is when the current mode was entered, in every history |
| Degradation.StreakOnlyWhileRecovering | src/engine/degradation_manager.py:93-143 | outside Hard and Soft no healthy verdicts are counted |
| Degradation.RestartOnlyRaises | src/engine/degradation_manager.py:83-86 | a restart keeps the persisted row and only raises the countdown |
| Degradation.HardKeepsItsEntryTime | src/engine/degradation_manager.py:176-180 | while Hard lasts its entry time is that of the first application |
| BarFreshness.StaleExactlyWhenNextBarIsOverdue | src/engine/bar_freshness.py:23-53 | a feed is judged stale iff the next bar is overdue |
| BarFreshness.PunctualFeedIsNeverStale | src/engine/bar_freshness.py:36-53 | a feed whose bars arrive within the latency is never judged stale |
| ColdStartGate.ColdStartGateEngine.BeginColdStart | src/engine/cold_start_gate.py:174-202 | resets the listed legs and the start time, keeps the pause accumulators |
| ColdStartGate.ColdStartGateEngine.Pause | src/engine/cold_start_gate.py:224-227 | idempotent pause |
| ColdStartGate.ColdStartGateEngine.Resume | src/engine/cold_start_gate.py:229-234 | banks the paused span |
| ColdStartGate.ColdStartGateEngine.ElapsedSeconds | src/engine/cold_start_gate.py:216-222 | the clock reading |
| ColdStartGate.ColdStartGateEngine.EvaluateTimeBound | src/engine/cold_start_gate.py:418-545 | the transition, its record, and no other leg moved |
| ColdStartGate.ColdStartGateEngine.EvaluateVerification | src/engine/cold_start_gate.py:315-380 | immediate verification, early exits, or the time-bound rule; newly verified only when aligned, not divergent and in time by the wall clock, and always on full evidence; returns the last transition on record unless it exits early |
| ColdStartGate.ColdStartGateEngine.TickTimeBound | src/engine/cold_start_gate.py:382-416 | readiness drives the clock first and a failed one moves nothing; a verified leg stays so iff its bar is in time by the wall clock; newly verified only when aligned and in time |
| ColdStartGate.ColdStartGateEngine.BlocksEntrySignals | src/engine/cold_start_gate.py:269-285 | blocks unless verified, or unverified but favouring availability past the wait |
| ColdStartGate.ColdStartGateEngine.EntryScale | src/engine/cold_start_gate.py:287-304 | the scale for each state and policy |
| ColdStartGate.HealthInTerms | src/engine/cold_start_gate.py:124-151 | a feed is fresh iff wall time is at most two periods and the latency after the latest bar opened, intact iff its last two bars are in order and not both empty |
| ColdStartGate.TickPastTheWait | src/engine/cold_start_gate.py:418-545 | past the wait, which legs a ready tick takes to each state |
| ColdStartGate.SignalKeepsAgreement | src/engine/cold_start_gate.py:216-241 | begin, pause and resume keep the clock in step with an independent ledger of time |
| ColdStartGate.ClockShowsUnpausedTime | src/engine/cold_start_gate.py:216-241 | the clock is unpaused time since begin less pauses before it: never early, exact iff nothing was carried or nothing elapsed |
| ColdStartGate.Perform | src/engine/cold_start_gate.py:174-545 | every call on the engine, for any leg, moves the story of whichever leg is followed as the run theorems say |
| ColdStartGate.EveryStoryWaits | src/engine/cold_start_gate.py:174-545 | in every run, begins of other legs included, time-bound states imply the wait was spent unpaused since the leg's own begin, and a leg kept fail-safe never trades unverified |
| ColdStartGate.OwnTimeIsLedgerTime | src/engine/cold_start_gate.py:174-222 | while only begins that list the leg come along, its own unpaused time is the clock ledger's |
| ColdStartGate.VerifiedSticks | src/engine/cold_start_gate.py:451-483 | once verified a leg only alternates with re-verification until the next begin |
| ColdStartGate.VerifiedWasSeenFresh | src/engine/cold_start_gate.py:327-483 | in every run a verified leg was fresh at its last ready tick or full verification pass |
| ColdStartGate.HeuristicIsTransient | src/engine/cold_start_gate.py:488-545 | in every run, once heuristic trading is entered the next ready tick verifies or overrides the leg, unless a begin restarted the clock or the policy turned fail-safe |
| ColdStartGate.OverrideIsSticky | src/engine/cold_start_gate.py:433-435 | an override ends only by full verification or a new begin |
| ColdStartGate.VerifyMayKeepStale | src/engine/cold_start_gate.py:327-366 | over any number of passes on a stale feed a leg ends verified iff it was verified and every pass stopped early |
| ColdStartGate.ExposureNeedsProof | src/engine/cold_start_gate.py:269-304 | in every run an unverified leg has exposure only past its unpaused wait and under high availability; a leg kept fail-safe has full exposure iff verified; both entry queries agree |
| ControlPlane.ControlPlaneSupervisor.Transition | src/engine/control_plane.py:166-179 | moves iff the table or the identity allows it |
| ControlPlane.AllowedIsMoves | src/engine/control_plane.py:453-465 | the legal moves are exactly these thirteen |
| ControlPlane.ControlPlaneSupervisor.Start | src/engine/control_plane.py:181-189 | from inactive, starting or failed: running, or failed and blocked when pre-flight latches; a good start leaves the latch as it was |
| ControlPlane.ControlPlaneSupervisor.Stop | src/engine/control_plane.py:191-193 | a running or degraded supervisor stops; any other stays as it is |
| ControlPlane.ControlPlaneSupervisor.EscalateLiquidationRaceFailure | src/engine/control_plane.py:195-216 | blocks consumption and degrades a running supervisor |
| ControlPlane.ControlPlaneSupervisor.Attempt | src/engine/control_plane.py:241-275 | raised, accepted or rejected; re-run once iff a pre-open or weekend-tuner payload was rejected and restored |
| ControlPlane.ControlPlaneSupervisor.ExecuteRunbook | src/engine/control_plane.py:218-394 | a finished run is blocked iff it failed and running iff it succeeded, at most two worker runs, release only on the payload accepted last, and when nothing catches the failure |
| ControlPlane.Consumption.LiveConsumptionGate | src/control/maintenance_scheduler.py:218-247 | open iff not latched and neither critical job's last result failed |
| ControlPlane.FailureInTerms | src/engine/control_plane.py:241-331 | what makes a run raise and what escapes it: a handler's restore that raises, the second one if a rejected payload used up the first |
| ControlPlane.BlockedIffFailedExactly | src/engine/control_plane.py:218-347 | one runbook leaves consumption blocked iff it did not succeed, exactly when it does not escape or consumption was blocked before |
| ControlPlane.EscapedRunStaysOpen | src/engine/control_plane.py:323-331 | a run that escapes: it fails and leaves consumption open |
| ControlPlane.GateTellsTheTruth | src/control/maintenance_scheduler.py:218-247 | over any lifecycle the gate is open iff the last settling event opened the latch and the last critical runs passed; a runnable plant is blocked iff degraded or booted behind a closed latch |
| ControlPlane.GoodBootKeepsTheLatch | src/engine/control_plane.py:181-189 | a refused boot and then a good one leave the plant running but blocked |
| ControlPlane.UnrelatedSuccessDoesNotOpen | src/control/maintenance_scheduler.py:359-365 | boots, halts, races and successes of other jobs never open the gate over a failed pre-open run, though such a success clears the latch |
| RollingWindow.RingPush | src/core/rolling_window.py:185-193 | writing the head slot pushes onto the ordered contents, full or not |
| RollingWindow.RingRevise | src/core/rolling_window.py:195-205 | rewriting the last slot revises the newest entry |
| RollingWindow.RollingWindow.Append | src/core/rolling_window.py:145-160 | accepts iff later than the last bar; all five buffers follow the deque |
| RollingWindow.RollingWindow.UpsertBar | src/core/rolling_window.py:162-183 | appends, revises or ignores by timestamp |
| RollingWindow.RollingWindow.Clear | src/core/rolling_window.py:115-123 | empties the window, keeps the applied offset |
| RollingWindow.RollingWindow.ApplyCorporateActionOffset | src/core/rolling_window.py:82-109 | every held price rises by the offset, once, in buffers and deque alike; volumes and timestamps stay |
| RollingWindow.RollingWindow.SetForming | src/core/rolling_window.py:216-232 | records a forming bar outside the closed window or ignores an overtaken one |
| RollingWindow.RollingWindow.CurrentFormingBar | src/core/rolling_window.py:234-242 | the forming bar, always later than the latest closed one |
| RollingWindow.RollingWindow.ReadOrdered | src/core/rolling_window.py:252-256 | the buffer in chronological order |
| RollingWindow.RollingWindow.ClosesArray | src/core/rolling_window.py:258-260 | the closes of the deque's bars, in order |
| RollingWindow.RollingWindow.TailCloses | src/core/rolling_window.py:278-286 | for a positive period, the last min(period, count) closes |
| RollingWindow.WindowIsTailOfHistory | src/core/rolling_window.py:82-232 | after any operations the window is the last maxlen bars of a list that never forgets |
| RollingWindow.ReplayedIsSound | src/core/rolling_window.py:145-242 | timestamps strictly increase and a forming bar is later than every closed one |
| RollingWindow.FormingIsInvisible | src/core/rolling_window.py:216-232 | dropping every forming bar from a run leaves the same closed bars |
| RollingWindow.OffsetAppliesOnce | src/core/rolling_window.py:82-109 | after one offset no operation, a clear included, changes it or lets another through |
| SimulatedBroker.FillsAreCovered | src/broker/simulated.py:50-119 | a buy fits the cash and a short fits the initial margin |
| SimulatedBroker.FillsAreLargest | src/broker/simulated.py:50-154 | k shares are filled iff the order asks for them and the cash pays for them, covers half their value, or they are held |
| SimulatedBroker.OrderFillsInTerms | src/broker/simulated.py:172-187 | an order closes what is held against it and only then, and otherwise opens as much as it asks and can pay for |
| SimulatedBroker.TakenOffKeepsLot | src/broker/simulated.py:88-99 | a partial close leaves the rest of the lot at its old average |
| SimulatedBroker.AddedKeepsCost | src/broker/simulated.py:60-77 | adding a lot changes one symbol only and keeps the total cost of that side; shares on the other side are gone |
| SimulatedBroker.SimulatedBroker.OpenLong | src/broker/simulated.py:50-78 | the fill, its cost and the new positions; adds to a long, overwrites a short |
| SimulatedBroker.SimulatedBroker.CloseLong | src/broker/simulated.py:80-99 | the fill, its proceeds and the shares left |
| SimulatedBroker.SimulatedBroker.OpenShort | src/broker/simulated.py:101-133 | the margin-clipped fill, its proceeds and the new positions; adds to a short, overwrites a long |
| SimulatedBroker.SimulatedBroker.CloseShort | src/broker/simulated.py:135-154 | the fill, its cost and the shares left |
| SimulatedBroker.SimulatedBroker.Mark | src/broker/simulated.py:204-216 | equity is cash plus the net shares at the mark |
| SimulatedBroker.SimulatedBroker.FillPriceInTerms | src/broker/simulated.py:46-48 | a buy pays slippage and fee on top of the raw price, a sale receives that much less |
| SimulatedBroker.SimulatedBroker.Settle | src/broker/simulated.py:172-187 | one order leaves exactly the account its routing calls for, and moves marked worth by the rate on the shares traded and nothing else |
| SimulatedBroker.SimulatedBroker.SubmitOrders | src/broker/simulated.py:156-202 | the fills and the account are those of the orders taken in turn; equity is the prior worth less the rate on all shares traded; positions stay whole |
| SimulatedBroker.FillsExplainTheAccount | src/broker/simulated.py:156-202 | cash moves by what the fills cost, and each symbol's shares by what they bought and sold of it |
| SimulatedBroker.FillsAnswerOrders | src/broker/simulated.py:168-198 | every fill is whole, at the slipped price, on an order's symbol and side, and never more than ordered |
| SimulatedBroker.SimulatedBroker.CloseAllPositions | src/broker/simulated.py:231-242 | at a positive mark the account ends flat, worth what it was less the rate on every share held |
| OutboundCap.Cap.Allow | src/alerts/outbound_cap.py:101-132 | the decision, its reason, and what is recorded |
| OutboundCap.Cap.BackingOff | src/alerts/outbound_cap.py:109-116 | comparing the latest incident decides for all of them |
| OutboundCap.LeavesExactly | src/alerts/outbound_cap.py:101-132 | an alert leaves iff its lane's sends of the last hour, and for routine ones of the last day, are below the caps and no 429 lies in the back-off |
| OutboundCap.PriorityExactly | src/alerts/outbound_cap.py:33-51 | the priority lane is for the liveness ping and urgent, critical and high alerts in any case |
| OutboundCap.EveryWindowIsCapped | src/alerts/outbound_cap.py:101-132 | no closed hour or day ever exceeds the caps, whatever the clocks do |
| OutboundCap.DefaultCaps | src/alerts/outbound_cap.py:28-31 | the shipped limits, 8 and 4 an hour and 50 a day |
| OutboundCap.NoRoutineSendInBackoff | src/alerts/outbound_cap.py:113-116 | no routine send within the back-off of any 429 noted before it |
| OutboundCap.PriorityLaneStandsAlone | src/alerts/outbound_cap.py:117-132 | priority decisions are those of a run without routine alerts or 429s |
| Throttle.ThrottledNotifier.Notify | src/alerts/throttle.py:52-68 | sends at once when quiet, then only after the required wait |
| Throttle.ThrottledNotifier.Resolve | src/alerts/throttle.py:70-84 | one recovered message for a firing condition, none otherwise |
| Throttle.MessagesDecide | src/alerts/throttle.py:49-84 | in every run a notification alerts iff its key has not alerted since it recovered or the wait for that many alerts has passed, and a resolve reports iff it has |
| Throttle.SendsKeepTheirDistance | src/alerts/throttle.py:49-68 | between any two sends of an unresolved condition lie the waits of the schedule |
| Throttle.NthSendIsLate | src/alerts/throttle.py:49-68 | the n-th send is at least 1200 + 3600 (n - 3) seconds after the first |
| Throttle.KeysAreIndependent | src/alerts/throttle.py:44-84 | a key's messages depend on that key's calls alone |
| Throttle.RecoveriesMatchEpisodes | src/alerts/throttle.py:70-84 | episodes equal recoveries, plus one while firing |
| LegReturn.EveryStateIsConsistent | src/control/leg_return.py:31-59 | nav is always positive and units at nav are worth the capital base |
| LegReturn.ReallocationIsNeutral | src/control/leg_return.py:51-57 | moving capital never moves nav, with or without new profit |
| LegReturn.UnfundedStretchKeepsNav | src/control/leg_return.py:42-59 | units and nav survive any number of observations without capital or new profit |
| LegReturn.SeedsAtHundred | src/control/leg_return.py:44-48 | a curve without units starts at 100 |
| LegReturn.ClampReportsTotalLoss | src/control/leg_return.py:52-64 | a clamped leg reports a loss of all but a sliver |
| LegReturn.StepGrows | src/control/leg_return.py:50-55 | nav grows by the period return, and is clamped iff the loss eats the capital |
| LegReturn.NavIsTimeWeightedReturn | src/control/leg_return.py:31-64 | on solvent series nav is the compounded period returns |
| LegReturn.TimeWeightedExactlyWhenSolvent | src/control/leg_return.py:50-55 | every prefix is on its compounded return iff no step loses the whole capital base |

## Left out

- The database, network, HTTP, mail and broker clients, retries, JSON and logging: stores are maps and lists, calls are parameters.
- `mirror_local_commands_to_supabase` and `mark_command_processing`: they write status without a guard and are not part of the claim protocol.
- Payloads of commands, `processed_at` and error messages: no statement of the protocol reads them.
- A remote row that cannot be parsed while a fetch merges it: the rows before it are kept and the rest skipped, which the fetch here does not model.
- Paging after a failed dead-letter: the guarded update inside one local transaction always matches the row it selected.
- Fail-open paths of the outbound cap and exceptions from a wrapped notifier: a database or transport fault, not a decision.
- `close_all_positions` with a nonpositive mark drops positions without settling them; it is modelled, but no conservation is claimed for it.
- Float rounding, numba parallelism (the grid loop runs in index order here) and numpy buffers shared between callers.
- `Kernel.SimulateSlice` and the other simulator take their inputs as one record; the output arrays of the sweep are one array of records.
- Operator-only helpers of the cold-start engine (symbols, early warnings, telemetry, aggregate queries): they never move a leg.
- The reason texts and the audit fields of degradation and runbook records; alert dispatch and job-record failures inside a runbook.
- The remaining decision tables (entry authority, commissioning, sweep quality, cost filter): straight-line code that would only add easy members.
- The persistence module behind the maintenance ledger is not part of this model: a job row is the validation result recorded last.
- CommandFetch.FetchPending: when the remote select answers, assumes that a command held by both buses has the same kind and creation time on both, as dual writes under one id do.
- CommandFetch.FetchAndClaimEmergency: the same assumption on the commands it fetches.
