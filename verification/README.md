# A Dafny model of the trading bot's safety and learning core

The project models the parts of the bot whose correctness is a claim over many steps: the exchange-safety
coordinator and its intent ledger, clock synchronisation and request coalescing in the exchange client, the
online learner with its calibration, network and promotion rule, the env-file rewriter, the configuration
serializer, the paper-fill simulator and the drawdown loop. For each it states what the code promises over
all inputs, all interleavings or all runs, and proves it. `dafny verify dfyconfig.toml` checks the project.

## How it is built

One module per source component, with its laws beside it. Where the source updates an object step by step
there is a class whose methods are tied to a specification function (`View() == Step(old(View()), ...)`), and
the laws are lemmas about those functions. The modules `*Meaning`, `*Direction` and `PlanVerdict` say what those
functions mean on the raw data, in quantities, statuses, flags and numbers, without naming the predicates that the
planner, the ledger or the learner are built from.

| area | modules |
|---|---|
| shared helpers | `Common`, `Arithmetic` |
| reconcile planner, runner, unlock | `Reconcile`, `ReconcileRun`, `UnlockEligibility`, `UnlockSafety`, `Convergence`, `Starvation`, `RunRecords`, `SafetyGate`, `ReconcileGaps`; on raw data: `PlanMeaning`, `PlanVerdict`, `RunMeaning`, `GateMeaning` |
| intent ledger | `IntentLedger`, `LedgerLaws`, `LedgerPruning`, `GateRuns`, `LedgerExamples`, `IntentMeaning` |
| exchange client | `ClockSync`, `ClockBounds`, `Coalescing`, `FuturesCache`, `ExchangeInfoCache`, `ClockMeaning`, `CacheMeaning` |
| online learner | `OnlineModel`, `ModelTables`, `ModelLaws`, `MonotoneScore`, `CompositeScore`, `CompositeExample`, `LearningDirection`, `LearnerMeaning`, `Promotion`, `PromotionMeaning` |
| calibration | `Calibration`, `CalibrationLaws`, `CalibrationMeaning` |
| small network | `TinyNetwork`, `NetworkLaws`, `NetworkLoading`, `NetworkDirection` |
| env file | `EnvFile`, `EnvRewrite`, `EnvLaws`, `EnvTwice`, `EnvTwiceIff`, `EnvLoneCr`, `EnvExamples`, `EnvMeaning` |
| config hash | `ConfigHash`, `ConfigHashLaws`, `HashMeaning` |
| paper fills, drawdown | `PaperFill`, `FillMeaning`, `FillExample`, `Drawdown` |

## Reading the model

- Numbers are reals and unbounded integers. `clamp`, `Math.round`, `Math.max` and `slice` are written out;
  square root, sigmoid and tanh are parameters, with the assumptions a law needs in its `requires`.
- Missing values are `Option` or a named constructor. Times are integers or reals that the caller passes in.
- Symbols, statuses, sides and kinds are values after the source's trimming and case folding.
- A position id of 0 and an empty symbol stand for a missing one. The coordinator finds positions by id *or*
  symbol, so its laws assume that every position has its own id and its own symbol (`Reconcile.WellFormed`);
  `Convergence.ActionReachesItsOwner` says exactly what happens without that assumption.
- Asynchronous code is a state machine whose steps are atomic between awaits.

## Where the code and its intent differ

The model follows the code. Each point is a lemma; most give the exact condition, and a concrete input.

- `autoReconcileRequireFreshStreamOrRest` has no effect: the planner hands its resolved settings, which hold the
  option under another name, to `resolveFreshness`, which looks it up under the original one
  (`Reconcile.FreshEvidenceIsRequired`, `ReconcileGaps.FreshnessOptionIsIgnored`).
- Running a plan lifts the freeze without asking `evaluateExchangeSafetyUnlock`. It bypasses that gate exactly
  when the evidence satisfies the unlock condition while an intent, an alert or a position holds the gate
  (`SafetyGate.GateIsBypassedIff`; one pending entry: `ReconcileGaps.PendingEntryIsBypassed`).
- A local position that the exchange does not hold at all, unflagged and without a recorded sale, does not
  keep a plan from being eligible (`ReconcileGaps.MissingHoldingsStillUnlock`; the exact condition is
  `UnlockEligibility.EligibleIffSafe`).
- A plan that is cut to the action limit starves what does not fit. Rebuilds and reviews are proposed again in
  every round, so a fix is applied in some round exactly when fewer than the limit of them are proposed before
  it (`Starvation.AppliedInSomeRoundIff`; two positions: `ReconcileGaps.ReviewStarvesLaterPositions`).
- Every lowered confidence is below the smallest allowed minimum, so every objection asks for manual review
  (`UnlockEligibility.ReviewIff`), and the status "blocked" is never reported for one
  (`UnlockEligibility.BlockedIff`).
- Pruning looks at recency only: an intent, resolved or not, is kept exactly when fewer than 160 come before it
  in the recency order (`LedgerPruning.SurvivesIff`; the intent just begun: `LedgerLaws.NewIntentSurvives`). So
  a begin can drop a pending entry and thereby open the gate it held (a run from the empty ledger:
  `LedgerExamples.UnresolvedIsDropped`, `LedgerExamples.HeldGateOpens`).
- Giving a resolved intent an unresolved status breaks the one-per-key rule exactly when another open intent
  has its key (`LedgerLaws.MutateKeepsValid`; a run: `LedgerExamples.ReopeningBreaksKeys`).
- Recovery passes its step where an options object is expected, so no recovery step is ever appended
  (`LedgerLaws.RecoveryPointwise` keeps the steps as they were).
- Single flight for exchange info breaks over a run exactly when some forced refresh is made while a request
  for the key is running (`ExchangeInfoCache.SingleFlightBreaksIff`, which also counts those that only await
  their clean-up; two ordinary callers with a request each: `ExchangeInfoCache.ForcedRefreshBreaksSingleFlight`).
- An older request that answers after a forced refresh overwrites the newer payload. That can happen exactly
  when a request for the key is running as the refresh is forced (`ExchangeInfoCache.OlderIsServedIff`; four
  steps: `ExchangeInfoCache.OlderAnswerOverwrites`).
- The branch of the env rewriter that drops a repeated key is dead, so a key assigned twice keeps its last,
  old value (`EnvRewrite.RewriteLines`, `EnvLoneCr.UpdatedKeyReadsBackIff`; a file:
  `EnvExamples.AssignedTwiceKeepsOld`).
- A file without CRLF that ends in a lone carriage return loses that character, and rewriting it again may
  change every line end (`EnvLoneCr.OtherKeysKeptIff`, `EnvTwiceIff.RewriteTwiceIff`; a file:
  `EnvExamples.LoneCrIsLost`).
- A response without a server time counts as the stamp 0 in clock synchronisation. It meets the half-round-trip
  bound exactly when the true server time passed 0 during the request (`ClockBounds.AbsentStampIff`; a reading
  that sets the offset to minus a second: `ClockBounds.AbsentStampMisleads`).
- Raising `execution_quality_composite`, whose weight is bounded from below, can lower the score, because it
  also damps its group (`CompositeScore.CompositeIsMonotoneIff`; a model:
  `CompositeExample.ExecutionCompositeCanLower`).
- With a window of 0, `slice(-0)` keeps the whole shadow history: it is bounded, whatever the next trade brings,
  exactly when the window is positive (`Promotion.ShadowIsBounded`, `Promotion.ShadowGrowsWithoutWindow`).
- Selling for a quote amount at a cost of 10000 bps or more, and orders with both a quote amount and a
  quantity, can create money (`PaperFill.SellForQuoteGainsIff`, `PaperFill.BothAmountsGainIff`; a sale at
  10000 bps: `PaperFill.FullCostSaleGains`; an order with both: `PaperFill.BothAmountsGain`).
- The maker miss rate is subtracted with a negative factor, so it raises the completion: a thinly traded symbol's
  order is filled more for being thin, exactly when neither cap nor floor is in the way
  (`FillMeaning.ThinLiquidityFillsMore`; 0.6734 instead of 0.6314: `FillMeaning.ThinExample`).

## Model

| member | source | states |
|---|---|---|
| Common.DedupKeepsElements | src/execution/autoReconcileCoordinator.js:481 | a de-duplicated reason list has the same members, each once |
| Reconcile.FreshEvidenceIsRequired | src/execution/autoReconcileCoordinator.js:142-164 | looked up in the resolved settings, the option that waives fresh evidence is never found, so fresh evidence is always required |
| Reconcile.ReviewPosition | src/execution/autoReconcileCoordinator.js:314-435 | one pass of the planner's loop adds exactly the actions, reasons, confidence cap and review request of the position's finding, with the source's branch order |
| Reconcile.BuildPlan | src/execution/autoReconcileCoordinator.js:266-486 | the accumulating planner computes the plan function: disabled plan, freshness and conflict checks, loop, action limit, confidence floor, unlock decision, status |
| Reconcile.OneMorePosition | src/execution/autoReconcileCoordinator.js:314-435 | planning one more position extends actions and reasons, lowers confidence and keeps review requests |
| ReconcileRun.FindPosition | src/execution/autoReconcileCoordinator.js:602-607 | the first position that matches by id or symbol, and the length exactly when none does |
| ReconcileRun.Runtime.constructor | src/execution/autoReconcileCoordinator.js:628-632 | the runtime starts in the given state |
| ReconcileRun.Runtime.Find | src/execution/autoReconcileCoordinator.js:602-607 | the search loop finds that position |
| ReconcileRun.Runtime.AppendAudit | src/execution/autoReconcileCoordinator.js:609-626 | the audit goes first, the older ones follow in order, and at most 50 are kept: the oldest is dropped when the trail was full |
| ReconcileRun.Runtime.Drop | src/execution/autoReconcileCoordinator.js:671 | exactly the positions with that id leave the list |
| ReconcileRun.Runtime.Perform | src/execution/autoReconcileCoordinator.js:640-707 | the branches of the runner: the whole new state but for the audit, and the result, for every kind of action, found or not |
| ReconcileRun.Runtime.Apply | src/execution/autoReconcileCoordinator.js:629-736 | applying one action gives the whole new state of the step function, audit included, and its result |
| ReconcileRun.Runtime.RunAll | src/execution/autoReconcileCoordinator.js:629-736 | the loop over the actions is folding the step over them, with one result per action |
| ReconcileRun.Summarize | src/execution/autoReconcileCoordinator.js:739-740 | how many actions were applied and whether one asks for manual review |
| ReconcileRun.Runtime.Run | src/execution/autoReconcileCoordinator.js:628-743 | running a plan gives the folded state and results, the number of applied actions, and a review flag exactly when the plan or a result asks for review |
| UnlockEligibility.NoObjections | src/execution/autoReconcileCoordinator.js:303-435 | no reason is recorded exactly when the evidence is fresh and consistent and no position objects; confidence is then full and nobody asks for review |
| UnlockEligibility.ProposedMembers | src/execution/autoReconcileCoordinator.js:314-435 | the proposed actions are exactly those some position calls for |
| UnlockEligibility.ProposedClearings | src/execution/autoReconcileCoordinator.js:368-380 | when every position is safe, the plan clears exactly the flagged ones and does nothing else |
| UnlockEligibility.SafePlanIsEligible | src/execution/autoReconcileCoordinator.js:437-458 | safe, fresh, conflict-free evidence within the limits makes the plan eligible |
| UnlockEligibility.EligiblePlanIsSafe | src/execution/autoReconcileCoordinator.js:437-458 | an eligible plan had such evidence for every position: protection and quantity within tolerance where both sides are open, no flat, rebuild or review |
| UnlockEligibility.EligibleIffSafe | src/execution/autoReconcileCoordinator.js:266-486 | unlock eligibility is equivalent to a condition stated on the evidence alone |
| UnlockEligibility.ObjectionsCost | src/execution/autoReconcileCoordinator.js:303-435 | any objection lowers the confidence to 0.6 or less, or asks for review |
| UnlockEligibility.ReviewIff | src/execution/autoReconcileCoordinator.js:442-453 | a plan asks for manual review exactly when reconciliation is off, something was objected to or the minimum is out of reach |
| UnlockEligibility.BlockedIff | src/execution/autoReconcileCoordinator.js:245-251 | a plan is reported as blocked exactly when reconciliation is off, or nothing is wrong or to be done and yet a position is flagged; objections never lead there |
| PlanMeaning.FindingIff | src/execution/autoReconcileCoordinator.js:314-435 | what the planner concludes about a position, said of the quantities, the order, list and trade statuses and the flags: every conclusion exactly for its cause |
| PlanMeaning.AdoptedIff | src/execution/autoReconcileCoordinator.js:103-112 | a cleared position adopts its own order list, else the first open one for its symbol, else none |
| PlanVerdict.BlamedIff | src/execution/autoReconcileCoordinator.js:314-435 | an objection to a symbol is among the reasons exactly when reconciliation is on and a position of the symbol gives that cause |
| PlanVerdict.MismatchBlocks | src/execution/autoReconcileCoordinator.js:320-365 | where both sides are open, a local quantity above or below the balance by more than the largest of minimum quantity, dust or step quantity, 1e-9 and the configured tolerance is reported as a mismatch, asks for review and blocks the unlock |
| PlanVerdict.EligibleMeaning | src/execution/autoReconcileCoordinator.js:266-486 | a plan is eligible exactly when, said of the raw evidence, reconciliation is on, the evidence is fresh and without contradiction, the minimum is within reach, every position is sound and the flags to clear fit the limit |
| PlanVerdict.EligibleQuantities | src/execution/autoReconcileCoordinator.js:351-368 | in an eligible plan the two quantities of every position open on both sides differ by no more than that tolerance, either way, and the position is protected |
| PlanVerdict.GeneralReasonsIff | src/execution/autoReconcileCoordinator.js:295-440 | the reasons that concern no position are there exactly when reconciliation is off, the evidence is stale, stream and account contradict each other by more than 1e-8, or there are more actions than the limit |
| PlanVerdict.ProposedIff | src/execution/autoReconcileCoordinator.js:342-428 | an action of each kind is proposed for a position exactly when the raw evidence demands it |
| PlanVerdict.ConfidenceMeaning | src/execution/autoReconcileCoordinator.js:303-453 | the confidence is the smallest of 0.96, 0.45 without fresh evidence, 0.35 on a contradiction and what each position leaves: 0.4, 0.42, 0.55 or 0.6 |
| PlanVerdict.UnsureIff | src/execution/autoReconcileCoordinator.js:442-451 | a confidence below the minimum, which is 0.78 or more, is among the reasons, exactly then, and asks for review |
| PlanVerdict.ActionsMeaning | src/execution/autoReconcileCoordinator.js:437-471 | the actions of a plan: as many of the proposed ones as the limit allows, then a review of no position when unsure and none of these asks for one, then the lifting of the freeze when the plan is eligible and there is something to lift or to clear |
| PlanVerdict.StatusMeaning | src/execution/autoReconcileCoordinator.js:245-251 | which of four statuses a plan has, each exactly when its flags and actions say so |
| UnlockSafety.FreezeAfterRun | src/execution/autoReconcileCoordinator.js:628-736 | a run of actions ends frozen exactly when it started frozen and held no global clear |
| UnlockSafety.LiftedAfterRun | src/execution/autoReconcileCoordinator.js:682-707 | a run ends with every freeze off, status ready and probation at zero entries exactly when it clears the block or found that state |
| UnlockSafety.EligiblePlan | src/execution/autoReconcileCoordinator.js:437-486 | the whole content of an eligible plan: clearings, then the global clear when there is anything to lift or clear; no reasons, full confidence, its status |
| UnlockSafety.SafeRun | src/execution/autoReconcileCoordinator.js:628-736 | the unlock condition survives the plan's own actions, and positions keep their identity |
| UnlockSafety.EligiblePlanSettles | src/execution/autoReconcileCoordinator.js:266-743 | running an eligible plan lifts the freeze, keeps every position, leaves none flagged, and planning again on the same evidence gives the empty plan with nothing to do |
| UnlockSafety.LiftsIffEligible | src/execution/autoReconcileCoordinator.js:453-471 | from a frozen state, running a plan lifts the freeze exactly when the plan is eligible |
| UnlockSafety.LiftNeedsEvidence | src/execution/autoReconcileCoordinator.js:266-743 | every step of a run that lifts the freeze is a step of another writer or a reconcile round that leaves no blocking flag; a round of a frozen bot lifts it exactly when its evidence satisfies the unlock condition |
| UnlockSafety.FreezeLiftedOnlyOnEvidence | src/execution/autoReconcileCoordinator.js:266-743 | whenever a run goes from frozen to not frozen, one of its steps lifted the freeze, and it is of one of those two kinds |
| RunMeaning.ClearMeaning | src/execution/autoReconcileCoordinator.js:643-658 | clearing a flag changes only the first position with its id or symbol: both flags go, a missing order list is adopted, and the lifecycle is protected, open or pending as that list and the broker say |
| RunMeaning.FlatMeaning | src/execution/autoReconcileCoordinator.js:659-672 | a position confirmed flat leaves with its id, and its closure goes first in a list of at most 50 |
| RunMeaning.RestIsUntouched | src/execution/autoReconcileCoordinator.js:629-736 | all other actions, and actions that find nothing, change no position; only the global clear touches the freeze |
| RunMeaning.AuditMeaning | src/execution/autoReconcileCoordinator.js:609-626 | the audit of an action names its kind and symbol, and its result says whether it found its position |
| RunMeaning.EveryFreezeIsLifted | src/execution/autoReconcileCoordinator.js:682-707 | a round on evidence that supports the unlock turns off whichever of the four freezes were on |
| RunMeaning.NoFreezeIsLifted | src/execution/autoReconcileCoordinator.js:453-471 | a round on other evidence leaves all four and the probation as they were |
| Convergence.ActionReachesItsOwner | src/execution/autoReconcileCoordinator.js:602-607 | an action reaches the position it was planned for exactly when no earlier one shares its id or symbol |
| Convergence.ClearedIsQuiet | src/execution/autoReconcileCoordinator.js:643-658 | a cleared position calls for nothing on the same evidence and carries no flag |
| Convergence.OwedStep | src/execution/autoReconcileCoordinator.js:643-707 | a clear or flat action lowers the number of positions to act on by exactly one and touches only its own position; other actions leave positions alone |
| Convergence.PlanActions | src/execution/autoReconcileCoordinator.js:437-471 | a plan is a prefix of the proposed actions, as long as the limit allows, followed by global actions |
| Convergence.PlanIsJustified | src/execution/autoReconcileCoordinator.js:314-471 | every action of a plan is global or called for by a position of its own |
| Convergence.RunWorksBacklogOff | src/execution/autoReconcileCoordinator.js:628-743 | a justified run lowers the backlog by the number of its clear and flat actions |
| Convergence.RoundWorksBacklogOff | src/execution/autoReconcileCoordinator.js:266-743 | a round lowers the untruncated backlog by exactly the fixes in its plan, and changes no position without one |
| Convergence.RoundStarves | src/execution/autoReconcileCoordinator.js:437-440 | one round lowers the backlog by the fixes that fit the limit, and changes no position exactly when there is none |
| Convergence.StableOrProgress | src/execution/autoReconcileCoordinator.js:266-743 | a round either changes no position or strictly lowers the backlog |
| Convergence.RoundsConverge | src/execution/autoReconcileCoordinator.js:266-743 | on fixed evidence positions stop changing after at most as many rounds as there were positions to act on |
| Starvation.RunProposes | src/execution/autoReconcileCoordinator.js:628-743 | after running any stretch of the owed actions exactly the others are still owed: its fixes are gone, its rebuilds and reviews stay, in order |
| Starvation.RoundProposes | src/execution/autoReconcileCoordinator.js:266-743 | after a round the proposed actions are the old ones without the fixes among the first that fit the limit |
| Starvation.RoundsRemain | src/execution/autoReconcileCoordinator.js:266-743 | any number of rounds keeps what will remain in the end |
| Starvation.RoundsSettle | src/execution/autoReconcileCoordinator.js:266-743 | after as many rounds as there were actions owed, exactly that remains: everything but the fixes with fewer than the limit of other actions before them |
| Starvation.RemainsIff | src/execution/autoReconcileCoordinator.js:437-440 | which proposed actions remain for ever, by their place in the list |
| Starvation.AppliedIffGone | src/execution/autoReconcileCoordinator.js:643-672 | a proposed fix is applied in a round exactly when it is no longer proposed after it |
| Starvation.AppliedInSomeRoundIff | src/execution/autoReconcileCoordinator.js:266-743 | a fix is applied in some round exactly when fewer than the limit of rebuilds and reviews are proposed before it |
| Convergence.FixesAreApplied | src/execution/autoReconcileCoordinator.js:643-672 | every fix of a justified plan finds its position and is applied |
| Convergence.PlannedFixesAreApplied | src/execution/autoReconcileCoordinator.js:266-743 | so is every fix the planner plans |
| RunRecords.TrailRecordsRun | src/execution/autoReconcileCoordinator.js:609-615 | the trail holds the run's audits, newest first, before the older ones, 50 in all |
| RunRecords.ClosuresRecordRun | src/execution/autoReconcileCoordinator.js:667-670 | so does the closure list for the positions the run closed |
| RunRecords.LeavesIffClosed | src/execution/autoReconcileCoordinator.js:659-672 | over a whole run a position leaves the open list exactly when a closure was recorded for it |
| RunRecords.ReviewsOnlyLeaveAudits | src/runtime/tradingBot.js:22943-22951 | the bot's caller, which leaves the review actions out, ends in the same runtime as running the whole plan, audit trails aside |
| SafetyGate.CanUnlockIff | src/execution/autoReconcileCoordinator.js:488-518 | for every plan, the gate opens exactly when the plan is eligible, objects to nothing and asks for no review, no alert is critical, no entry or protection intent is listed and every position is unflagged and protected |
| SafetyGate.PlannedCanUnlockIff | src/execution/autoReconcileCoordinator.js:488-518 | for a plan of the planner, over these or other positions, eligibility alone stands for the plan's part |
| SafetyGate.ExplanationIff | src/execution/autoReconcileCoordinator.js:520-600 | what the explanation reports: the exchange block exactly when frozen, anything else exactly when something outside the plan stands in the way |
| SafetyGate.AdviceIff | src/execution/autoReconcileCoordinator.js:571-590 | when entries are blocked, when the block is suspected to be stale, and exactly when each of the six next actions is advised, stated on the inputs |
| GateMeaning.OpensIff | src/execution/autoReconcileCoordinator.js:488-518 | the gate opens exactly when the plan is clean, no alert is critical, no entry or protection intent of the ledger is pending, submitted or ambiguous, and no position is flagged, in review or held without protection |
| GateMeaning.ReasonsIff | src/execution/autoReconcileCoordinator.js:500-510 | each reason of the verdict, and its review flag, is there exactly for its cause |
| GateMeaning.ExplainedIff | src/execution/autoReconcileCoordinator.js:532-579 | each reason of the explanation is there exactly for its cause, and entries are blocked exactly when there is one |
| SafetyGate.GateAgreesWithExplanation | src/execution/autoReconcileCoordinator.js:488-569 | for every plan, the gate is open exactly when the plan is eligible, objects to nothing and asks for no review, and the explanation reports nothing but the exchange block |
| SafetyGate.PlannedGateAgrees | src/execution/autoReconcileCoordinator.js:488-569 | for the planner's plan, exactly when it is eligible and the explanation reports nothing but the exchange block |
| SafetyGate.UnresolvedIntentHoldsGate | src/execution/autoReconcileCoordinator.js:497-503 | an unresolved entry or protection intent in the ledger keeps the gate shut and is reported |
| SafetyGate.RecoveryKeepsGate | src/execution/executionIntentLedger.js:227-259 | the ledger holds the gate after recovery exactly when it did before, and the whole verdict of the gate is the same |
| SafetyGate.RecoveryKeepsGateShut | src/execution/executionIntentLedger.js:227-259 | no intent that held the gate stops holding it in crash recovery, whatever the id lists say |
| GateRuns.StepHolds | src/execution/executionIntentLedger.js:82-259 | one ledger operation: an entry or protection intent that held the gate still does exactly unless it is settled or displaced, and no other comes to hold it |
| GateRuns.HoldsUntilSettled | src/execution/executionIntentLedger.js:82-259 | over every ledger run, crashes included, such an intent holds the gate at the end exactly when it was neither settled nor displaced by newer intents |
| GateRuns.GateShutUntilSettled | src/execution/autoReconcileCoordinator.js:497-503 | until then the gate is shut, whatever the plan, the positions and the alerts |
| SafetyGate.GateIsBypassedIff | src/runtime/tradingBot.js:22937-22951 | running a plan lifts the freeze although the gate refuses exactly when the evidence satisfies the unlock condition and something outside the plan holds the gate |
| SafetyGate.RunIgnoresGate | src/runtime/tradingBot.js:22925-22951 | running an eligible plan lifts the freeze even while the gate refuses |
| ReconcileGaps.MissingHoldingsStillUnlock | src/execution/autoReconcileCoordinator.js:382-435 | an unprotected local position the exchange does not hold can leave the plan eligible |
| ReconcileGaps.PendingEntryIsBypassed | src/runtime/tradingBot.js:22937-22951 | a ledger with one pending entry: the gate refuses and the run lifts the freeze |
| ReconcileGaps.ReviewStarvesLaterPositions | src/execution/autoReconcileCoordinator.js:437-440 | with a limit of one, a position that needs review keeps a clearable one waiting over any number of rounds |
| ReconcileGaps.FreshnessOptionIsIgnored | src/execution/autoReconcileCoordinator.js:142-164 | the option that waives fresh evidence changes no plan, and stale evidence never makes one eligible, although the freshness check itself would honour the option |
| IntentLedger.IndexOf | src/execution/executionIntentLedger.js:99 | the place of an id in the ledger, the length when it is not there |
| IntentLedger.DuplicateOf | src/execution/executionIntentLedger.js:139-141 | the first unresolved intent with a dedupe key |
| IntentLedger.Ledger.constructor | src/execution/executionIntentLedger.js:44-50 | an empty ledger |
| IntentLedger.Ledger.Prune | src/execution/executionIntentLedger.js:82-94 | the loop keeps the 160 most recent intents in insertion order and rebuilds both id lists |
| IntentLedger.Ledger.Begin | src/execution/executionIntentLedger.js:123-171 | returns the open intent with the key and changes nothing, or appends a pending one and prunes |
| IntentLedger.Ledger.Mutate | src/execution/executionIntentLedger.js:96-121 | merges the patch, appends the step, stamps the resolution and prunes, and returns the merged record; nothing for an unknown id |
| IntentLedger.Ledger.Resolve | src/execution/executionIntentLedger.js:185-193 | completes an intent, the default fields under the caller's patch, and returns the merged record |
| IntentLedger.Ledger.Fail | src/execution/executionIntentLedger.js:195-202 | fails an intent, keeping its ambiguity reason, and returns the merged record |
| IntentLedger.Ledger.MarkAmbiguous | src/execution/executionIntentLedger.js:204-216 | blocks an intent, asks for resumption, and returns the merged record |
| IntentLedger.Ledger.Recover | src/execution/executionIntentLedger.js:227-259 | the loop over a snapshot computes the recovered ledger and returns the number of unresolved intents |
| IntentMeaning.ListedIff | src/execution/executionIntentLedger.js:25-29 | the unresolved list holds exactly the intents that are pending, submitted or ambiguous; completed, failed, skipped and other ones are not in it |
| IntentMeaning.BeginFindsIff | src/execution/executionIntentLedger.js:138-171 | a begin returns the first pending, submitted or ambiguous intent with its key exactly when there is one, and otherwise appends a pending one |
| IntentMeaning.RecoveryMeaning | src/execution/executionIntentLedger.js:227-259 | recovery makes exactly the pending, submitted and ambiguous intents ambiguous, blocked and to be resumed, leaves all others, and counts them |
| IntentMeaning.ResolveMeaning | src/execution/executionIntentLedger.js:185-193 | a resolved intent is completed, neither blocked nor to be resumed, without ambiguity reason, and has its time of resolution and its step |
| IntentMeaning.FailMeaning | src/execution/executionIntentLedger.js:195-202 | a failed one likewise, and keeps its ambiguity reason |
| IntentMeaning.MarkMeaning | src/execution/executionIntentLedger.js:204-216 | one marked ambiguous is blocked and to be resumed, and gets no time of resolution |
| IntentMeaning.CallerWins | src/execution/executionIntentLedger.js:96-121 | fields the caller patches win over the defaults, and a status that is an outcome is stamped once |
| IntentMeaning.PruneCounts | src/execution/executionIntentLedger.js:84-91 | pruning drops nothing from up to 160 intents and keeps 160 of more |
| LedgerLaws.SortFacts | src/execution/executionIntentLedger.js:84-86 | the recency order is descending and a permutation |
| LedgerLaws.SortKeep | src/execution/executionIntentLedger.js:89-91 | sorting by recency and keeping a set of ids commute, so the rebuilt lists are those of the kept intents |
| LedgerLaws.RecentIdsAreTheKeys | src/execution/executionIntentLedger.js:92 | the recent id list is exactly the set of keys |
| LedgerLaws.RecentIdsDescend | src/execution/executionIntentLedger.js:92 | in descending update order |
| LedgerLaws.UnresolvedIdsMeaning | src/execution/executionIntentLedger.js:93 | an intent's id is in the unresolved list exactly when it is unresolved |
| LedgerLaws.PrunedValid | src/execution/executionIntentLedger.js:82-94 | pruning establishes the ledger invariant |
| LedgerLaws.PruneDropsTheOldest | src/execution/executionIntentLedger.js:82-94 | whatever is dropped, resolved or not, is no newer than what is kept, and 160 are kept |
| LedgerPruning.RankIsPlace | src/execution/executionIntentLedger.js:84-86 | an intent's rank, the number of newer ones and of equally recent earlier ones in insertion order, is its place in the recency order |
| LedgerPruning.SurvivesIff | src/execution/executionIntentLedger.js:82-94 | an intent survives pruning exactly when its rank is below 160, resolved or not |
| LedgerExamples.Fills | src/execution/executionIntentLedger.js:123-193 | beginning an entry and then beginning and completing exits, one after the other, is an allowed run from the empty ledger and leaves exactly those intents |
| LedgerExamples.UnresolvedIsDropped | src/execution/executionIntentLedger.js:123-171 | after 159 such exits, one more begin with a free key drops the pending entry |
| LedgerExamples.HeldGateOpens | src/execution/autoReconcileCoordinator.js:488-518 | that begin opens the gate, which the entry held, for a plan that nothing else holds up |
| LedgerLaws.BeginKeepsValid | src/execution/executionIntentLedger.js:123-171 | a begin keeps at most 160 intents, the id lists and one open intent per key |
| LedgerLaws.RepeatedBegin | src/execution/executionIntentLedger.js:138-144 | a begin with a taken key is a no-op and finds the open intent |
| LedgerLaws.NewIntentSurvives | src/execution/executionIntentLedger.js:145-170 | a new intent survives its own pruning exactly when fewer than 160 others are at least as recent |
| LedgerLaws.BeginTwice | src/execution/executionIntentLedger.js:123-171 | the second of two begins with one key changes nothing |
| LedgerLaws.MutateKeepsValid | src/execution/executionIntentLedger.js:96-121 | an update keeps the invariant exactly when it does not reopen an intent whose key is taken |
| LedgerExamples.ReopeningBreaksKeys | src/execution/executionIntentLedger.js:96-121 | an exit is completed, another begun under its key, and setting the first back to pending leaves two open intents with one key |
| LedgerLaws.RecoveryPointwise | src/execution/executionIntentLedger.js:227-259 | recovery of any ledger of at most 160, whatever its id lists say, makes exactly the unresolved intents ambiguous and blocked, keeps an earlier reason and all steps, leaves resolved ones untouched and loses none; the result is valid exactly when no two open intents shared a key |
| LedgerLaws.BlockersAfterRecovery | src/execution/executionIntentLedger.js:218-281 | after recovery of any ledger of at most 160 the blockers are all unresolved intents, as many as recovery returned, for the ids unresolved before |
| LedgerLaws.StepKeepsValid | src/execution/executionIntentLedger.js:82-259 | every operation keeps the invariant |
| LedgerLaws.RunKeepsValid | src/execution/executionIntentLedger.js:82-259 | so does every run in which only unresolved intents receive an unresolved status |
| LedgerLaws.SettlingFreesTheKey | src/execution/executionIntentLedger.js:185-202 | resolving or failing removes the id from the unresolved list and frees its key, and touches no other intent |
| LedgerLaws.StepKeepsRecords | src/execution/executionIntentLedger.js:96-121 | a resolved intent keeps a resolution time and no step history exceeds 20, for every operation |
| LedgerLaws.RunKeepsRecords | src/execution/executionIntentLedger.js:82-259 | and over every run, crashes included |
| ClockSync.ChosenFacts | src/binance/client.js:859-864 | the chosen samples are the ones within the round-trip limit, or the faster half when there are none; never empty |
| ClockSync.Clock.constructor | src/binance/client.js:244-266 | a clock that was never synchronised |
| ClockSync.Clock.Sync | src/binance/client.js:826-889 | a current clock is left alone; otherwise the offset becomes the rounded median of the chosen offsets and the state their statistics; no sample, no change |
| ClockMeaning.SamplesMeaning | src/binance/client.js:833-849 | every reading yields one sample in order, with its round trip never negative and the middle of it as the reference, except those with a malformed stamp |
| ClockMeaning.MedianMeaning | src/binance/client.js:65-75 | the median is the mean of the two middle values, at or below and at or above which half of the values lie |
| ClockMeaning.MeasuredMeaning | src/binance/client.js:866-887 | what is recorded: the rounded median, the smallest, median and average round trip, the spread, the drift and the latest arrival |
| ClockMeaning.RoundMeaning | src/binance/client.js:874 | rounding goes to the nearest integer, half-way cases up |
| ClockBounds.RankBounds | src/binance/client.js:65-75 | order statistics of offsets are bounded by those of round trips, for every rank |
| ClockBounds.MedianBound | src/binance/client.js:65-75 | the median offset is within half the median round trip, for odd and even counts |
| ClockBounds.ClockErrorBound | src/binance/client.js:826-889 | with honest stamps the offset is within half the median round trip of the truth, plus one half after rounding, whichever samples are chosen |
| ClockBounds.DriftBound | src/binance/client.js:867-871 | the error is at most three times the reported drift estimate |
| ClockBounds.DriftBoundIsTight | src/binance/client.js:867-871 | the factor three is attained by three readings taken one after the other |
| ClockBounds.AbsentStampIff | src/binance/client.js:835-845 | a response without a server time meets the half-round-trip bound exactly when the true server time passed 0 during the request |
| ClockBounds.AbsentStampMisleads | src/binance/client.js:835-871 | such a reading with a round trip of two milliseconds sets the offset to minus the local time |
| FuturesCache.Cache.constructor | src/binance/client.js:270 | an empty cache |
| FuturesCache.Cache.Call | src/binance/client.js:676-689 | a call hits a fresh payload, joins the request in flight or starts one and registers it |
| FuturesCache.Cache.OnSuccess | src/binance/client.js:743-745 | the response replaces the entry of its key |
| FuturesCache.Cache.OnFailure | src/binance/client.js:743-751 | a rejection settles the request and leaves the entry to the clean-up |
| FuturesCache.Cache.Finally | src/binance/client.js:746-751 | the clean-up removes the entry only if it is still this request's own |
| FuturesCache.RunKeepsInv | src/binance/client.js:669-754 | the protocol invariant holds after every interleaving of calls, responses, failures and clean-ups |
| FuturesCache.OneOutstandingPerKey | src/binance/client.js:669-754 | at most one request per key is outstanding |
| FuturesCache.ServedIsFresh | src/binance/client.js:676-689 | a served payload is for the caller's key and no older than its time to live; a joined request is outstanding; a new one is started only when none is |
| FuturesCache.NothingInFlightWhenQuiet | src/binance/client.js:743-754 | when all requests are cleaned up no in-flight entry remains |
| CacheMeaning.FuturesAnswers | src/binance/client.js:676-690 | a payload is served exactly while it is no older than the time to live, at least a second; else a request in flight is joined, else one is made |
| CacheMeaning.FuturesExample | src/binance/client.js:676-690 | a caller starts a request, the second joins it, the third is served until the answer is too old; after a failure another is started |
| ExchangeInfoCache.Cache.constructor | src/binance/client.js:268-269 | an empty cache |
| ExchangeInfoCache.Cache.Call | src/binance/client.js:891-941 | an unforced call hits, joins or starts; a forced one always starts |
| ExchangeInfoCache.Cache.OnSuccess | src/binance/client.js:928-933 | the response becomes the cached payload |
| ExchangeInfoCache.Cache.OnFailure | src/binance/client.js:925-938 | a rejection changes neither map |
| ExchangeInfoCache.Cache.Finally | src/binance/client.js:934-938 | the clean-up removes only its own in-flight entry |
| ExchangeInfoCache.RunKeepsInv | src/binance/client.js:891-941 | the invariant holds after every interleaving, forced refreshes and failures included |
| ExchangeInfoCache.InFlightIsLive | src/binance/client.js:934-941 | every in-flight entry belongs to a request for its key that is not cleaned up; none remains when all are |
| ExchangeInfoCache.ServedIsFresh | src/binance/client.js:899-916 | no payload older than the caller's time to live is served |
| ExchangeInfoCache.OneLivePerKey | src/binance/client.js:891-941 | single flight holds for every key for which no forced call was made while a request was live, or, counting running requests only, while one was running |
| ExchangeInfoCache.SingleFlightBreaksIff | src/binance/client.js:891-941 | over every run, two requests for a key are live at some point exactly when some forced call was made while one was live; likewise for running requests |
| ExchangeInfoCache.CacheHoldsLastSuccess | src/binance/client.js:928-933 | the cached payload is that of the last request to succeed, in order of answering |
| CacheMeaning.ExchangeInfoAnswers | src/binance/client.js:893-916 | the same with a payload and a request side by side; a forced call always makes a request |
| CacheMeaning.ServedIsYoung | src/binance/client.js:676-916 | over every run of either cache what is served answered a request for the same key and is that young |
| ExchangeInfoCache.OlderIsServedIff | src/binance/client.js:899-938 | when a refresh is forced, some continuation has it answered and an older request's payload served exactly when a request for the key is running at that moment |
| ExchangeInfoCache.OlderAnswerOverwrites | src/binance/client.js:928-933 | a refresh is forced while an older request runs; the older one answers last and is served |
| ExchangeInfoCache.ForcedCallDoublesIff | src/binance/client.js:893-941 | a forced call leaves two live requests for a key exactly when one was live, and two running ones exactly when one was running |
| ExchangeInfoCache.ForcedRefreshBreaksSingleFlight | src/binance/client.js:934-941 | after a forced refresh two ordinary callers can have two requests running |
| OnlineModel.Model.constructor | src/ai/onlineModel.js:289-307 | copies the state, seeds the priors into an empty model and projects the weights |
| OnlineModel.DampMembers | src/ai/onlineModel.js:277-283 | the member loop scales every listed member of a group by one minus its damping and nothing else |
| OnlineModel.PrepareFeatureSet | src/ai/onlineModel.js:270-286 | the group loop equals damping by every group in turn; skipping a zero composite changes nothing |
| OnlineModel.Model.EnforceMonotonicWeights | src/ai/onlineModel.js:255-268 | the loop computes the projection onto the bounds |
| OnlineModel.Model.GetFeatureStat | src/ai/onlineModel.js:320-325 | looking a statistic up creates an empty one and changes no other |
| OnlineModel.Model.Score | src/ai/onlineModel.js:391-415 | the in-place pass returns the sigmoid of the linear score of the old state, its distance from one half as confidence, the normalised features, and only creates empty statistics |
| OnlineModel.Model.Descend | src/ai/onlineModel.js:435-440 | the learning loop equals the simultaneous gradient step and statistic update |
| OnlineModel.Model.UpdateFromTrade | src/ai/onlineModel.js:417-441 | one trade is the simultaneous step followed by the projection; it returns the prediction before the step and the weighted error |
| LearningDirection.ErrorPointsToAim | src/ai/onlineModel.js:420-431 | the error is positive exactly when the prediction is below the aim (label, else override, else whether it made money) and negative exactly when above; it is their distance times a positive weight |
| LearningDirection.BiasFollows | src/ai/onlineModel.js:433 | the bias rises exactly when the prediction is below the aim and falls exactly when it is above |
| LearningDirection.WeightFollows | src/ai/onlineModel.js:435-440 | beside its decay every weight moves with the sign of (aim minus prediction) times its normalised feature; weights of features not listed stay |
| LearningDirection.ScoreFollows | src/ai/onlineModel.js:391-441 | without decay and with no bound in the way, the prediction on the same features under the old statistics moves towards the aim |
| LearningDirection.WeightGrows | src/ai/onlineModel.js:421-428 | a trade counts no less for more money moved, a more decided label, better execution, a larger mode weight or less regret |
| LearningDirection.WeightExamples | src/ai/onlineModel.js:421-428 | four trades and what they count, among them the cap and the floor of 0.3 |
| LearnerMeaning.DampingMeaning | src/ai/onlineModel.js:272-277 | a composite damps its group by a third of its size times the strength, up to the strength, and not at all when it is missing or zero |
| LearnerMeaning.DampedMeaning | src/ai/onlineModel.js:278-283 | the members that are there lose that fraction, and nothing else changes |
| LearnerMeaning.NormalizedMeaning | src/ai/onlineModel.js:327-336 | under eight values a feature is cut off at four; from then on it is its distance from the mean in deviations, cut off at four |
| LearnerMeaning.ProjectionMeaning | src/ai/onlineModel.js:255-268 | a weight on its side of the bound stays, one beyond it goes to the bound, a missing one starts at its prior, and no other weight changes |
| LearnerMeaning.BoundsAreQuarters | src/ai/onlineModel.js:219-231 | every bound is a quarter of its prior, on the prior's side of zero |
| LearnerMeaning.ConstructedMeaning | src/ai/onlineModel.js:289-307 | a model with weights keeps bias and statistics; an empty one starts from the prior bias -0.12 and the prior weights |
| LearnerMeaning.CountedMeaning | src/ai/onlineModel.js:338-345 | a trade counts the prepared value of every listed feature once |
| ModelLaws.Welford | src/ai/onlineModel.js:338-345 | after any values, count times mean is their sum and m2 the sum of squared deviations from the mean, hence not negative |
| ModelLaws.VarianceIsSampleVariance | src/ai/onlineModel.js:327-336 | the deviation used for normalisation is the root of the sample variance, or 1 where that root is zero, after any history |
| ModelLaws.StatsFollowValues | src/ai/onlineModel.js:435-440 | over any run a feature's statistic is that of the values the run fed it |
| ModelLaws.ProjectionConfines | src/ai/onlineModel.js:255-268 | the projection makes every bound hold |
| ModelLaws.ProjectionIsIdempotent | src/ai/onlineModel.js:255-268 | and changes nothing where they hold |
| ModelLaws.LearnedRespects | src/ai/onlineModel.js:441 | every trade leaves all bounds respected |
| ModelLaws.ConstructedRespects | src/ai/onlineModel.js:289-298 | so does construction |
| ModelLaws.RunRespects | src/ai/onlineModel.js:417-441 | and every run |
| ModelLaws.StepWithin | src/ai/onlineModel.js:438 | one decayed gradient step stays within the bound |
| ModelLaws.WeightStaysBounded | src/ai/onlineModel.js:417-441 | weight by weight: over any run a weight never exceeds a bound that covers its own start, its own prior and four times the largest sample weight over the decay |
| ModelLaws.WeightsStayBelowCeilings | src/ai/onlineModel.js:417-441 | over any run no weight exceeds its own ceiling, the largest of these three, whatever the others started from |
| ModelLaws.WeightsStayBounded | src/ai/onlineModel.js:417-441 | under one bound for all of them, all weights stay within it together |
| MonotoneScore.TablesAreGood | src/ai/onlineModel.js:8-231 | group strengths are fractions, bounds lie between zero and the prior, names are distinct |
| MonotoneScore.ScoreIsMonotone | src/ai/onlineModel.js:219-441 | in every reachable model raising a bounded feature moves the probability only in the direction of its bound, all but the execution composite |
| CompositeExample.ExecutionCompositeCanLower | src/ai/onlineModel.js:219-286 | a model within all its bounds that scores 4 before the execution composite rises and 3.095 after |
| CompositeScore.UnshieldedLowers | src/ai/onlineModel.js:270-286 | whenever the raise changes a group member, some model within the bounds scores strictly lower |
| CompositeScore.CompositeIsMonotoneIff | src/ai/onlineModel.js:219-415 | raising the execution composite lowers no admissible model's score exactly when it changes no member of its group |
| Calibration.BinIndex | src/ai/probabilityCalibrator.js:37-39 | every prediction falls into an existing bin |
| Calibration.Calibrator.constructor | src/ai/probabilityCalibrator.js:13-31 | empty bins |
| Calibration.Calibrator.Update | src/ai/probabilityCalibrator.js:66-76 | the bins always hold exactly the history fed in, one sample at a time |
| Calibration.Calibrator.ExpectedCalibrationError | src/ai/probabilityCalibrator.js:78-95 | the reported error is the clamped sum of the bins' terms over that history |
| Calibration.Calibrator.BrierScore | src/ai/probabilityCalibrator.js:89-98 | the reported score is the clamped mean of the bins' squared errors |
| Calibration.Calibrator.Calibrate | src/ai/probabilityCalibrator.js:41-55 | the smoothed win rate of the prediction's bin |
| Calibration.BuildSummary | src/ai/confidenceCalibration.js:96-139 | the bucket loops compute count, mean confidence and win rate of every bucket and the batch error |
| Calibration.NormalizedInRange | src/ai/confidenceCalibration.js:16-41 | resolved samples lie between 0 and 1 |
| Calibration.IndexInRange | src/ai/confidenceCalibration.js:113 | every resolved confidence falls into an existing bucket |
| CalibrationMeaning.ResolvedIff | src/ai/confidenceCalibration.js:16-41 | a sample is resolved exactly when both parts are there, with its own confidence as the prediction and its own outcome as the result |
| CalibrationMeaning.BinMeaning | src/ai/probabilityCalibrator.js:37-39 | a prediction is in the bin whose stretch of the unit interval holds it |
| CalibrationMeaning.BucketMeaning | src/ai/confidenceCalibration.js:113 | so is a confidence below one; a full one is in the last bucket |
| CalibrationMeaning.BucketCountMeaning | src/ai/confidenceCalibration.js:103 | between two and twenty buckets, the rounded request where it lies there |
| CalibrationMeaning.AddedMeaning | src/ai/probabilityCalibrator.js:66-76 | a sample adds one, its prediction, its outcome and its squared distance to its bin |
| CalibrationMeaning.TermMeaning | src/ai/probabilityCalibrator.js:79-88 | a bin contributes the distance of its mean prediction from its mean outcome, weighted by its part of the observations; its centre stands in for predictions not recorded |
| CalibrationMeaning.SmoothedBalances | src/ai/probabilityCalibrator.js:41-55 | the calibrated value is where the pull of the outcomes and that of the prior at the centre of the bin balance |
| CalibrationLaws.SameIndex | src/ai/probabilityCalibrator.js:37-39 | for at most 20 bins the cut-off at 0.999999 puts no prediction into another bin |
| CalibrationLaws.BinsAgree | src/ai/confidenceCalibration.js:112-118 | bin by bin the streaming totals are the batch totals |
| CalibrationLaws.StreamEqualsBatch | src/ai/confidenceCalibration.js:136-139 | the streaming calibration error equals the batch one, and its final clamp changes nothing |
| CalibrationLaws.ErrorBounds | src/ai/probabilityCalibrator.js:78-95 | the error is at most 1 and at least the difference of mean prediction and mean outcome; bin counts add up to the observations |
| CalibrationLaws.SumsOverBins | src/ai/probabilityCalibrator.js:79-88 | sums over bins are sums over samples |
| CalibrationLaws.SmoothedIsBetween | src/ai/probabilityCalibrator.js:41-55 | for any number of bins, a calibrated probability lies between the bin's win rate and its centre |
| CalibrationLaws.BrierIsMeanSquaredError | src/ai/probabilityCalibrator.js:89-92 | the Brier total is the plain sum of squared errors |
| TinyNetwork.Network.constructor | src/ai/tinyNeuralNetwork.js:85-93 | the arrays hold the loaded state |
| TinyNetwork.Network.Forward | src/ai/tinyNeuralNetwork.js:112-119 | the two reduce loops give the hidden layer and the probability of the current state |
| TinyNetwork.Network.Predict | src/ai/tinyNeuralNetwork.js:108-119 | clamping the inputs and running the loops gives the probability that the laws speak of |
| TinyNetwork.Network.UpdateRow | src/ai/tinyNeuralNetwork.js:164-167 | the inner loop rewrites exactly one row |
| TinyNetwork.Network.StepRow | src/ai/tinyNeuralNetwork.js:156-168 | one pass of the outer loop replaces one row by its stepped values, using the old output weight |
| TinyNetwork.Network.Update | src/ai/tinyNeuralNetwork.js:144-169 | the nested in-place loops equal the simultaneous step from the weights before the update |
| TinyNetwork.SteppedIsWell | src/ai/tinyNeuralNetwork.js:144-169 | a training step keeps the shape of the network |
| NetworkDirection.BiasFollows | src/ai/tinyNeuralNetwork.js:152-155 | whatever rate and weight are asked for, the output bias rises exactly when the prediction is below the target, cut off at 0 and 1, and falls exactly when it is above |
| NetworkDirection.OutputFollows | src/ai/tinyNeuralNetwork.js:156-160 | without decay, the logit of the new output layer on the old hidden layer rises in the first case and falls in the second |
| NetworkDirection.HiddenFollows | src/ai/tinyNeuralNetwork.js:162-167 | without decay, what a hidden unit sums up moves with the sign of (target minus prediction) times its old output weight, for activations between -1 and 1 |
| NetworkDirection.DecayShrinks | src/ai/tinyNeuralNetwork.js:159-166 | decay takes the rate times l2 of each old weight off, and leaves the biases alone |
| NetworkDirection.RateIsPositive | src/ai/tinyNeuralNetwork.js:153 | the rate is never below 0.00005, and the product that is asked for within its limits |
| NetworkDirection.FeatureMeaning | src/ai/tinyNeuralNetwork.js:108-110 | an input is its feature, cut off at three either way, and zero when missing |
| NetworkDirection.SeedMeaning | src/ai/tinyNeuralNetwork.js:25-32 | seeds are at most 0.06 and 0.05, and output seeds alternate in sign from 0.04 |
| NetworkLaws.MergedFacts | src/ai/tinyNeuralNetwork.js:56-57 | merged names are the saved ones followed by the new ones, distinct and not empty |
| NetworkLaws.LoadedIsWell | src/ai/tinyNeuralNetwork.js:52-78 | whatever was saved, what is loaded is well formed |
| NetworkLaws.LoadedExtends | src/ai/tinyNeuralNetwork.js:52-78 | a loaded network is the saved one with more columns |
| NetworkLoading.HiddenSizeMeaning | src/ai/tinyNeuralNetwork.js:55 | the saved size, else the requested one, else six, and at least two |
| NetworkLoading.LoadedMeaning | src/ai/tinyNeuralNetwork.js:52-78 | of any saved state, loading takes over every number saved for a name, wherever the name was, and fills in biases with zero and weights with seeds |
| NetworkLoading.FreshMeaning | src/ai/tinyNeuralNetwork.js:38-50 | with nothing saved the network starts without samples and biases, from seeds of its own |
| NetworkLaws.MigrationPreservesPredictions | src/ai/tinyNeuralNetwork.js:52-119 | with extra feature names it predicts the same on every input that is zero on them |
| NetworkLaws.SaveLoadIdentity | src/ai/tinyNeuralNetwork.js:52-106 | saving and loading without new names is the identity |
| NetworkLaws.StepExtends | src/ai/tinyNeuralNetwork.js:144-169 | one training step keeps the larger network an extension of the smaller |
| NetworkLaws.TrainingKeepsAgreement | src/ai/tinyNeuralNetwork.js:144-169 | so migration and any amount of training commute on such inputs |
| Promotion.AdaptiveModel.constructor | src/ai/adaptiveModel.js:703-707 | the deployment starts in the given state |
| Promotion.Blend | src/ai/adaptiveModel.js:228-270 | the loop over the regimes blends the scores with the expert weights, skipping those that are not positive |
| Promotion.AdaptiveModel.Record | src/ai/adaptiveModel.js:826-838 | the trade's errors are appended and the history cut to twice the window |
| Promotion.AdaptiveModel.MaybePromote | src/ai/adaptiveModel.js:703-746 | promotes by the rule, swapping the models, rebuilding the challenger, recording time and both mean errors and clearing the history; otherwise changes nothing |
| Promotion.AdaptiveModel.UpdateFromTrade | src/ai/adaptiveModel.js:748-839 | one trade predicts with both sides, teaches both, records the squared errors of the predictions made before, truncates and then decides |
| Promotion.ShadowIsBounded | src/ai/adaptiveModel.js:836-838 | after whatever next trade the history is at most twice the window, exactly when the window is positive |
| Promotion.ShadowGrowsWithoutWindow | src/ai/adaptiveModel.js:836-838 | with a window of zero every trade that may not promote makes it longer by one |
| Promotion.PromotionsAreSpaced | src/ai/adaptiveModel.js:703-708 | two promotions of a run are at least the required number of shadow trades apart |
| Promotion.PromotionsAreRecorded | src/ai/adaptiveModel.js:734-741 | a trade that promotes adds one record with its time, whose challenger error is better by more than the margin; any other adds none |
| Promotion.ShadowIsRecent | src/ai/adaptiveModel.js:825-838 | the kept history is always the most recent metrics since the last promotion |
| Promotion.DecisionUsesRecentMetrics | src/ai/adaptiveModel.js:703-717 | truncation never changes a decision: it promotes exactly when policy, count and the mean errors of the last window say so |
| PromotionMeaning.PromotesIff | src/ai/adaptiveModel.js:703-839 | after any run a trade promotes exactly when the policy does not forbid it and, over the last window of trades since the last promotion, at least as many as required, the mean squared distance of the challenger models' predictions, each made before its trade, plus the margin is below that of the champion models |
| PromotionMeaning.FirstTradePromotesIff | src/ai/adaptiveModel.js:703-839 | the first trade of a deployment promotes exactly when one trade is enough and the challenger was closer to the outcome by more than the margin |
| PromotionMeaning.BlendIsMean | src/ai/adaptiveModel.js:237-269 | a blend lies between the experts' predictions times the sum of the positive weights, cut off at one: a mean where they add up to one |
| PromotionMeaning.RangeDecides | src/ai/adaptiveModel.js:238 | without any weights the range model decides alone |
| PromotionMeaning.OneExpertDecides | src/ai/adaptiveModel.js:237-269 | so does an expert that has all the weight |
| PromotionMeaning.TaughtMeaning | src/ai/adaptiveModel.js:772-823 | each regime learns from the rounds meant for it, and the others stay as they are |
| Promotion.RebuiltIsSame | src/ai/onlineModel.js:288-307 | rebuilding a model that respects its bounds changes nothing |
| Promotion.PromotionSwaps | src/ai/adaptiveModel.js:718-733 | a promotion exactly exchanges the two weight sets |
| Promotion.ConstructedAreProper | src/ai/adaptiveModel.js:295-308 | models constructed from whatever was saved are not empty and respect their bounds |
| Promotion.RunIsProper | src/ai/adaptiveModel.js:748-839 | every run keeps them so |
| Promotion.EveryPromotionSwaps | src/ai/adaptiveModel.js:703-839 | in every deployment, after any run, a promotion exactly exchanges the two weight sets |
| EnvFile.ParseEnvText | src/config/envFile.js:30-39 | the loop computes the map of the last assignment of every key |
| EnvFile.NormalizeUpdates | src/config/envFile.js:8-28 | accepts exactly when every trimmed key and every value is allowed; the last value of a trimmed key wins |
| EnvFile.IndexOf | src/config/envFile.js:35 | first index of a character, the length when absent |
| EnvMeaning.TrimMeaning | src/config/envFile.js:9 | trimming takes white space off both ends and nothing else |
| EnvMeaning.SpaceMeaning | src/config/envFile.js:9 | which characters are white space, by their numbers |
| EnvMeaning.AssignmentMeaning | src/config/envFile.js:33-36 | a line with a key, blanks around it or not, and an equals sign assigns what follows the sign, blanks included |
| EnvMeaning.IgnoredMeaning | src/config/envFile.js:33-34 | comments, blank lines and lines without an equals sign assign nothing |
| EnvMeaning.UpdateMeaning | src/config/envFile.js:8-22 | which keys and values an update may have, character by character |
| EnvLaws.LinesAreClean | src/config/envFile.js:32 | no line holds a line feed, and none ends in a carriage return unless the text does or has CRLF elsewhere |
| EnvRewrite.RewriteLines | src/config/envFile.js:79-102 | the loop with its remaining map and seen set replaces the first line of each updated key and appends the missing ones; the drop branch is unreachable |
| EnvRewrite.UpdateEnvText | src/config/envFile.js:69-104 | the new text from the old one |
| EnvLaws.LinesOfJoin | src/config/envFile.js:104 | joining lines and splitting them again gives them back |
| EnvLaws.StripJoin | src/config/envFile.js:104 | stripping trailing line ends drops exactly the trailing empty lines |
| EnvLaws.PrintedReadsBack | src/config/envFile.js:30-39 | a printed update reads back as its key and value |
| EnvLaws.ParseReplaced | src/config/envFile.js:81-98 | replacing gives the new value to the updated keys assigned once and keeps everything else |
| EnvLaws.ReadBackLines | src/config/envFile.js:79-102 | reading the rewritten lines: other keys unchanged, updated keys new exactly when not assigned twice |
| EnvLaws.ReadBack | src/config/envFile.js:69-104 | the same for texts that do not end in a lone carriage return |
| EnvTwice.RewriteTwice | src/config/envFile.js:69-104 | rewriting twice is rewriting once for those texts, duplicates included |
| EnvTwiceIff.RewriteTwiceIff | src/config/envFile.js:69-104 | for all texts: exactly unless the text has no CRLF, ends in a lone carriage return and keeps that last line beside others |
| EnvLoneCr.OtherKeysKeptIff | src/config/envFile.js:69-104 | for all texts: keys that are not updated keep their values exactly when no final carriage return is lost |
| EnvLoneCr.UpdatedKeyReadsBackIff | src/config/envFile.js:69-104 | for all texts: an updated key reads back its new value exactly when it was assigned at most once or its last assignment agreed already |
| EnvExamples.AssignedTwiceKeepsOld | src/config/envFile.js:86-98 | a key assigned twice and updated to a third value reads back its second, old one |
| EnvExamples.LoneCrIsLost | src/config/envFile.js:104 | a file that ends in a lone carriage return: another key's value changes, and so does the file when it is rewritten again |
| ConfigHash.ParsePrint | src/config/configHash.js:34-42 | a parser recovers the printed tree and leaves what follows |
| ConfigHash.SerializePrintsCanon | src/config/configHash.js:34-42 | serializing is printing the tree with sorted keys |
| ConfigHash.ParseSerialize | src/config/configHash.js:34-42 | the serialized form parses to the canonical tree |
| ConfigHash.SerializeIffCanon | src/config/configHash.js:34-42 | two trees serialize alike exactly when their canonical trees are equal |
| ConfigHashLaws.AscendingIsUnique | src/config/configHash.js:39 | a list in ascending key order is determined by its members |
| ConfigHashLaws.SerializeIffSame | src/config/configHash.js:34-42 | two trees serialize alike exactly when they differ in key order only |
| HashMeaning.LessMeaning | src/config/configHash.js:39 | keys are sorted by the first character in which they differ, a proper start first |
| HashMeaning.SerializeExample | src/config/configHash.js:34-42 | an object of two keys, a list and an empty object, printed |
| PaperFill.CompletionIsFraction | src/execution/executionEngine.js:400-448 | the completion ratio is a fraction, the maker part at most 0.98, the cost at least 0.01 bps |
| PaperFill.SharesAddUp | src/execution/executionEngine.js:428-429 | maker and taker share add up to the completion ratio exactly when that ratio is not negative |
| FillMeaning.MarketOrderMeaning | src/execution/executionEngine.js:420-429 | a market order is filled in full, all of it by taking |
| FillMeaning.RestingOrderMeaning | src/execution/executionEngine.js:420-429 | a resting order makes what the maker side completes and takes the rest: with a fallback all but four per cent of what is missing, else only what the minimum asks for |
| FillMeaning.PriceMeaning | src/execution/executionEngine.js:330-453 | the price is the order's own side of the book, the middle where it is missing, worsened by the cost |
| FillMeaning.MarketCostGrows | src/execution/executionEngine.js:350-448 | a market that is worse in every respect never makes a market order cheaper |
| FillMeaning.ThinLiquidityFillsMore | src/execution/executionEngine.js:374-419 | an order for a thinly traded symbol is never filled less for it, and more exactly when neither the caps nor the floor are in the way |
| FillMeaning.ThinExample | src/execution/executionEngine.js:374-419 | a resting sale completes 0.6314 of itself, and 0.6734 when its symbol is thinly traded |
| FillExample.BusyPurchase | src/execution/executionEngine.js:330-455 | a resting purchase in a busy market, worked out term by term to its price |
| FillExample.PeggedSale | src/execution/executionEngine.js:374-448 | a pegged sale in a deep market likewise: a smaller part of the impact, and refills lower its cost |
| FillExample.PartsAreCapped | src/execution/executionEngine.js:344-434 | no part of a fill is negative or beyond its cap, but for the learned biases |
| FillExample.StormParts | src/execution/executionEngine.js:344-434 | in a storm every part is at its cap |
| FillExample.FloodParts | src/execution/executionEngine.js:344-434 | in a flood of refreshes the refill is at its cap, and the time factors at their floors |
| PaperFill.FillSizes | src/execution/executionEngine.js:454-455 | a fill never exceeds its request, and quote is quantity times price |
| PaperFill.FillNeverGains | src/execution/executionEngine.js:314-455 | one fill never raises cash plus holdings at any mark inside the book |
| PaperFill.SellForQuoteGainsIff | src/execution/executionEngine.js:449-455 | a sale for a quote amount gains exactly when its cost reaches 10000 bps and it fills |
| PaperFill.FullCostSaleGains | src/execution/executionEngine.js:449-455 | a sale for one unit of quote at 10000 bps costs no holdings |
| PaperFill.NoFreeMoney | src/execution/executionEngine.js:314-455 | no sequence of fills on a book makes money at any mark between bid and ask |
| PaperFill.BothAmountsGainIff | src/execution/executionEngine.js:454-455 | an order with both amounts gains exactly when it fills and exchanges them at better than the mark |
| PaperFill.BothAmountsGain | src/execution/executionEngine.js:454-455 | an order for one unit of quote and two of quantity at a mark of one doubles its money |
| Drawdown.MaxDrawdown | src/backtest/backtestMetrics.js:49-56 | the one-pass loop returns the largest fall from any equity to a later one, over all pairs |
| Drawdown.LargestFallIsUnique | src/backtest/backtestMetrics.js:49-56 | that maximum is unique, so the loop computes it |
| Drawdown.EquityIsSum | src/backtest/backtestMetrics.js:49-56 | the equity after some trades is the sum of their results |
| Drawdown.FallOfFive | src/backtest/backtestMetrics.js:49-56 | results of 3, -5 and 1 fall by 5 |

## Left out

- ReconcileRun.Runtime.Apply: protective-order rebuild through a broker and failing broker calls are not modelled; the brokers are none, or one that only clears flags as the command line passes, so a rebuild action changes nothing.
- ReconcileRun.Runtime.Run: as no broker call fails, the status "partial_failure" is not modelled.
- Geometry validation of protective orders: the set of symbols with valid geometry is an input.
- Balance normalisation, base-asset inference and per-source fallbacks of field names: evidence holds the values they arrive at.
- Trimming and case folding of symbols, statuses and sides; dedupe-key construction.
- Contents of audits, evidence summaries, timestamps on positions and free-text details.
- Positions as objects: they are values in a list, so two lists sharing one position object are not modelled.
- Feature statistics as objects: a model copies its statistics map but shares the statistic objects, so models built from one non-empty legacy state would count together; here every model has its own.
- UnlockSafety.FreezeLiftedOnlyOnEvidence: the bot's other writers of the freeze flags (src/runtime/tradingBot.js:16658-16704, src/runtime/exchangeSafetyReconciler.js:413) may take any step on the state, lifting included; the rules by which they do so are not part of this model.
- Random and fresh ids: a new intent's id is an input that must be fresh.
- ClockSync.Clock.Sync: the readings are an input, so requesting, sleeping between samples and overlapping synchronisations are not modelled, and the sync time is not cut to whole milliseconds.
- HTTP requests, retries, signing, rate limits and diagnostics of the client; payload contents of both caches.
- Rate-limit and ban state of the client.
- PRIOR_WEIGHTS beyond the bounded features: the priors are an input of the learner.
- OnlineModel.Model.Score: sorted contributions are not returned.
- OnlineModel.Model.UpdateFromTrade: per-symbol statistics and drift reports are not modelled.
- Promotion.AdaptiveModel.UpdateFromTrade: which regimes learn at which rate is an input; empty statistics created by scoring and the other learners it feeds are not part of this model.
- Promotion.Blend: confidence, the dominant regime and contributions are not returned.
- TinyNetwork.Network.Predict: confidence and contributions are not returned.
- Calibration.BuildSummary: bucket and summary statuses, warnings and the promotion check are not modelled.
- Calibration.Calibrator.Calibrate: warm-up confidence is not returned; restoring saved bins is not modelled.
- EnvRewrite.UpdateEnvText: reading, backing up, writing and renaming the file, and keys such as `__proto__` that a plain object treats specially, are not modelled.
- ConfigHash.SerializeIffCanon: values without JSON text, key escapes, secret redaction and SHA-256 are not modelled; tokens are assumed to be injective, and keys are compared by character.
- PaperFill.NoFreeMoney: fees are not part of a simulated fill; fallbacks for missing market fields are inputs.
- Drawdown: the other backtest metrics are plain averages.
- Floating-point rounding, NaN and infinities.
