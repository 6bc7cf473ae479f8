# Proactive staking engine — a Dafny model

This project models the decision core of a baccarat staking dashboard's
backend. On every hand a table reports its remaining cards, the margin so far,
its martingale level and the outcome. The HTTP handler turns the card count
into a hand index and calls the `ProactiveEngine`. The engine answers with an
advice: the level and stake to play, whether to stop at level 5, and whether
heavy mode (levels 6 to 8) is authorized. The handler reduces that advice to
one action code.

Around the ladder itself the engine does the following:

- It rejects replays and invalid inputs. A table with five invalid inputs is disabled.
- It folds every table's margin into a global margin.
- It lets an adaptive mission controller (`RegiaAdaptiva`) retune the caps and
  thresholds from the margin velocity.
- It keeps the heavy-mode lifecycle (`ScuderiaExtensions`): a cooldown, a heavy
  count that decays after quiet hands, and a sliding-window admission cap.

The model is organised like the source:

| module | file | source |
|---|---|---|
| `Types` | types.dfy | the records, the defaults and the merge semantics of document updates |
| `OutcomeInferer` | outcome.dfy | the level mapping and the outcome classifier |
| `Store` | store.dfy | `FirestoreService`, as a class over an in-memory store of documents |
| `Scuderia` | heavy.dfy | `ScuderiaExtensions`: heavy decay and admission cap |
| `Mission` | mission.dfy | `RegiaAdaptiva`: targets, regimes, snapshot and rating |
| `EngineHelpers` | engine_helpers.dfy | the engine's regia caps, zones, run lengths and windows |
| `Decision` | decision.dfy | `feedAndDecide` as a pure specification `Decide(db, settings, input)` |
| `Engine` | engine.dfy | the `ProactiveEngine` class; its methods are proved equal to `Decision` |
| `DecisionProperties` | decision_props.dfy | what a decision does, proved on `Decide` |
| `Handler` | handler.dfy | the HTTP handler's deck tracker, inputs and action code |

Code that changes state is modelled as classes whose methods are proved equal
to specification functions. This covers the store, the shared settings object,
the collaborators, the engine and the handler's deck object. Loops become
methods with invariants: the history trimming, the longest-run scans and the
zone searches. The properties are lemmas about the specification functions.

The engine and the mission controller share one settings object, so the
controller's retune is visible to the engine at once. `LiveSettings` is that
object, and both classes hold the same reference. The engine never calls
`inferOutcome`: it uses the outcome the caller reports. The classifier is
modelled on its own.

## Model

| member | source | states |
|---|---|---|
| Types.MergeGlobal | functions/src/ProactiveEngine/firestoreService.ts:41-46 | a global update replaces exactly the fields it names and never touches the global margin |
| Types.MergeScuderia | functions/src/ProactiveEngine/firestoreService.ts:84-86 | a heavy-lifecycle update replaces exactly the fields it names |
| Types.MergeRegia | functions/src/ProactiveEngine/firestoreService.ts:107-109 | a mission update replaces the fields it names and keeps every other one |
| Types.MergeSettings | functions/src/ProactiveEngine/firestoreService.ts:188-190 | a settings update replaces the named thresholds, caps, cooldowns and `k`; the ladder, windows, zones and caps it cannot name stay |
| Types.MergeNothingIsIdentity | functions/src/ProactiveEngine/firestoreService.ts:188-190 | an empty settings update changes nothing |
| Types.MergeTable | functions/src/ProactiveEngine/firestoreService.ts:128-133 | a table update replaces the row, advice and input it names and keeps the margin |
| Types.LiveSettings.constructor | functions/src/ProactiveEngine/index.ts:18-21 | the shared settings object starts from the settings the engine is given |
| Types.DefaultLadderStrictlyIncreasing | functions/src/ProactiveEngine/types.ts:38 | the default ladder has eight strictly increasing rungs |
| Types.L5LossIsFirstFiveRungs | functions/src/ProactiveEngine/types.ts:38-57 | the level-5 loss (61) is the sum of the first five rungs |
| Types.DefaultHotZonesOrdered | functions/src/ProactiveEngine/types.ts:43-48 | the default hot zones are well formed, ordered and disjoint |
| Types.DefaultKPositive | functions/src/ProactiveEngine/types.ts:39 | the default display factor is one `setK` accepts |
| OutcomeInferer.ApproxSymmetric | functions/src/ProactiveEngine/outcomeInferer.ts:4-6 | the tolerance test is symmetric and includes its bound of 0.6 |
| OutcomeInferer.ToLevelIndex | functions/src/ProactiveEngine/outcomeInferer.ts:8-13 | levels 1..8 map to index 0..7, anything else is clamped into 0..7 |
| OutcomeInferer.InferOutcome | functions/src/ProactiveEngine/outcomeInferer.ts:15-28 | the first hand is a tie; a lower level is Banker, a higher non-zero level Player, the same non-zero level a tie, and at level 0 a margin change within the 0.6 tolerance is a tie and otherwise Banker |
| Store.CacheTotalUpdate | functions/src/ProactiveEngine/firestoreService.ts:53-62 | overwriting one cached table margin moves the cache total by the new value minus the old one |
| Store.FoldConservesImbalance | functions/src/ProactiveEngine/firestoreService.ts:48-67 | the margin fold keeps global margin minus the sum of cached table margins unchanged, for any table and value |
| Store.FoldsBalanceFromEmpty | functions/src/ProactiveEngine/firestoreService.ts:48-67 | from an empty store, any sequence of folds leaves the global margin equal to the sum of the table margins |
| Store.UpdateGlobalConservesImbalance | functions/src/ProactiveEngine/firestoreService.ts:41-46 | the other global updates never move that balance |
| Store.GetGlobalDefaults | functions/src/ProactiveEngine/firestoreService.ts:23-39 | a missing global document reads as all-zero counters; reading creates it and later reads agree |
| Store.DefaultRegiaValues | functions/src/ProactiveEngine/firestoreService.ts:89-105 | the default mission is 900 units, 480 minutes, 10 tables, 90 per table, not completed, under the default settings |
| Store.MarkSeenIdempotent | functions/src/ProactiveEngine/firestoreService.ts:169-176 | marking a hand seen makes it seen, is idempotent and touches no other key |
| Store.Store.constructor | functions/src/ProactiveEngine/firestoreService.ts:13-16 | a new store holds no documents |
| Store.Store.GetGlobalState | functions/src/ProactiveEngine/firestoreService.ts:23-39 | returns the stored global document or the zero default, storing the default |
| Store.Store.UpdateGlobalState | functions/src/ProactiveEngine/firestoreService.ts:41-46 | merges the patch into an existing global document; reports and changes nothing when it is missing |
| Store.Store.IncrementGlobalMargin | functions/src/ProactiveEngine/firestoreService.ts:48-67 | the table's cache entry becomes the new margin and the global margin moves by the difference; the balance is kept |
| Store.Store.GetScuderiaState | functions/src/ProactiveEngine/firestoreService.ts:71-82 | returns the stored heavy-lifecycle document or the empty default, storing it |
| Store.Store.UpdateScuderiaState | functions/src/ProactiveEngine/firestoreService.ts:84-86 | merges the patch into an existing document, no change when missing |
| Store.Store.GetRegiaState | functions/src/ProactiveEngine/firestoreService.ts:89-105 | returns the stored mission document or the default mission, storing it |
| Store.Store.UpdateRegiaState | functions/src/ProactiveEngine/firestoreService.ts:107-109 | merges the patch into an existing mission document, no change when missing |
| Store.Store.GetTableState | functions/src/ProactiveEngine/firestoreService.ts:112-126 | returns the table's document or an empty row with no advice or input, storing it |
| Store.Store.UpdateTableState | functions/src/ProactiveEngine/firestoreService.ts:128-133 | merges the patch into an existing table document, no change when missing |
| Store.Store.IsInputSeen | functions/src/ProactiveEngine/firestoreService.ts:159-167 | true exactly when the (table, hand) key was marked |
| Store.Store.MarkInputSeen | functions/src/ProactiveEngine/firestoreService.ts:169-176 | adds the (table, hand) key and changes nothing else |
| Store.Store.GetSettings | functions/src/ProactiveEngine/firestoreService.ts:179-186 | returns the stored configuration or the defaults, storing them |
| Store.Store.UpdateSettings | functions/src/ProactiveEngine/firestoreService.ts:188-190 | merges the patch into an existing configuration, no change when missing |
| Store.FoldRawGlobal | functions/src/ProactiveEngine/firestoreService.ts:60-66 | the fold as written on a raw document: the new global margin is the old one (0 when missing) plus the difference, and a document it creates has no counters |
| Store.FirstFoldLeavesCountersUnset | functions/src/ProactiveEngine/firestoreService.ts:60-66 | on an empty store the fold as written leaves heavy count and cooldown unset; the corrected fold yields the zero counters |
| Store.FoldCreatesZeroCounters | functions/src/ProactiveEngine/firestoreService.ts:60-66 | the corrected fold on a store without a global document creates one with all counters zero and the margin moved by the fold's delta |
| Scuderia.DecayThreshold | functions/src/ProactiveEngine/scuderiaExtensions.ts:29 | the decay threshold is the setting, or 4 when settings are missing or the setting is 0 |
| Scuderia.DecayStepCases | functions/src/ProactiveEngine/scuderiaExtensions.ts:28-40 | a quiet hand with no cooldown and a heavy slot releases one slot once the threshold is reached; with no slot and a running cooldown it restarts the counter; otherwise it counts up; the count never goes negative |
| Scuderia.DecayWhenEnteredHeavy | functions/src/ProactiveEngine/scuderiaExtensions.ts:21-26 | entering heavy only restarts the quiet-hand counter and leaves the global document |
| Scuderia.DecayKeepsGlobalBounds | functions/src/ProactiveEngine/scuderiaExtensions.ts:31-49 | a quiet hand lowers the heavy count by at most one, never below zero, and keeps the other global fields |
| Scuderia.Recent | functions/src/ProactiveEngine/scuderiaExtensions.ts:60-62 | the filtered window holds every stored timestamp newer than the cutoff, with as many copies as stored, and nothing else |
| Scuderia.AdmissionRespectsCap | functions/src/ProactiveEngine/scuderiaExtensions.ts:52-75 | a request is refused exactly when the window already holds the cap; an admission stores the window plus now, never more than the cap |
| Scuderia.AdmissionWithoutSettings | functions/src/ProactiveEngine/scuderiaExtensions.ts:53 | without settings every request is admitted and nothing is stored |
| Scuderia.RecentKeepsNewer | functions/src/ProactiveEngine/scuderiaExtensions.ts:60-62 | a window whose timestamps are all newer than the cutoff is kept whole |
| Scuderia.AdmitIntoOpenWindow | functions/src/ProactiveEngine/scuderiaExtensions.ts:64-74 | an admission into an open window appends now to it |
| Scuderia.FifthAdmissionInWindowRefused | functions/src/ProactiveEngine/scuderiaExtensions.ts:52-75 | with cap 4 in 60 s, four admissions in a row succeed and a fifth within the window is refused |
| Scuderia.ScuderiaExtensions.constructor | functions/src/ProactiveEngine/scuderiaExtensions.ts:6 | the extensions use the engine's store |
| Scuderia.ScuderiaExtensions.ApplyHeavyDecay | functions/src/ProactiveEngine/scuderiaExtensions.ts:14-50 | the store after the call is the decay specification of the store before |
| Scuderia.ScuderiaExtensions.ApplySyncDelay | functions/src/ProactiveEngine/scuderiaExtensions.ts:8-12 | waits the configured delay exactly when settings are present and the delay is positive, otherwise not at all, and changes no state |
| Scuderia.ScuderiaExtensions.AllowHeavyGlobal | functions/src/ProactiveEngine/scuderiaExtensions.ts:52-75 | the verdict and the store are those of the admission specification |
| Mission.DefaultMissionTargets | functions/src/ProactiveEngine/regiaAdaptiva.ts:87-97 | for the default mission on one table the adjusted target is 22.5 units over 57.6 minutes |
| Mission.RegimeConditions | functions/src/ProactiveEngine/regiaAdaptiva.ts:69-161 | each regime is chosen exactly when its condition holds and no earlier one does: warm-up, completion, late, behind, ahead, on target |
| Mission.CompletedNeverCompletesAgain | functions/src/ProactiveEngine/regiaAdaptiva.ts:104 | a completed mission never selects the completion regime again |
| Mission.PhasesKeepK | functions/src/ProactiveEngine/regiaAdaptiva.ts:68-161 | no regime changes the display factor |
| Mission.WarmUpRetune | functions/src/ProactiveEngine/regiaAdaptiva.ts:69-85 | in the warm-up the fixed warm-up caps go into both settings copies and the velocity target becomes units over minutes |
| Mission.CompletionRetune | functions/src/ProactiveEngine/regiaAdaptiva.ts:104-117 | reaching the adjusted target sets the completion flag, zeroes every heavy cap and sets every cooldown to 9999 |
| Mission.LateRetune | functions/src/ProactiveEngine/regiaAdaptiva.ts:120-133 | the late phase applies the late caps, the low cap scaled to the tables |
| Mission.VelocityRegimes | functions/src/ProactiveEngine/regiaAdaptiva.ts:136-161 | behind, ahead and on target each set their own fields and keep the others |
| Mission.CompletionFlagMonotone | functions/src/ProactiveEngine/regiaAdaptiva.ts:60-162 | a retune never clears the completion flag and sets it exactly on the completion regime |
| Mission.RetuneFrame | functions/src/ProactiveEngine/regiaAdaptiva.ts:164-169 | a retune writes only the mission and settings documents; the shared settings keep every field no regime names |
| Mission.MissionParametersClamped | functions/src/ProactiveEngine/regiaAdaptiva.ts:25-38 | new parameters are clamped to at least 100 units, 60 minutes and one table, the per-table target is the rounded share, and the mission is marked not completed |
| Mission.InitializeMission | functions/src/ProactiveEngine/regiaAdaptiva.ts:12-23 | initialisation stores an uncompleted ten-table mission with at least one unit per table |
| Mission.Snapshot | functions/src/ProactiveEngine/regiaAdaptiva.ts:171-209 | the target and minutes are the mission's, scaled to the tables in play but without the efficiency factor and the time buffer; the warm-up flag; at least one table; the achievement percentage is margin over target; the velocity target is target over minutes (at least one) |
| Mission.DashboardShowsQuarterOfProgress | functions/src/ProactiveEngine/regiaAdaptiva.ts:179-194 | the dashboard's achievement is a quarter of the controller's progress toward its efficiency-scaled target, so it reads 25 % when the controller completes the mission |
| Mission.BuildValutazione | functions/src/ProactiveEngine/regiaAdaptiva.ts:211-244 | grey with velocity 0 exactly in the warm-up; otherwise red below 0.9 of target, yellow above 1.1, green between |
| Mission.ValutazioneMonotone | functions/src/ProactiveEngine/regiaAdaptiva.ts:226-239 | over the same time a larger margin never yields a slower colour |
| Mission.RegiaAdaptiva.constructor | functions/src/ProactiveEngine/regiaAdaptiva.ts:7-10 | the controller holds the engine's store and its settings object |
| Mission.RegiaAdaptiva.Initialize | functions/src/ProactiveEngine/regiaAdaptiva.ts:12-23 | writes the initial mission update into an existing mission document |
| Mission.RegiaAdaptiva.SetMissionParameters | functions/src/ProactiveEngine/regiaAdaptiva.ts:25-38 | writes the clamped mission update into an existing mission document |
| Mission.RegiaAdaptiva.GetMissionInfo | functions/src/ProactiveEngine/regiaAdaptiva.ts:40-53 | returns the targets of the mission document |
| Mission.RegiaAdaptiva.ShouldStopMission | functions/src/ProactiveEngine/regiaAdaptiva.ts:55-58 | true exactly when the mission is completed |
| Mission.RegiaAdaptiva.UpdateSettingsForPhase | functions/src/ProactiveEngine/regiaAdaptiva.ts:164-169 | merges the update into the stored configuration and into the shared settings object |
| Mission.RegiaAdaptiva.UpdateDynamicParameters | functions/src/ProactiveEngine/regiaAdaptiva.ts:60-162 | the store and shared settings are those of the retune specification |
| Mission.RegiaAdaptiva.GetDashboardSnapshot | functions/src/ProactiveEngine/regiaAdaptiva.ts:171-209 | returns the snapshot of the mission document |
| EngineHelpers.GetRegiaParams | functions/src/ProactiveEngine/index.ts:96-104 | the high caps at or above the high threshold; below it, the low caps at or below the low threshold (also when the thresholds meet, as after completion) and the mid caps strictly between |
| EngineHelpers.HighBandWins | functions/src/ProactiveEngine/index.ts:97-99 | when the bands overlap the high band wins |
| EngineHelpers.DefaultRegiaParams | functions/src/ProactiveEngine/types.ts:49-56 | under the defaults every band has one heavy slot, with cooldown 4, 3 or 2 |
| EngineHelpers.ResidualCapacity | functions/src/ProactiveEngine/index.ts:123-127 | the capacity estimate is non-negative for non-negative settings |
| EngineHelpers.DefaultResidualCapacity | functions/src/ProactiveEngine/types.ts:60-62 | under the defaults the capacity is 175 units and the debt trigger 105 |
| EngineHelpers.InHotZone | functions/src/ProactiveEngine/index.ts:106-112 | hot exactly when the caller flags it and some zone holds the hand |
| EngineHelpers.ZoneLabelFirstMatch | functions/src/ProactiveEngine/index.ts:114-121 | the label is closed exactly when a zone holds the hand, naming the first such zone; otherwise it names the hand |
| EngineHelpers.HotZoneLabel | functions/src/ProactiveEngine/index.ts:114-121 | the loop's label is the first-match label |
| EngineHelpers.MaxPRunIsLongest | functions/src/ProactiveEngine/index.ts:129-141 | the scan's result bounds every run of Player and one run of that length exists |
| EngineHelpers.GetMaxRunP | functions/src/ProactiveEngine/index.ts:129-141 | the loop computes the longest-run specification |
| EngineHelpers.LongestRunIsLongest | functions/src/ProactiveEngine/index.ts:552-567 | the backward scan's result bounds every run of equal outcomes and one run of that length exists |
| EngineHelpers.SevereRedNeedsOutcomes | functions/src/ProactiveEngine/index.ts:549-570 | under a limit of at least -2, an empty window or one of ties only is never severe |
| EngineHelpers.SixInARowIsSevere | functions/src/ProactiveEngine/index.ts:549-570 | under the defaults six Bankers with a tie among them (`b b t b b b b`) are severe: ties do not break a run |
| EngineHelpers.IsSevereRedTableSignal | functions/src/ProactiveEngine/index.ts:549-570 | the loop decides the severe-red specification |
| EngineHelpers.KeepLast | functions/src/ProactiveEngine/index.ts:327 | keeps the most recent min(length, window) entries |
| EngineHelpers.TrimWindow | functions/src/ProactiveEngine/index.ts:327 | the shifting loop leaves the most recent entries |
| EngineHelpers.PushHistory | functions/src/ProactiveEngine/index.ts:324-328 | the history update equals its specification |
| EngineHelpers.EnqueueTableOutcome | functions/src/ProactiveEngine/index.ts:540-547 | the table-window update equals its specification |
| EngineHelpers.HistoryWindow | functions/src/ProactiveEngine/index.ts:324-328 | the history holds no ties, stays within its cap and ends with the newest non-tie outcome |
| EngineHelpers.TableWindow | functions/src/ProactiveEngine/index.ts:540-547 | the table window stays within its cap and ends with the newest side |
| Decision.StakeAt | functions/src/ProactiveEngine/index.ts:320 | the stake is the ladder rung of the level, the top rung above the ladder |
| Engine.ProactiveEngine.constructor | functions/src/ProactiveEngine/index.ts:18-24 | the collaborators share the engine's store and settings object |
| Engine.ProactiveEngine.Initialize | functions/src/ProactiveEngine/index.ts:26-28 | starts a 1500-unit, 540-minute mission |
| Engine.ProactiveEngine.GetHeavyCount | functions/src/ProactiveEngine/index.ts:30-33 | returns the global heavy count |
| Engine.ProactiveEngine.SetK | functions/src/ProactiveEngine/index.ts:39-43 | a positive factor is set in the shared settings and the stored configuration; any other is refused with no change (the source throws) |
| Engine.ProactiveEngine.GetK | functions/src/ProactiveEngine/index.ts:45-47 | returns the shared settings' display factor, the one a successful `SetK` leaves |
| Engine.ProactiveEngine.GetHistory | functions/src/ProactiveEngine/index.ts:49-52 | returns the table's outcome history |
| Engine.ProactiveEngine.FeedAndDecide | functions/src/ProactiveEngine/index.ts:143-500 | the advice, the store and the shared settings are those of the decision specification |
| Engine.ProactiveEngine.Intake | functions/src/ProactiveEngine/index.ts:155-259 | loading, replay check, seen mark and validation follow the intake specification |
| Engine.ProactiveEngine.Replay | functions/src/ProactiveEngine/index.ts:176-189 | a replay advances the windows and returns the stored advice with a fresh signal |
| Engine.ProactiveEngine.Validate | functions/src/ProactiveEngine/index.ts:194-259 | the warm-up count, the grace rules and the rejection or recovery counters follow the specification |
| Engine.ProactiveEngine.AfterIntake | functions/src/ProactiveEngine/index.ts:261-316 | the fold, the retune, the mission stop and the pre-emptive stop follow the specification |
| Engine.ProactiveEngine.FoldAndTune | functions/src/ProactiveEngine/index.ts:261-277 | folds the hand's margin into the table and global totals, then retunes the shared settings and reports whether the mission is complete |
| Engine.ProactiveEngine.CheckPreemptiveStopL5 | functions/src/ProactiveEngine/index.ts:58-94 | a closed room or a debt over its trigger raises the cooldown and yields the level-5 stop, otherwise nothing |
| Engine.ProactiveEngine.Advance | functions/src/ProactiveEngine/index.ts:324-341 | windows, Player streak, hand count and velocity follow the row specification |
| Engine.ProactiveEngine.ExitAndCool | functions/src/ProactiveEngine/index.ts:343-358 | the heavy exit and the cooldown decrement follow the specification |
| Engine.ProactiveEngine.BuildAdvice | functions/src/ProactiveEngine/index.ts:319-382 | the default advice carries the ladder level's stake (the last level past the end) scaled by the factor, the hot-zone test and label, and the margin, debt and override counters of the global snapshot |
| Engine.ProactiveEngine.Prepare | functions/src/ProactiveEngine/index.ts:319-395 | the row advance, the heavy exit, the cooldown and the Dogma adjustment leave the store, row and advice given by the specification |
| Engine.ProactiveEngine.DecideAtL5 | functions/src/ProactiveEngine/index.ts:415-476 | the four-way level-5 branch follows the specification |
| Engine.ProactiveEngine.Ladder | functions/src/ProactiveEngine/index.ts:318-500 | the ladder follows the specification |
| Engine.ProactiveEngine.ContinueHeavy | functions/src/ProactiveEngine/index.ts:397-413 | the heavy continuation follows the specification |
| Engine.ProactiveEngine.CloseHand | functions/src/ProactiveEngine/index.ts:478-499 | the tooltip, the row memory, the decay and the save follow the specification |
| Engine.ProactiveEngine.SaveAdviceAndInput | functions/src/ProactiveEngine/index.ts:517-538 | stores the row, the advice and the raw input |
| DecisionProperties.AdmissionRule | functions/src/ProactiveEngine/index.ts:159-200 | an input reaches the ladder exactly when it is no replay and is valid, in its first three inputs, or at level 6+ in heavy mode |
| DecisionProperties.ReplayEffects | functions/src/ProactiveEngine/index.ts:169-189 | a replay returns the stored advice with the advanced window's signal and changes nothing but the windows |
| DecisionProperties.RejectionEffects | functions/src/ProactiveEngine/index.ts:202-252 | a rejection bumps the invalid count and clears recovery; the fifth disables the table with a stop, earlier ones warn; global state and stored advice stay |
| DecisionProperties.ThreeValidInputsReEnable | functions/src/ProactiveEngine/index.ts:254-259 | three accepted inputs in a row re-enable the table and clear the invalid count; fewer do not |
| DecisionProperties.DecayLedger | functions/src/ProactiveEngine/scuderiaExtensions.ts:14-50 | the decay writes only heavy-lifecycle fields |
| DecisionProperties.SaveLedger | functions/src/ProactiveEngine/index.ts:517-538 | the save writes only the table's row, advice and input |
| DecisionProperties.CloseHandLedger | functions/src/ProactiveEngine/index.ts:478-499 | closing a hand keeps the ledger and the validation counters and saves advice and input |
| DecisionProperties.HeavyHandLedger | functions/src/ProactiveEngine/index.ts:397-413 | the heavy continuation keeps the ledger and the validation counters and saves advice and input |
| DecisionProperties.ExitLedger | functions/src/ProactiveEngine/index.ts:343-358 | the exit and cooldown steps write only global heavy fields |
| DecisionProperties.L5StepLedger | functions/src/ProactiveEngine/index.ts:415-476 | the level-5 branch writes only global heavy and debt fields |
| DecisionProperties.LadderLedger | functions/src/ProactiveEngine/index.ts:318-500 | the ladder keeps the ledger and the validation counters and ends by saving advice and input |
| DecisionProperties.AdvanceRowEffects | functions/src/ProactiveEngine/index.ts:324-341 | Player extends the streak, Banker resets it, any other outcome keeps it; the hand count grows by one and the velocity is refreshed every 20 hands |
| DecisionProperties.AccumulatesWithinBlock | functions/src/ProactiveEngine/index.ts:335-341 | inside a 20-hand block the accumulator holds the block's margin so far |
| DecisionProperties.VelocityIsBlockMean | functions/src/ProactiveEngine/index.ts:335-341 | twenty hands after a block boundary the velocity is their margin sum over 20 and the accumulator is empty |
| DecisionProperties.ExitAndCooldownEffects | functions/src/ProactiveEngine/index.ts:343-358 | a Banker back at level 1 after level 6+ in heavy mode ends it and frees an override slot (never below 0); a running cooldown counts down by one |
| DecisionProperties.HeavyContinuationEffects | functions/src/ProactiveEngine/index.ts:390-413 | heavy mode at level 6+ always continues: authorized, one more heavy slot, cooldown at least the regime's, quiet-hand counter restarted |
| DecisionProperties.DogmaAuthorizesAtL5 | functions/src/ProactiveEngine/index.ts:390-395 | heavy mode at level 5 is authorized too (Dogma L8, "Dogma attivo L5"), with no level-5 stop, no debt booked and the cooldown only counting down |
| DecisionProperties.L5KindConditions | functions/src/ProactiveEngine/index.ts:416-464 | each level-5 branch is taken exactly under its full condition |
| DecisionProperties.NoOverrideWithoutBudget | functions/src/ProactiveEngine/index.ts:419-421 | with no concurrent override allowed the override branch is never taken |
| DecisionProperties.L5StepEffects | functions/src/ProactiveEngine/index.ts:423-475 | the stops book the level-5 loss and close one more level 5; the extension and override take a slot and the regime's cooldown and set heavy mode; only the override counts overrides |
| DecisionProperties.CloseHandEffects | functions/src/ProactiveEngine/index.ts:478-497 | closing a hand below level 6 keeps the advice flags, heavy mode, cooldown, debt and overrides |
| DecisionProperties.L5Close | functions/src/ProactiveEngine/index.ts:415-499 | from an undecided level-5 step, the branch and the close stop exactly when they do not authorize; a stop books the loss and closes one more level 5; an authorization sets the regime's cooldown and heavy mode; overrides move only with budget |
| DecisionProperties.L5Effects | functions/src/ProactiveEngine/index.ts:415-476 | at level 5 the hand stops exactly when it is not authorized; a stop books the loss; an authorization keeps the debt, sets the regime's cooldown and heavy mode, and adds a heavy slot when that cooldown is positive (the decay after it counts the level-5 hand as quiet); overrides move only with budget |
| DecisionProperties.AfterIntakeLedger | functions/src/ProactiveEngine/index.ts:261-316 | every stage after intake keeps the folded ledger and ends by saving advice and input |
| DecisionProperties.MissionStopEffects | functions/src/ProactiveEngine/index.ts:276-301 | a completed mission stops the hand at level 1 with no stake, saving the row as validation left it and moving no heavy state |
| DecisionProperties.CompletedMissionStopsEveryHand | functions/src/ProactiveEngine/index.ts:276-301 | once the mission is complete every later accepted hand is a mission stop |
| DecisionProperties.PreemptiveStopEffects | functions/src/ProactiveEngine/index.ts:303-316 | at level 5 a closed room or excess debt stops early at level 5, raising the cooldown and taking no slot |
| DecisionProperties.DecideConservesImbalance | functions/src/ProactiveEngine/index.ts:261-264 | no decision moves global margin minus the sum of cached table margins |
| DecisionProperties.SeenAfterDecide | functions/src/ProactiveEngine/index.ts:166-192 | after any decision the hand's key is seen |
| DecisionProperties.ResubmissionReplays | functions/src/ProactiveEngine/index.ts:166-189 | after a hand that was replayed or not rejected, resubmitting the same input with a finite margin is a replay |
| DecisionProperties.DecideKeepsK | functions/src/ProactiveEngine/index.ts:143-500 | no decision changes the display factor |
| Handler.DefaultDeck | functions/src/index.ts:81-83 | a new table's deck starts at the reported count, hand 0, 416 cards |
| Handler.ShoeSize | functions/src/index.ts:86-89 | the shoe size from the count after a refill: 520 above 450, 416 above 350, 312 above 250, else 416 |
| Handler.DeckState.constructor | functions/src/index.ts:81-83 | the deck object is the saved document or the default |
| Handler.DeckState.Observe | functions/src/index.ts:85-105 | the deck after a report is the deck specification |
| Handler.NewShoeRestartsCount | functions/src/index.ts:85-105 | a refill restarts the hand count at 0 with the guessed shoe size |
| Handler.CountChanges | functions/src/index.ts:96-105 | a rise recomputes the hand from cards dealt, a drop of 4+ advances one hand per four cards, a drop of 1 to 3 changes nothing |
| Handler.DeckInvariants | functions/src/index.ts:96-105 | the tracker ends within three cards above the count and the hand index stays non-negative |
| Handler.SameCountIdempotent | functions/src/index.ts:85-105 | reporting the same count twice changes nothing the second time |
| Handler.EngineHandIndex | functions/src/index.ts:109 | the engine sees the tracker's hand, or 1 while it is 0 |
| Handler.HotZoneMatchesDefaults | functions/src/index.ts:119-123 | the handler's fixed ranges are hands 11-20 and 41-70, the engine's default zones |
| Handler.NormaliseOutcome | functions/src/index.ts:74 | "B"/"b" is Banker, "T"/"t" a tie, anything else Player |
| Handler.EngineInput | functions/src/index.ts:127-138 | the engine gets the request's table, margin and elapsed time, the tracker's hand (at least 1), the normalised outcome, the level plus one, one table, no signal and the default-zone hot flag |
| Handler.ActionCode | functions/src/index.ts:140-152 | 1 on a stop, else 2 on a reset keyword, else 3 on a start keyword, else 0 |
| Handler.ReasonKeywords | functions/src/index.ts:140-152 | a reason contains "stop" exactly for the five stop reasons and never a reset or start keyword |
| Handler.StatusKeywords | functions/src/index.ts:143-145 | the prediction and status tests fire exactly on the disabled table |
| Handler.ActionCodeIsStopOrPlay | functions/src/index.ts:140-152 | the stop test holds exactly on a stop reason, a disabled table or a level-5 stop; codes 2 and 3 never occur |
| Handler.HandleHand | functions/src/index.ts:71-152 | one request: the deck is advanced, the engine decides on the built input, and the code is 1 exactly when that advice stops, 0 otherwise |

## Left out

- Firestore itself is not modelled: transactions, concurrency between requests, server timestamps and `lastUpdate` fields. The store is a value held by one object, and every call is atomic.
- An `update` of a missing document fails in Firestore. The model makes it a no-op that returns `false`; the engine ignores the failure.
- Floating point: margins and ratios are reals. NaN and infinity appear only as the `marginFinite` flag. `Math.round(x * 100) / 100` is not applied to the advice's stake and global margin or to the snapshot's achievement percentage.
- Engine.ProactiveEngine.Intake: the source treats an infinite margin equal to the stored infinite margin as the same input. The model never counts a non-finite margin as the same.
- Mission.Quot: a zero divisor (a mission of 0 minutes in the warm-up) yields 0. The source yields Infinity or NaN.
- Decision.StakeAt: an empty ladder stakes 0. The source reads an undefined rung.
- `windowW10` is a natural number. A negative window would make the source's trimming loop never end.
- The advice's `tooltipJson` is a structured record, not JSON text, and the `catch` branch around it is not modelled. `signalW10` and `signalTableW10` are an enumeration.
- Message texts are not modelled: the hot-zone label text, the rating message of `buildValutazione` and `toFixed(0)`. The reason texts and `toFixed(2)` are modelled only as far as the action code reads them.
- `applySyncDelay` only waits. The model returns the length of the wait instead of sleeping, and changes no state. The clock of `allowHeavyGlobal` is a parameter.
- `getSettings` and `getRegiaAdaptive` return the engine's own objects. In the model those objects are the engine's public constant fields.
- HTTP request parsing is not modelled: `parseInt` and `parseFloat` (their NaN results included), the `tempo` split into elapsed minutes, the credentials, the values batch and the early exit on incomplete data. The handler's inputs are already numbers.
- The `"9"` answer after an exception in the engine is not modelled; the model has no exceptions.
- `toUpperCase` and `toLowerCase` are modelled for ASCII letters only.
- The handler passes the module-level `DEFAULT_SETTINGS` object to every engine, so one request's retune is visible to the next in the same process. The model takes the settings object as a parameter of `HandleHand`.
- The engine has an `Other` outcome for any string that is not "P", "B" or "T". The handler never produces one.

## Findings

| source | as written | input that shows it | evidently intended | confidence | as-written member | corrected member |
|---|---|---|---|---|---|---|
| functions/src/ProactiveEngine/firestoreService.ts:60-66 | the margin fold writes the global document with `set(..., { merge: true })` holding only `globalMarginUnits`; on a store with no global document this creates one without `heavyCount`, `cooldown` or the other counters, so the engine's next `getGlobalState` returns it as is and reads them as `undefined` | a fresh store and any first valid hand: `feedAndDecide` folds before it ever calls `getGlobalState` | the created document carries the zero defaults that `getGlobalState` would have written | medium, not executed | Store.FirstFoldLeavesCountersUnset | Store.FoldCreatesZeroCounters |
