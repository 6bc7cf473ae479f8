/**
 * The per-hand decision of the proactive engine
 * (`ProactiveEngine.feedAndDecide`, functions/src/ProactiveEngine/index.ts),
 * as a function from the store, the shared settings and one hand's input to
 * the new store, the new settings and the advice. The engine's imperative
 * method is proved to compute exactly this function; the properties of the
 * decision are proved here, about the function.
 *
 * The stages follow the source: intake (replay, validation, the
 * disable/recover counters), the margin fold and the mission controller, the
 * mission stop, the pre-emptive level-5 stop, and the ladder (windows, streak,
 * velocity, heavy exit, cooldown, heavy continuation and the level-5 branch).
 */
module Decision {
  import opened Types
  import opened Store
  import opened OutcomeInferer
  import opened EngineHelpers
  import Scuderia
  import Mission

  /** One call of `feedAndDecide`; `marginFinite` is false for a NaN or infinite margin. */
  datatype HandInput = HandInput(
    tableId: int,
    handIndex: int,
    margineK: real,
    marginFinite: bool,
    martingalaUi: int,
    signalW10: bool,
    hotZone: bool,
    esito: Esito,
    elapsedMinutes: real,
    tables: int)

  datatype Verdict = Verdict(db: Db, settings: Settings, advice: Advice)

  // ------------------------- intake -------------------------

  predicate Invalid(i: HandInput)
  {
    i.tableId <= 0 || i.handIndex <= 0 || !i.marginFinite || i.martingalaUi < 1
  }

  function LastInputOf(i: HandInput): LastInput
  {
    LastInput(i.handIndex, i.margineK, i.marginFinite, i.martingalaUi, i.esito)
  }

  /** The stored input and the new one agree on hand, margin, level and outcome. */
  predicate SameInput(li: LastInput, i: HandInput)
  {
    li.handIndex == i.handIndex && li.marginFinite && i.marginFinite && li.margineK == i.margineK
    && li.martingalaUi == i.martingalaUi && li.esito == i.esito
  }

  /** The key was seen and the table holds an advice and an input. */
  predicate HasStoredDecision(db: Db, i: HandInput)
  {
    var ts := TableOf(db, i.tableId);
    (i.tableId, i.handIndex) in db.seen && ts.lastAdvice.Some? && ts.lastInput.Some?
  }

  predicate IsReplay(db: Db, i: HandInput)
  {
    HasStoredDecision(db, i) && SameInput(TableOf(db, i.tableId).lastInput.value, i)
  }

  /** An invalid input is still accepted during the first three inputs and while heavy mode holds at level 6 or more. */
  predicate Rejects(rs: RowState, i: HandInput)
  {
    Invalid(i) && !(rs.forceToL8Active && i.martingalaUi >= 6) && !(rs.warmInputs + 1 <= 3)
  }

  function SignalOf(severe: bool): Signal
  {
    if severe then Red else Green
  }

  /** The two outcome windows after one hand. */
  function PushOutcome(s: Settings, rs: RowState, e: Esito): RowState
  {
    rs.(history := AppendHistory(rs.history, e, s.windowW10),
        historyTable := EnqueueSide(rs.historyTable, e, s.windowW10))
  }

  /** The counters of a rejected input. */
  function RejectRow(rs: RowState): RowState
  {
    var r := rs.(invalidCount := rs.invalidCount + 1, validRecovery := 0);
    if r.invalidCount >= 5 then r.(disabled := true) else r
  }

  /** The counters of an accepted input: the third valid input in a row re-enables the table. */
  function AdmitRow(rs: RowState): RowState
  {
    var r := rs.(validRecovery := rs.validRecovery + 1);
    if r.validRecovery >= 3 then r.(disabled := false, invalidCount := 0) else r
  }

  function DisabledAdvice(t: int): Advice
  {
    Advice(t, 0, 0.0, 0.0, true, false, TableDisabled, Red, Red, false, NoTooltip, NoLabel,
           0.0, 0, 0, 0.0, PredictionDisabled, StatusDisabled)
  }

  function WarningAdvice(t: int): Advice
  {
    Advice(t, 0, 0.0, 0.0, false, false, InvalidInput, Yellow, Yellow, false, NoTooltip, NoLabel,
           0.0, 0, 0, 0.0, Safe, Warning)
  }

  datatype Intake =
    | Replayed(db: Db, advice: Advice)
    | Rejected(db: Db, advice: Advice)
    | Admitted(db: Db, rs: RowState)

  function RowPatch(rs: RowState): TablePatch
  {
    TablePatch(Some(rs), None, None)
  }

  /** Loading the table, the replay check, the seen mark and validation. */
  function IntakeSpec(db: Db, s: Settings, i: HandInput): Intake
  {
    var t := i.tableId;
    var ts := TableOf(db, t);
    var db1 := WithTable(db, t);
    var rs := ts.rowState;
    if IsReplay(db, i) then
      var rs' := PushOutcome(s, rs, i.esito);
      Replayed(UpdateTableDb(db1, t, RowPatch(rs')),
               ts.lastAdvice.value.(signalW10 := SignalOf(IsSevereRed(s, rs'.historyTable))))
    else
      var db2 := if HasStoredDecision(db, i) then db1 else MarkSeenDb(db1, t, i.handIndex);
      var rs2 := rs.(warmInputs := rs.warmInputs + 1);
      if Rejects(rs, i) then
        var rs3 := RejectRow(rs2);
        Rejected(UpdateTableDb(db2, t, RowPatch(rs3)),
                 if rs3.invalidCount >= 5 then DisabledAdvice(t) else WarningAdvice(t))
      else
        Admitted(db2, AdmitRow(rs2))
  }

  // ------------------------- the margin fold and the mission -------------------------

  function SaveDb(db: Db, t: int, rs: RowState, adv: Advice, i: HandInput): Db
  {
    UpdateTableDb(db, t, TablePatch(Some(rs), Some(adv), Some(LastInputOf(i))))
  }

  /** The hand's margin in units; `k` is floored at 1e-7. */
  function MarginUnits(s: Settings, i: HandInput): real
  {
    i.margineK / RMax(0.0000001, s.k)
  }

  function StopWinAdvice(s: Settings, i: HandInput, g: GlobalState, rs: RowState): Advice
  {
    Advice(i.tableId, 0, 0.0, g.globalMarginUnits * s.k, true, false, StopWin, Green, Green, false, NoTooltip,
           ZoneLabelOf(s.hotZones, i.handIndex), g.portfolioDebtUnits, g.hotOverridesActive,
           g.hotOverridesUsedThisShoe, rs.vmLocal20, StopMission, MissionComplete)
  }

  /** The pre-emptive stop: heavy room closed, a cooldown running, or the portfolio debt over its trigger. */
  predicate PreemptiveStop(s: Settings, g: GlobalState)
  {
    var rp := GetRegiaParams(s, g.globalMarginUnits);
    g.heavyCount >= rp.hmax || g.cooldown > 0 || g.portfolioDebtUnits > s.debtTriggerRatio * ResidualCapacity(s)
  }

  /** The advice `checkPreemptiveStopL5` builds. */
  function PreemptiveAdvice(s: Settings, t: int, g: GlobalState): Advice
  {
    Advice(t, 4, 0.0, g.globalMarginUnits * s.k, true, false, StopL5Sync, Green, Green, false, NoTooltip, NoLabel,
           g.portfolioDebtUnits, g.hotOverridesActive, g.hotOverridesUsedThisShoe, 0.0, StopL5, Active)
  }

  /** The pre-emptive advice as `feedAndDecide` returns it. */
  function EarlyStopAdvice(s: Settings, i: HandInput, g: GlobalState): Advice
  {
    PreemptiveAdvice(s, i.tableId, g).(reason := StopL5Early, hotZone := false, signalW10 := Green,
                                       hotZoneLabel := ZoneLabelOf(s.hotZones, i.handIndex), prediction := StopL5)
  }

  function CooldownPatch(c: int): GlobalPatch
  {
    NoGlobalChange.(cooldown := Some(c))
  }

  /** Everything after an accepted input. */
  function AfterIntake(db: Db, s: Settings, i: HandInput, rs: RowState): Verdict
  {
    var t := i.tableId;
    var units := MarginUnits(s, i);
    var db3 := WithGlobal(FoldDb(db, t, units));
    var g := GlobalOf(db3);
    var tuned := Mission.Retune(db3, s, g.globalMarginUnits, i.elapsedMinutes, i.tables);
    var s2 := tuned.settings;
    var stop := RegiaOf(tuned.db).missionCompleted;
    var db4 := WithRegia(tuned.db);
    if stop then
      var adv := StopWinAdvice(s2, i, g, rs);
      Verdict(SaveDb(db4, t, rs, adv, i), s2, adv)
    else if i.martingalaUi == 5 then
      var g5 := GlobalOf(db4);
      var db5 := WithGlobal(db4);
      if PreemptiveStop(s2, g5) then
        var rp := GetRegiaParams(s2, g5.globalMarginUnits);
        var adv := EarlyStopAdvice(s2, i, g5);
        Verdict(SaveDb(UpdateGlobalDb(db5, CooldownPatch(Max(g5.cooldown, rp.cdn))), t, rs, adv, i), s2, adv)
      else
        Ladder(db5, s2, i, rs, g, units)
    else
      Ladder(db4, s2, i, rs, g, units)
  }

  // ------------------------- the ladder -------------------------

  /** The rung for a level, the top rung past the end; an empty ladder stakes nothing. */
  function StakeAt(levels: seq<real>, idx: nat): (stake: real)
    ensures |levels| > 0 && idx < |levels| ==> stake == levels[idx]
    ensures |levels| > 0 && idx >= |levels| ==> stake == levels[|levels| - 1]
    ensures |levels| == 0 ==> stake == 0.0
  {
    if |levels| == 0 then 0.0 else levels[Min(idx, |levels| - 1)]
  }

  function NextRunP(runP: int, e: Esito): int
  {
    if e == P then runP + 1 else if e == B then 0 else runP
  }

  /** Windows, Player streak, hand count and the 20-hand velocity after one accepted hand. */
  function AdvanceRow(s: Settings, rs: RowState, e: Esito, margineK: real): RowState
  {
    var r := PushOutcome(s, rs, e).(runP := NextRunP(rs.runP, e));
    var n := rs.handCount + 1;
    var acc := rs.margineAccum + margineK;
    if n % 20 == 0 then r.(handCount := n, vmLocal20 := acc / 20.0, margineAccum := 0.0)
    else r.(handCount := n, margineAccum := acc)
  }

  function FinalizeRow(rs: RowState, handIndex: int, levelIdx: int, units: real, stake: real): RowState
  {
    rs.(prevMazzo := Some(handIndex), prevLevel := levelIdx, prevMargine := units, prevStake := stake)
  }

  datatype Step = Step(db: Db, rs: RowState, adv: Advice)

  datatype L5Kind = HotRedStop | Vm20Extension | HotOverride | DefaultStop

  /** Whether the override budget has room, concurrent and per shoe. */
  predicate CanOverride(s: Settings, g: GlobalState)
  {
    g.hotOverridesActive < s.maxHotOverridesConcurrent && g.hotOverridesUsedThisShoe < s.maxHotOverridesPerShoe
  }

  /** The branch taken at level 5 without heavy mode, first match wins. */
  function L5KindOf(s: Settings, g: GlobalState, rs: RowState, inHot: bool, severe: bool): L5Kind
  {
    var rp := GetRegiaParams(s, g.globalMarginUnits);
    var roomCooldown := g.cooldown > 0;
    var hmaxClosed := g.heavyCount >= rp.hmax;
    var triggerDebt := g.portfolioDebtUnits > s.debtTriggerRatio * ResidualCapacity(s);
    if inHot || severe then HotRedStop
    else if rs.vmLocal20 > 0.0 && !roomCooldown && !hmaxClosed then Vm20Extension
    else if triggerDebt && !roomCooldown && !hmaxClosed && CanOverride(s, g) && rs.runP < 5 then HotOverride
    else DefaultStop
  }

  /** The effects of the level-5 branch on the store, the row and the advice. */
  function L5Step(st: Step, s: Settings, g: GlobalState, kind: L5Kind): Step
  {
    var rp := GetRegiaParams(s, g.globalMarginUnits);
    match kind
    case HotRedStop =>
      Step(UpdateGlobalDb(st.db, NoGlobalChange.(portfolioDebtUnits := Some(g.portfolioDebtUnits + s.l5LossUnits))),
           st.rs.(l5ClosedCount := st.rs.l5ClosedCount + 1),
           st.adv.(stopAtL5 := true, reason := StopL5HotRed, prediction := StopL5))
    case Vm20Extension =>
      Step(UpdateGlobalDb(st.db, NoGlobalChange.(heavyCount := Some(g.heavyCount + 1), cooldown := Some(rp.cdn))),
           st.rs.(forceToL8Active := true),
           st.adv.(authorizedHeavy := true, stopAtL5 := false, reason := DogmaExtendedVm20(st.rs.vmLocal20),
                   prediction := L6Authorized))
    case HotOverride =>
      Step(UpdateGlobalDb(st.db, GlobalPatch(Some(g.heavyCount + 1), Some(rp.cdn), None,
                                             Some(g.hotOverridesActive + 1), Some(g.hotOverridesUsedThisShoe + 1))),
           st.rs.(forceToL8Active := true),
           st.adv.(authorizedHeavy := true, stopAtL5 := false, reason := OverrideHot, prediction := L6Authorized))
    case DefaultStop =>
      Step(UpdateGlobalDb(st.db, NoGlobalChange.(portfolioDebtUnits := Some(g.portfolioDebtUnits + s.l5LossUnits))),
           st.rs.(l5ClosedCount := st.rs.l5ClosedCount + 1),
           st.adv.(stopAtL5 := true, authorizedHeavy := false, reason := StopL5Default, prediction := StopL5))
  }

  /** The advice before the heavy and level-5 rules. */
  function BaseAdvice(s: Settings, i: HandInput, g: GlobalState, rs: RowState, levelIdx: int, stake: real): Advice
  {
    Advice(i.tableId, levelIdx, stake * s.k, g.globalMarginUnits * s.k, false, false, DefaultReason, Green, Green,
           i.hotZone && InZones(s.hotZones, i.handIndex), NoTooltip, ZoneLabelOf(s.hotZones, i.handIndex),
           g.portfolioDebtUnits, g.hotOverridesActive, g.hotOverridesUsedThisShoe, rs.vmLocal20, Safe, Active)
  }

  datatype RowAndDb = RowAndDb(db: Db, rs: RowState)

  /** Heavy exit and the cooldown decrement, both computed from the snapshot `g`. */
  function ExitAndCooldown(db: Db, g: GlobalState, rs: RowState, e: Esito, levelIdx: int): RowAndDb
  {
    var exits := e == B && rs.prevLevel >= 5 && levelIdx == 0 && rs.forceToL8Active;
    var rs1 := if exits then rs.(forceToL8Active := false) else rs;
    var db1 := if exits then UpdateGlobalDb(db, NoGlobalChange.(hotOverridesActive := Some(Max(0, g.hotOverridesActive - 1))))
               else db;
    var db2 := if g.cooldown > 0 then UpdateGlobalDb(db1, CooldownPatch(g.cooldown - 1)) else db1;
    RowAndDb(db2, rs1)
  }

  /** Heavy mode at level 5 or more is always authorized. */
  function DogmaAdvice(adv: Advice, rs: RowState, levelIdx: int): Advice
  {
    if rs.forceToL8Active && levelIdx >= 4 then
      adv.(authorizedHeavy := true, stopAtL5 := false, prediction := DogmaL8, reason := DogmaActive(levelIdx + 1))
    else adv
  }

  /** The store, the row and the advice of the heavy continuation (level 6 or more in heavy mode). */
  function Continuation(st: Step, s: Settings, g: GlobalState, levelIdx: int): Step
  {
    var rp := GetRegiaParams(s, g.globalMarginUnits);
    Step(UpdateGlobalDb(st.db, NoGlobalChange.(heavyCount := Some(g.heavyCount + 1), cooldown := Some(Max(g.cooldown, rp.cdn)))),
         st.rs,
         st.adv.(authorizedHeavy := true, reason := DogmaLevel(levelIdx + 1), prediction := DogmaL8))
  }

  function DiagnosticsOf(s: Settings, i: HandInput, g: GlobalState, rs: RowState): Tooltip
  {
    var rp := GetRegiaParams(s, g.globalMarginUnits);
    Diagnostics(i.handIndex, rs.runP, MaxPRun(rs.history), g.heavyCount, rp.hmax, rp.cdn, g.cooldown)
  }

  /** The heavy continuation, then the row's memory of this hand, the decay and the save. */
  function HeavyHand(st: Step, s: Settings, i: HandInput, g: GlobalState, levelIdx: int, units: real, stake: real): Verdict
  {
    var st1 := Continuation(st, s, g, levelIdx);
    var db4 := Scuderia.DecayDb(st1.db, Some(s), st1.adv.authorizedHeavy && st1.adv.levelIndex >= 5);
    Verdict(SaveDb(db4, i.tableId, FinalizeRow(st1.rs, i.handIndex, levelIdx, units, stake), st1.adv, i), s, st1.adv)
  }

  /** The diagnostics tooltip, then the row's memory of this hand, the decay and the save. */
  function CloseHand(st: Step, s: Settings, i: HandInput, g: GlobalState, levelIdx: int, units: real, stake: real): Verdict
  {
    var adv := st.adv.(tooltip := DiagnosticsOf(s, i, g, st.rs));
    var db4 := Scuderia.DecayDb(st.db, Some(s), adv.authorizedHeavy && adv.levelIndex >= 5);
    Verdict(SaveDb(db4, i.tableId, FinalizeRow(st.rs, i.handIndex, levelIdx, units, stake), adv, i), s, adv)
  }

  /** The ladder stage; `g` is the global snapshot taken right after the fold. */
  function Ladder(db: Db, s: Settings, i: HandInput, rs: RowState, g: GlobalState, units: real): Verdict
  {
    var levelIdx := ToLevelIndex(i.martingalaUi);
    var stake := StakeAt(s.levels, levelIdx);
    var ec := ExitAndCooldown(db, g, AdvanceRow(s, rs, i.esito, i.margineK), i.esito, levelIdx);
    var rs2 := ec.rs;
    var adv1 := DogmaAdvice(BaseAdvice(s, i, g, rs2, levelIdx, stake), rs2, levelIdx);
    if levelIdx >= 5 && rs2.forceToL8Active then
      HeavyHand(Step(ec.db, rs2, adv1), s, i, g, levelIdx, units, stake)
    else if levelIdx == 4 && !rs2.forceToL8Active then
      var kind := L5KindOf(s, g, rs2, adv1.hotZone, IsSevereRed(s, rs2.historyTable));
      CloseHand(L5Step(Step(ec.db, rs2, adv1), s, g, kind), s, i, g, levelIdx, units, stake)
    else
      CloseHand(Step(ec.db, rs2, adv1), s, i, g, levelIdx, units, stake)
  }

  // ------------------------- the whole decision -------------------------

  /** `feedAndDecide`: the new store, the new shared settings and the advice. */
  function Decide(db: Db, s: Settings, i: HandInput): Verdict
  {
    match IntakeSpec(db, s, i)
    case Replayed(db1, adv) => Verdict(db1, s, adv)
    case Rejected(db1, adv) => Verdict(db1, s, adv)
    case Admitted(db1, rs) => AfterIntake(db1, s, i, rs)
  }
}
