/**
 * The proactive engine (`ProactiveEngine`, functions/src/ProactiveEngine/index.ts).
 *
 * The engine, its mission controller and its heavy-lifecycle helper share one
 * store and one settings object. `FeedAndDecide` runs the source's steps in
 * the source's order, writing to the store as it goes, and is proved to
 * compute `Decision.Decide`.
 */
module Engine {
  import opened Types
  import opened Store
  import opened OutcomeInferer
  import opened EngineHelpers
  import opened Decision
  import Scuderia
  import Mission

  class ProactiveEngine {
    const store: Store
    /** The settings object; the mission controller holds the same one. */
    const live: LiveSettings
    const scuderia: Scuderia.ScuderiaExtensions
    const regia: Mission.RegiaAdaptiva

    /** The collaborators share the engine's store and settings. */
    predicate Valid()
    {
      scuderia.store == store && regia.store == store && regia.live == live
    }

    constructor (store: Store, live: LiveSettings)
      ensures this.store == store && this.live == live
      ensures Valid()
    {
      this.store := store;
      this.live := live;
      scuderia := new Scuderia.ScuderiaExtensions(store);
      regia := new Mission.RegiaAdaptiva(store, live);
    }

    /** Starts a 1500-unit, 540-minute mission. */
    method Initialize() returns (ok: bool)
      requires Valid()
      modifies store
      ensures ok == old(store.State()).regia.Some?
      ensures store.State() == UpdateRegiaDb(old(store.State()), Mission.InitPatch(1500.0, 540.0, live.value))
    {
      ok := regia.Initialize(1500.0, 540.0);
    }

    method GetHeavyCount() returns (n: int)
      modifies store
      ensures n == GlobalOf(old(store.State())).heavyCount
      ensures store.State() == WithGlobal(old(store.State()))
    {
      var state := store.GetGlobalState();
      n := state.heavyCount;
    }

    /** The display factor of the shared settings object, as `SetK` last left it. */
    function GetK(): (k: real)
      reads live
      ensures k == live.value.k
    {
      live.value.k
    }

    /**
     * Sets the display factor in the shared settings and in the stored
     * configuration; a factor that is not positive is refused and changes
     * nothing.
     */
    method SetK(k: real) returns (ok: bool)
      modifies store, live
      ensures ok <==> k > 0.0
      ensures !ok ==> store.State() == old(store.State()) && live.value == old(live.value)
      ensures ok ==> live.value == old(live.value).(k := k) && GetK() == k
      ensures ok ==> store.State() == UpdateConfigDb(old(store.State()), NoSettingsChange.(k := Some(k)))
    {
      if k <= 0.0 {
        return false;
      }
      live.value := live.value.(k := k);
      var _ := store.UpdateSettings(NoSettingsChange.(k := Some(k)));
      ok := true;
    }

    method GetHistory(tableId: int) returns (history: seq<Esito>)
      modifies store
      ensures history == TableOf(old(store.State()), tableId).rowState.history
      ensures store.State() == WithTable(old(store.State()), tableId)
    {
      var tableState := store.GetTableState(tableId);
      history := tableState.rowState.history;
    }

    method FeedAndDecide(i: HandInput) returns (adv: Advice)
      requires Valid()
      modifies store, live
      ensures Verdict(store.State(), live.value, adv) == Decide(old(store.State()), old(live.value), i)
    {
      var early, rs := Intake(i);
      if early.Some? {
        return early.value;
      }
      adv := AfterIntake(i, rs);
    }

    /** Loading the table, the replay check, the seen mark and validation; `None` lets the hand through. */
    method Intake(i: HandInput) returns (early: Option<Advice>, rs: RowState)
      modifies store
      ensures var r := IntakeSpec(old(store.State()), live.value, i);
        && store.State() == r.db
        && (early.None? <==> r.Admitted?)
        && (early.Some? ==> early.value == r.advice)
        && (early.None? ==> rs == r.rs)
    {
      ghost var db0 := store.State();
      var tableId, handIndexMazzo := i.tableId, i.handIndex;
      var tableState := store.GetTableState(tableId);
      rs := tableState.rowState;
      ghost var db1 := store.State();
      assert db1 == WithTable(db0, tableId) && tableState == TableOf(db0, tableId);

      var invalid := tableId <= 0 || handIndexMazzo <= 0 || !i.marginFinite || i.martingalaUi < 1;

      var keySeen := store.IsInputSeen(tableId, handIndexMazzo);
      assert keySeen == ((tableId, handIndexMazzo) in db0.seen);

      if keySeen && tableState.lastAdvice.Some? && tableState.lastInput.Some? {
        assert HasStoredDecision(db0, i);
        var lastIn := tableState.lastInput.value;
        var sameHand := lastIn.handIndex == handIndexMazzo;
        var sameMargine := lastIn.marginFinite && i.marginFinite && lastIn.margineK == i.margineK;
        var sameMartingala := lastIn.martingalaUi == i.martingalaUi;
        var sameEsito := lastIn.esito == i.esito;

        if sameHand && sameMargine && sameMartingala && sameEsito {
          assert IsReplay(db0, i);
          var lastAdv := Replay(i, rs, tableState.lastAdvice.value);
          return Some(lastAdv), rs;
        }
        assert !IsReplay(db0, i) && store.State() == db1;
      } else {
        assert !HasStoredDecision(db0, i);
        store.MarkInputSeen(tableId, handIndexMazzo);
        assert store.State() == MarkSeenDb(db1, tableId, handIndexMazzo);
      }

      early, rs := Validate(i, rs, invalid);
    }

    /** A resubmitted hand: the outcome windows advance, the stored advice is returned with a fresh signal. */
    method Replay(i: HandInput, rs0: RowState, lastAdvice: Advice) returns (adv: Advice)
      modifies store
      ensures var rs := PushOutcome(live.value, rs0, i.esito);
        && store.State() == UpdateTableDb(old(store.State()), i.tableId, RowPatch(rs))
        && adv == lastAdvice.(signalW10 := SignalOf(IsSevereRed(live.value, rs.historyTable)))
    {
      var rs := rs0;
      var history := PushHistory(rs.history, i.esito, live.value.windowW10);
      rs := rs.(history := history);
      var historyTable := EnqueueTableOutcome(rs.historyTable, i.esito, live.value.windowW10);
      rs := rs.(historyTable := historyTable);

      adv := lastAdvice;
      var severe := IsSevereRedTableSignal(live.value, rs.historyTable);
      adv := adv.(signalW10 := if severe then Red else Green);

      var _ := store.UpdateTableState(i.tableId, TablePatch(Some(rs), None, None));
    }

    /** The warm-up count, the grace rules, and the rejection or recovery counters. */
    method Validate(i: HandInput, rs0: RowState, invalid: bool) returns (early: Option<Advice>, rs: RowState)
      requires invalid == Invalid(i)
      modifies store
      ensures var rs2 := rs0.(warmInputs := rs0.warmInputs + 1);
        && (early.Some? <==> Rejects(rs0, i))
        && (early.Some? ==>
              var rs3 := RejectRow(rs2);
              && store.State() == UpdateTableDb(old(store.State()), i.tableId, RowPatch(rs3))
              && early.value == if rs3.invalidCount >= 5 then DisabledAdvice(i.tableId) else WarningAdvice(i.tableId))
        && (early.None? ==> store.State() == old(store.State()) && rs == AdmitRow(rs2))
    {
      var tableId := i.tableId;
      rs := rs0.(warmInputs := rs0.warmInputs + 1);
      var inGrace := rs.warmInputs <= 3;
      var isInvalid := invalid;

      if invalid && rs.forceToL8Active && i.martingalaUi >= 6 {
        isInvalid := false;
      }
      if invalid && inGrace {
        isInvalid := false;
      }

      if isInvalid {
        rs := rs.(invalidCount := rs.invalidCount + 1, validRecovery := 0);

        if rs.invalidCount >= 5 {
          rs := rs.(disabled := true);
          var _ := store.UpdateTableState(tableId, TablePatch(Some(rs), None, None));
          return Some(DisabledAdvice(tableId)), rs;
        }

        var _ := store.UpdateTableState(tableId, TablePatch(Some(rs), None, None));
        return Some(WarningAdvice(tableId)), rs;
      }

      rs := rs.(validRecovery := rs.validRecovery + 1);
      if rs.validRecovery >= 3 {
        rs := rs.(disabled := false, invalidCount := 0);
      }
      early := None;
    }

    /** The margin fold, the global snapshot, the mission controller and the mission-stop query. */
    method FoldAndTune(i: HandInput) returns (globalState: GlobalState, stop: bool)
      requires Valid()
      modifies store, live
      ensures var db3 := WithGlobal(FoldDb(old(store.State()), i.tableId, MarginUnits(old(live.value), i)));
        var tuned := Mission.Retune(db3, old(live.value), GlobalOf(db3).globalMarginUnits, i.elapsedMinutes, i.tables);
        && globalState == GlobalOf(db3)
        && store.State() == WithRegia(tuned.db) && live.value == tuned.settings
        && stop == RegiaOf(tuned.db).missionCompleted
    {
      var k := RMax(0.0000001, live.value.k);
      var margineUnits := i.margineK / k;
      store.IncrementGlobalMargin(i.tableId, margineUnits);

      globalState := store.GetGlobalState();

      regia.UpdateDynamicParameters(globalState.globalMarginUnits, i.elapsedMinutes, i.tables);

      stop := regia.ShouldStopMission();
    }

    /** The margin fold, the mission controller, the mission stop and the pre-emptive stop, then the ladder. */
    method AfterIntake(i: HandInput, rs: RowState) returns (adv: Advice)
      requires Valid()
      modifies store, live
      ensures Verdict(store.State(), live.value, adv) == Decision.AfterIntake(old(store.State()), old(live.value), i, rs)
    {
      var tableId, handIndexMazzo := i.tableId, i.handIndex;
      var margineUnits := MarginUnits(live.value, i);
      var globalState, stop := FoldAndTune(i);

      if stop {
        var zoneLabel := HotZoneLabel(live.value.hotZones, handIndexMazzo);
        var stopAdvice := Advice(tableId, 0, 0.0, globalState.globalMarginUnits * live.value.k, true, false, StopWin,
                                 Green, Green, false, NoTooltip, zoneLabel, globalState.portfolioDebtUnits,
                                 globalState.hotOverridesActive, globalState.hotOverridesUsedThisShoe, rs.vmLocal20,
                                 StopMission, MissionComplete);
        SaveAdviceAndInput(tableId, rs, stopAdvice, i);
        return stopAdvice;
      }

      if i.martingalaUi == 5 {
        var early := CheckPreemptiveStopL5(tableId);
        if early.Some? {
          var e := early.value;
          var zoneLabel := HotZoneLabel(live.value.hotZones, handIndexMazzo);
          e := e.(reason := StopL5Early, hotZone := false, signalW10 := Green, hotZoneLabel := zoneLabel,
                  prediction := StopL5);
          SaveAdviceAndInput(tableId, rs, e, i);
          return e;
        }
      }

      adv := Ladder(i, rs, globalState, margineUnits);
    }

    /** The pre-emptive level-5 stop: on a closed room or a debt over its trigger, raises the cooldown and builds the stop. */
    method CheckPreemptiveStopL5(tableId: int) returns (early: Option<Advice>)
      modifies store
      ensures var g := GlobalOf(old(store.State()));
        var rp := GetRegiaParams(live.value, g.globalMarginUnits);
        && (early.Some? <==> PreemptiveStop(live.value, g))
        && (early.Some? ==> early.value == PreemptiveAdvice(live.value, tableId, g))
        && (early.Some? ==>
              store.State() == UpdateGlobalDb(WithGlobal(old(store.State())), CooldownPatch(Max(g.cooldown, rp.cdn))))
        && (early.None? ==> store.State() == WithGlobal(old(store.State())))
    {
      var globalState := store.GetGlobalState();
      var s := live.value;
      var regiaParams := GetRegiaParams(s, globalState.globalMarginUnits);

      var capResidua := ResidualCapacity(s);
      var triggerDebt := globalState.portfolioDebtUnits > s.debtTriggerRatio * capResidua;
      var roomClosed := globalState.heavyCount >= regiaParams.hmax || globalState.cooldown > 0;

      if roomClosed || triggerDebt {
        var _ := store.UpdateGlobalState(CooldownPatch(Max(globalState.cooldown, regiaParams.cdn)));
        return Some(Advice(tableId, 4, 0.0, globalState.globalMarginUnits * s.k, true, false, StopL5Sync, Green, Green,
                           false, NoTooltip, NoLabel, globalState.portfolioDebtUnits, globalState.hotOverridesActive,
                           globalState.hotOverridesUsedThisShoe, 0.0, StopL5, Active));
      }
      return None;
    }

    /** Windows, Player streak, hand count and the 20-hand velocity after one accepted hand. */
    method Advance(s: Settings, rs0: RowState, outcome: Esito, margineK: real) returns (rs: RowState)
      ensures rs == AdvanceRow(s, rs0, outcome, margineK)
    {
      rs := rs0;
      var history := PushHistory(rs.history, outcome, s.windowW10);
      rs := rs.(history := history);
      var historyTable := EnqueueTableOutcome(rs.historyTable, outcome, s.windowW10);
      rs := rs.(historyTable := historyTable);

      if outcome == P {
        rs := rs.(runP := rs.runP + 1);
      } else if outcome == B {
        rs := rs.(runP := 0);
      }

      rs := rs.(handCount := rs.handCount + 1);
      rs := rs.(margineAccum := rs.margineAccum + margineK);
      if rs.handCount % 20 == 0 {
        rs := rs.(vmLocal20 := rs.margineAccum / 20.0);
        rs := rs.(margineAccum := 0.0);
      }
    }

    /** Heavy exit on a Banker loss back to level 1, then the cooldown decrement, both from the snapshot. */
    method ExitAndCool(globalState: GlobalState, rs0: RowState, outcome: Esito, levelIdx: int) returns (rs: RowState)
      modifies store
      ensures var ec := ExitAndCooldown(old(store.State()), globalState, rs0, outcome, levelIdx);
        store.State() == ec.db && rs == ec.rs
    {
      rs := rs0;
      var exitingHeavy := outcome == B && rs.prevLevel >= 5 && levelIdx == 0;
      if exitingHeavy && rs.forceToL8Active {
        rs := rs.(forceToL8Active := false);
        var newHotOverrides := Max(0, globalState.hotOverridesActive - 1);
        var _ := store.UpdateGlobalState(NoGlobalChange.(hotOverridesActive := Some(newHotOverrides)));
      }

      if globalState.cooldown > 0 {
        var _ := store.UpdateGlobalState(CooldownPatch(globalState.cooldown - 1));
      }
    }

    /** The four-way level-5 branch. */
    method DecideAtL5(s: Settings, globalState: GlobalState, rs0: RowState, adv0: Advice, inHot: bool, severeRed: bool)
      returns (rs: RowState, adv: Advice)
      modifies store
      ensures Step(store.State(), rs, adv)
           == L5Step(Step(old(store.State()), rs0, adv0), s, globalState, L5KindOf(s, globalState, rs0, inHot, severeRed))
    {
      rs, adv := rs0, adv0;
      var regiaParams := GetRegiaParams(s, globalState.globalMarginUnits);
      var hmaxClosed := globalState.heavyCount >= regiaParams.hmax;
      var roomCooldown := globalState.cooldown > 0;
      var capResidua := ResidualCapacity(s);
      var triggerDebt := globalState.portfolioDebtUnits > s.debtTriggerRatio * capResidua;
      var canOverride := globalState.hotOverridesActive < s.maxHotOverridesConcurrent
                         && globalState.hotOverridesUsedThisShoe < s.maxHotOverridesPerShoe;

      if inHot || severeRed {
        adv := adv.(stopAtL5 := true, reason := StopL5HotRed, prediction := StopL5);
        var _ := store.UpdateGlobalState(NoGlobalChange.(portfolioDebtUnits := Some(globalState.portfolioDebtUnits + s.l5LossUnits)));
        rs := rs.(l5ClosedCount := rs.l5ClosedCount + 1);
      } else if rs.vmLocal20 > 0.0 && !roomCooldown && !hmaxClosed {
        var _ := scuderia.ApplySyncDelay(Some(s));
        adv := adv.(authorizedHeavy := true, stopAtL5 := false, reason := DogmaExtendedVm20(rs.vmLocal20),
                    prediction := L6Authorized);
        var _ := store.UpdateGlobalState(NoGlobalChange.(heavyCount := Some(globalState.heavyCount + 1),
                                                         cooldown := Some(regiaParams.cdn)));
        rs := rs.(forceToL8Active := true);
      } else if triggerDebt && !roomCooldown && !hmaxClosed && canOverride && rs.runP < 5 {
        var _ := scuderia.ApplySyncDelay(Some(s));
        adv := adv.(authorizedHeavy := true, stopAtL5 := false, reason := OverrideHot, prediction := L6Authorized);
        var _ := store.UpdateGlobalState(GlobalPatch(Some(globalState.heavyCount + 1), Some(regiaParams.cdn), None,
                                                     Some(globalState.hotOverridesActive + 1),
                                                     Some(globalState.hotOverridesUsedThisShoe + 1)));
        rs := rs.(forceToL8Active := true);
      } else {
        adv := adv.(stopAtL5 := true, authorizedHeavy := false, reason := StopL5Default, prediction := StopL5);
        var _ := store.UpdateGlobalState(NoGlobalChange.(portfolioDebtUnits := Some(globalState.portfolioDebtUnits + s.l5LossUnits)));
        rs := rs.(l5ClosedCount := rs.l5ClosedCount + 1);
      }
    }

    /** The advice before the heavy and level-5 rules: the level's stake, the hot-zone test and the label. */
    method BuildAdvice(s: Settings, i: HandInput, globalState: GlobalState, rs: RowState, levelIdx: int)
      returns (adv: Advice)
      requires 0 <= levelIdx
      ensures adv == BaseAdvice(s, i, globalState, rs, levelIdx, StakeAt(s.levels, levelIdx))
    {
      var stakeUnitsNow := if |s.levels| == 0 then 0.0 else s.levels[Min(levelIdx, |s.levels| - 1)];
      var stakeShownK := stakeUnitsNow * s.k;
      var hot := InHotZone(s.hotZones, i.handIndex, i.hotZone);
      var zoneLabel := HotZoneLabel(s.hotZones, i.handIndex);
      adv := Advice(i.tableId, levelIdx, stakeShownK, globalState.globalMarginUnits * s.k, false, false, DefaultReason,
                    Green, Green, hot, NoTooltip, zoneLabel, globalState.portfolioDebtUnits,
                    globalState.hotOverridesActive, globalState.hotOverridesUsedThisShoe, rs.vmLocal20, Safe, Active);
    }

    /**
     * The ladder's common start: the row advances, the heavy exit and the
     * cooldown decrement are applied, and the base advice is built.
     */
    method Prepare(i: HandInput, rs0: RowState, globalState: GlobalState) returns (rs: RowState, adv: Advice)
      modifies store
      ensures var s := live.value;
        var levelIdx := ToLevelIndex(i.martingalaUi);
        var ec := ExitAndCooldown(old(store.State()), globalState, AdvanceRow(s, rs0, i.esito, i.margineK), i.esito, levelIdx);
        && store.State() == ec.db && rs == ec.rs
        && adv == DogmaAdvice(BaseAdvice(s, i, globalState, ec.rs, levelIdx, StakeAt(s.levels, levelIdx)), ec.rs, levelIdx)
    {
      var s := live.value;
      var levelIdx := ToLevelIndex(i.martingalaUi);
      rs := Advance(s, rs0, i.esito, i.margineK);
      rs := ExitAndCool(globalState, rs, i.esito, levelIdx);
      adv := BuildAdvice(s, i, globalState, rs, levelIdx);
      if rs.forceToL8Active && levelIdx >= 4 {
        adv := adv.(authorizedHeavy := true, stopAtL5 := false, prediction := DogmaL8, reason := DogmaActive(levelIdx + 1));
      }
    }

    /** The ladder: `globalState` is the snapshot read right after the fold. */
    method Ladder(i: HandInput, rs0: RowState, globalState: GlobalState, margineUnits: real) returns (adv: Advice)
      requires Valid()
      modifies store
      ensures Verdict(store.State(), live.value, adv)
           == Decision.Ladder(old(store.State()), live.value, i, rs0, globalState, margineUnits)
    {
      var s := live.value;
      var levelIdx := ToLevelIndex(i.martingalaUi);
      var stakeUnitsNow := StakeAt(s.levels, levelIdx);

      var rs;
      rs, adv := Prepare(i, rs0, globalState);
      var inHot := adv.hotZone;
      var severeRed := IsSevereRedTableSignal(s, rs.historyTable);

      if levelIdx >= 5 && rs.forceToL8Active {
        adv := ContinueHeavy(i, rs, adv, globalState, levelIdx, margineUnits, stakeUnitsNow);
        return;
      }

      if levelIdx == 4 && !rs.forceToL8Active {
        rs, adv := DecideAtL5(s, globalState, rs, adv, inHot, severeRed);
      }

      adv := CloseHand(i, rs, adv, globalState, levelIdx, margineUnits, stakeUnitsNow);
    }

    /** Heavy mode at level 6 or more: one more heavy slot and at least the regime's cooldown. */
    method ContinueHeavy(i: HandInput, rs0: RowState, adv0: Advice, globalState: GlobalState, levelIdx: int,
                         margineUnits: real, stakeUnitsNow: real) returns (adv: Advice)
      requires Valid()
      modifies store
      ensures Verdict(store.State(), live.value, adv)
           == HeavyHand(Step(old(store.State()), rs0, adv0), live.value, i, globalState, levelIdx, margineUnits, stakeUnitsNow)
    {
      var s := live.value;
      var rs := rs0;
      var regiaParams := GetRegiaParams(s, globalState.globalMarginUnits);
      var _ := scuderia.ApplySyncDelay(Some(s));
      adv := adv0.(authorizedHeavy := true, reason := DogmaLevel(levelIdx + 1), prediction := DogmaL8);

      var _ := store.UpdateGlobalState(NoGlobalChange.(heavyCount := Some(globalState.heavyCount + 1),
                                                       cooldown := Some(Max(globalState.cooldown, regiaParams.cdn))));

      rs := rs.(prevMazzo := Some(i.handIndex), prevLevel := levelIdx, prevMargine := margineUnits,
                prevStake := stakeUnitsNow);
      scuderia.ApplyHeavyDecay(Some(s), adv.authorizedHeavy && adv.levelIndex >= 5);
      SaveAdviceAndInput(i.tableId, rs, adv, i);
    }

    /** The diagnostics tooltip, the row's memory of this hand, the decay and the save. */
    method CloseHand(i: HandInput, rs0: RowState, adv0: Advice, globalState: GlobalState, levelIdx: int,
                     margineUnits: real, stakeUnitsNow: real) returns (adv: Advice)
      requires Valid()
      modifies store
      ensures Verdict(store.State(), live.value, adv)
           == Decision.CloseHand(Step(old(store.State()), rs0, adv0), live.value, i, globalState, levelIdx,
                                 margineUnits, stakeUnitsNow)
    {
      var s := live.value;
      var rs := rs0;
      var regiaParams := GetRegiaParams(s, globalState.globalMarginUnits);
      var maxRunP := GetMaxRunP(rs.history);
      adv := adv0.(tooltip := Diagnostics(i.handIndex, rs.runP, maxRunP, globalState.heavyCount, regiaParams.hmax,
                                          regiaParams.cdn, globalState.cooldown));

      rs := rs.(prevMazzo := Some(i.handIndex), prevLevel := levelIdx, prevMargine := margineUnits,
                prevStake := stakeUnitsNow);
      scuderia.ApplyHeavyDecay(Some(s), adv.authorizedHeavy && adv.levelIndex >= 5);
      SaveAdviceAndInput(i.tableId, rs, adv, i);
    }

    method SaveAdviceAndInput(tableId: int, rs: RowState, adv: Advice, i: HandInput)
      modifies store
      ensures store.State() == SaveDb(old(store.State()), tableId, rs, adv, i)
    {
      var lastInput := LastInput(i.handIndex, i.margineK, i.marginFinite, i.martingalaUi, i.esito);
      var _ := store.UpdateTableState(tableId, TablePatch(Some(rs), Some(adv), Some(lastInput)));
    }
  }
}
