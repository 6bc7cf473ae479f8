/**
 * Properties of one `feedAndDecide` call (`Decision.Decide`) and of its
 * stages: what a replay, a rejection, a mission stop, a pre-emptive stop, the
 * heavy continuation and the level-5 branch do to the store and the advice,
 * and what every decision preserves (the margin ledger, the seen keys, the
 * display factor).
 */
module DecisionProperties {
  import opened Types
  import opened Store
  import opened OutcomeInferer
  import opened EngineHelpers
  import opened Decision
  import Scuderia
  import Mission

  /** Two stores agree on the margin ledger, the seen keys and which tables exist. */
  predicate SameLedger(a: Db, b: Db)
  {
    && GlobalOf(a).globalMarginUnits == GlobalOf(b).globalMarginUnits
    && a.marginCache == b.marginCache
    && a.seen == b.seen
    && a.tables.Keys == b.tables.Keys
  }

  /** The row counters that validation owns; the ladder never writes them. */
  predicate SameCounters(a: RowState, b: RowState)
  {
    a.warmInputs == b.warmInputs && a.invalidCount == b.invalidCount && a.validRecovery == b.validRecovery
    && a.disabled == b.disabled
  }

  // ------------------------- intake -------------------------

  /**
   * Which inputs reach the ladder: everything that is not a replay, except an
   * invalid input after the first three inputs of the table, unless heavy mode
   * holds and the level is 6 or more. A disabled table is not blocked.
   */
  lemma AdmissionRule(db: Db, s: Settings, i: HandInput)
    ensures var rs := TableOf(db, i.tableId).rowState;
      IntakeSpec(db, s, i).Admitted? <==>
        && !IsReplay(db, i)
        && (!Invalid(i) || rs.warmInputs < 3 || (rs.forceToL8Active && i.martingalaUi >= 6))
  {
  }

  /**
   * A replay changes nothing but the table's outcome windows: the stored
   * advice is returned with the signal of the advanced table window, the
   * stored advice and input stay as they were, and no counter moves.
   */
  lemma ReplayEffects(db: Db, s: Settings, i: HandInput)
    requires IsReplay(db, i)
    ensures var v := Decide(db, s, i);
      var ts := TableOf(db, i.tableId);
      var ts' := TableOf(v.db, i.tableId);
      && v.settings == s
      && v.advice == ts.lastAdvice.value.(signalW10 := SignalOf(IsSevereRed(s, ts'.rowState.historyTable)))
      && ts'.rowState == PushOutcome(s, ts.rowState, i.esito)
      && ts'.lastAdvice == ts.lastAdvice && ts'.lastInput == ts.lastInput
      && v.db.global == db.global && v.db.scuderia == db.scuderia && v.db.regia == db.regia
      && v.db.config == db.config && v.db.marginCache == db.marginCache && v.db.seen == db.seen
  {
  }

  /**
   * A rejected input bumps the invalid count and clears the recovery streak;
   * the fifth invalid input disables the table with a stop advice, earlier
   * ones get a warning. Neither the global state nor the stored advice moves.
   */
  lemma RejectionEffects(db: Db, s: Settings, i: HandInput)
    requires !IsReplay(db, i)
    requires Rejects(TableOf(db, i.tableId).rowState, i)
    ensures var v := Decide(db, s, i);
      var ts := TableOf(db, i.tableId);
      var rs := ts.rowState;
      var ts' := TableOf(v.db, i.tableId);
      var rs' := ts'.rowState;
      && v.settings == s
      && rs'.invalidCount == rs.invalidCount + 1 && rs'.validRecovery == 0 && rs'.warmInputs == rs.warmInputs + 1
      && (rs.invalidCount + 1 >= 5 ==> v.advice == DisabledAdvice(i.tableId) && rs'.disabled)
      && (rs.invalidCount + 1 < 5 ==> v.advice == WarningAdvice(i.tableId) && rs'.disabled == rs.disabled)
      && v.advice.levelIndex == 0 && v.advice.stakeUnits == 0.0
      && (v.advice.stopAtL5 <==> rs.invalidCount + 1 >= 5)
      && ts'.lastAdvice == ts.lastAdvice && ts'.lastInput == ts.lastInput
      && v.db.global == db.global && v.db.scuderia == db.scuderia && v.db.regia == db.regia
      && v.db.config == db.config && v.db.marginCache == db.marginCache
  {
  }

  /** Three accepted inputs in a row after a rejection re-enable the table and clear the invalid count; fewer do not. */
  lemma ThreeValidInputsReEnable(rs: RowState)
    requires rs.validRecovery == 0
    ensures var r1 := AdmitRow(rs); var r2 := AdmitRow(r1); var r3 := AdmitRow(r2);
      && r1.disabled == rs.disabled && r2.disabled == rs.disabled
      && r1.invalidCount == rs.invalidCount && r2.invalidCount == rs.invalidCount
      && !r3.disabled && r3.invalidCount == 0 && r3.validRecovery == 3
  {
  }

  // ------------------------- the ladder -------------------------

  /** The decay writes only heavy-lifecycle fields. */
  lemma DecayLedger(db: Db, settings: Option<Settings>, entered: bool)
    ensures var db' := Scuderia.DecayDb(db, settings, entered);
      SameLedger(db, db') && db'.tables == db.tables
  {
  }

  /** The save stores the row, the advice and the input of an existing table, and nothing else. */
  lemma SaveLedger(db: Db, t: int, rs: RowState, adv: Advice, i: HandInput)
    ensures var db' := SaveDb(db, t, rs, adv, i);
      && SameLedger(db, db')
      && (t in db.tables ==>
            TableOf(db', t).lastAdvice == Some(adv) && TableOf(db', t).lastInput == Some(LastInputOf(i))
            && TableOf(db', t).rowState == rs)
  {
  }

  /** The closing steps keep the ledger, save the advice and the input, and leave the validation counters. */
  lemma CloseHandLedger(st: Step, s: Settings, i: HandInput, g: GlobalState, levelIdx: int, units: real, stake: real)
    ensures var v := CloseHand(st, s, i, g, levelIdx, units, stake);
      && SameLedger(st.db, v.db)
      && v.settings == s
      && (i.tableId in st.db.tables ==>
            var ts' := TableOf(v.db, i.tableId);
            ts'.lastAdvice == Some(v.advice) && ts'.lastInput == Some(LastInputOf(i))
            && SameCounters(ts'.rowState, st.rs))
  {
    var adv := st.adv.(tooltip := DiagnosticsOf(s, i, g, st.rs));
    var entered := adv.authorizedHeavy && adv.levelIndex >= 5;
    DecayLedger(st.db, Some(s), entered);
    var db4 := Scuderia.DecayDb(st.db, Some(s), entered);
    SaveLedger(db4, i.tableId, FinalizeRow(st.rs, i.handIndex, levelIdx, units, stake), adv, i);
  }

  lemma HeavyHandLedger(st: Step, s: Settings, i: HandInput, g: GlobalState, levelIdx: int, units: real, stake: real)
    ensures var v := HeavyHand(st, s, i, g, levelIdx, units, stake);
      && SameLedger(st.db, v.db)
      && v.settings == s
      && (i.tableId in st.db.tables ==>
            var ts' := TableOf(v.db, i.tableId);
            ts'.lastAdvice == Some(v.advice) && ts'.lastInput == Some(LastInputOf(i))
            && SameCounters(ts'.rowState, st.rs))
  {
    var st1 := Continuation(st, s, g, levelIdx);
    var entered := st1.adv.authorizedHeavy && st1.adv.levelIndex >= 5;
    DecayLedger(st1.db, Some(s), entered);
    var db4 := Scuderia.DecayDb(st1.db, Some(s), entered);
    SaveLedger(db4, i.tableId, FinalizeRow(st1.rs, i.handIndex, levelIdx, units, stake), st1.adv, i);
  }

  /** The heavy exit and the cooldown decrement write only the global heavy fields. */
  lemma ExitLedger(db: Db, g: GlobalState, rs: RowState, e: Esito, levelIdx: int)
    ensures var ec := ExitAndCooldown(db, g, rs, e, levelIdx);
      SameLedger(db, ec.db) && ec.db.tables == db.tables && SameCounters(ec.rs, rs)
  {
  }

  /** The level-5 branch writes only the global heavy and debt fields. */
  lemma L5StepLedger(st: Step, s: Settings, g: GlobalState, kind: L5Kind)
    ensures var st' := L5Step(st, s, g, kind);
      SameLedger(st.db, st'.db) && st'.db.tables == st.db.tables && SameCounters(st'.rs, st.rs)
  {
  }

  /** The ladder's last write stores the row, the advice and the input; it keeps the ledger and the validation counters. */
  lemma LadderLedger(db: Db, s: Settings, i: HandInput, rs: RowState, g: GlobalState, units: real)
    ensures var v := Ladder(db, s, i, rs, g, units);
      && SameLedger(db, v.db)
      && v.settings == s
      && (i.tableId in db.tables ==>
            var ts' := TableOf(v.db, i.tableId);
            ts'.lastAdvice == Some(v.advice) && ts'.lastInput == Some(LastInputOf(i))
            && SameCounters(ts'.rowState, rs))
  {
    var levelIdx := ToLevelIndex(i.martingalaUi);
    var stake := StakeAt(s.levels, levelIdx);
    var rs1 := AdvanceRow(s, rs, i.esito, i.margineK);
    AdvanceRowEffects(s, rs, i.esito, i.margineK);
    var ec := ExitAndCooldown(db, g, rs1, i.esito, levelIdx);
    ExitLedger(db, g, rs1, i.esito, levelIdx);
    var rs2 := ec.rs;
    var adv1 := DogmaAdvice(BaseAdvice(s, i, g, rs2, levelIdx, stake), rs2, levelIdx);
    if levelIdx >= 5 && rs2.forceToL8Active {
      assert Ladder(db, s, i, rs, g, units) == HeavyHand(Step(ec.db, rs2, adv1), s, i, g, levelIdx, units, stake);
      HeavyHandLedger(Step(ec.db, rs2, adv1), s, i, g, levelIdx, units, stake);
    } else if levelIdx == 4 && !rs2.forceToL8Active {
      var kind := L5KindOf(s, g, rs2, adv1.hotZone, IsSevereRed(s, rs2.historyTable));
      var st := L5Step(Step(ec.db, rs2, adv1), s, g, kind);
      assert Ladder(db, s, i, rs, g, units) == CloseHand(st, s, i, g, levelIdx, units, stake);
      L5StepLedger(Step(ec.db, rs2, adv1), s, g, kind);
      CloseHandLedger(st, s, i, g, levelIdx, units, stake);
    } else {
      assert Ladder(db, s, i, rs, g, units) == CloseHand(Step(ec.db, rs2, adv1), s, i, g, levelIdx, units, stake);
      CloseHandLedger(Step(ec.db, rs2, adv1), s, i, g, levelIdx, units, stake);
    }
  }

  /** The row after one accepted hand: the Player streak, the hand count, and the 20-hand velocity. */
  lemma AdvanceRowEffects(s: Settings, rs: RowState, e: Esito, m: real)
    ensures var r := AdvanceRow(s, rs, e, m);
      && r.history == AppendHistory(rs.history, e, s.windowW10)
      && r.historyTable == EnqueueSide(rs.historyTable, e, s.windowW10)
      && (e == P ==> r.runP == rs.runP + 1)
      && (e == B ==> r.runP == 0)
      && (e != P && e != B ==> r.runP == rs.runP)
      && r.handCount == rs.handCount + 1
      && (r.handCount % 20 == 0 ==> r.vmLocal20 == (rs.margineAccum + m) / 20.0 && r.margineAccum == 0.0)
      && (r.handCount % 20 != 0 ==> r.vmLocal20 == rs.vmLocal20 && r.margineAccum == rs.margineAccum + m)
      && r.forceToL8Active == rs.forceToL8Active && r.prevLevel == rs.prevLevel && SameCounters(r, rs)
  {
  }

  /** The hands a table sees: an outcome and the margin reported with it. */
  function AdvanceAll(s: Settings, rs: RowState, hands: seq<(Esito, real)>): RowState
    decreases |hands|
  {
    if hands == [] then rs
    else
      var last := hands[|hands| - 1];
      AdvanceRow(s, AdvanceAll(s, rs, hands[..|hands| - 1]), last.0, last.1)
  }

  function MarginSum(hands: seq<(Esito, real)>): real
    decreases |hands|
  {
    if hands == [] then 0.0 else MarginSum(hands[..|hands| - 1]) + hands[|hands| - 1].1
  }

  lemma NotBlockEnd(start: int, k: int)
    requires start % 20 == 0 && 0 < k < 20
    ensures (start + k) % 20 != 0
  {
    assert start == 20 * (start / 20);
    assert (start + k) / 20 == start / 20 by {
      assert 20 * (start / 20) <= start + k < 20 * (start / 20) + 20;
    }
  }

  /** Inside a 20-hand block the accumulator holds the block's margin so far. */
  lemma {:induction false} AccumulatesWithinBlock(s: Settings, rs: RowState, hands: seq<(Esito, real)>)
    requires rs.handCount % 20 == 0 && rs.margineAccum == 0.0
    requires |hands| < 20
    ensures var r := AdvanceAll(s, rs, hands);
      r.handCount == rs.handCount + |hands| && r.margineAccum == MarginSum(hands) && r.vmLocal20 == rs.vmLocal20
    decreases |hands|
  {
    if hands != [] {
      var init := hands[..|hands| - 1];
      var last := hands[|hands| - 1];
      AccumulatesWithinBlock(s, rs, init);
      var r0 := AdvanceAll(s, rs, init);
      AdvanceRowEffects(s, r0, last.0, last.1);
      NotBlockEnd(rs.handCount, |hands|);
    }
  }

  /**
   * The velocity the advice reports is the mean margin of a 20-hand block:
   * from a block boundary, twenty hands later `vmLocal20` is their margin
   * sum over 20 and the accumulator is empty again.
   */
  lemma VelocityIsBlockMean(s: Settings, rs: RowState, hands: seq<(Esito, real)>)
    requires rs.handCount % 20 == 0 && rs.margineAccum == 0.0
    requires |hands| == 20
    ensures var r := AdvanceAll(s, rs, hands);
      r.vmLocal20 == MarginSum(hands) / 20.0 && r.margineAccum == 0.0 && r.handCount == rs.handCount + 20
  {
    var init := hands[..19];
    AccumulatesWithinBlock(s, rs, init);
    AdvanceRowEffects(s, AdvanceAll(s, rs, init), hands[19].0, hands[19].1);
    assert (rs.handCount + 20) % 20 == 0 by {
      assert rs.handCount + 20 == 20 * (rs.handCount / 20 + 1);
    }
  }

  /** Heavy exit (a Banker outcome back at level 1 after level 6 or more) frees an override slot, and the cooldown counts down. */
  lemma ExitAndCooldownEffects(db: Db, g: GlobalState, rs: RowState, e: Esito, levelIdx: int)
    requires db.global == Some(g)
    ensures var ec := ExitAndCooldown(db, g, rs, e, levelIdx);
      var exits := e == B && rs.prevLevel >= 5 && levelIdx == 0 && rs.forceToL8Active;
      && (exits ==> !ec.rs.forceToL8Active && GlobalOf(ec.db).hotOverridesActive == Max(0, g.hotOverridesActive - 1))
      && (!exits ==> ec.rs == rs && GlobalOf(ec.db).hotOverridesActive == g.hotOverridesActive)
      && GlobalOf(ec.db).cooldown == (if g.cooldown > 0 then g.cooldown - 1 else g.cooldown)
      && GlobalOf(ec.db).heavyCount == g.heavyCount
      && GlobalOf(ec.db).portfolioDebtUnits == g.portfolioDebtUnits
      && (g.hotOverridesActive >= 0 ==> GlobalOf(ec.db).hotOverridesActive >= 0)
  {
  }

  /**
   * Heavy mode at level 6 or more always continues: the advice authorizes the
   * hand, one more heavy slot is taken, the cooldown is at least the regime's,
   * and the decay only restarts its quiet-hand counter.
   */
  lemma HeavyContinuationEffects(db: Db, s: Settings, i: HandInput, rs: RowState, g: GlobalState, units: real)
    requires db.global == Some(g)
    requires ToLevelIndex(i.martingalaUi) >= 5 && rs.forceToL8Active
    ensures var v := Ladder(db, s, i, rs, g, units);
      var levelIdx := ToLevelIndex(i.martingalaUi);
      var rp := GetRegiaParams(s, g.globalMarginUnits);
      && v.advice.authorizedHeavy && !v.advice.stopAtL5
      && v.advice.prediction == DogmaL8 && v.advice.reason == DogmaLevel(levelIdx + 1)
      && GlobalOf(v.db).heavyCount == g.heavyCount + 1
      && GlobalOf(v.db).cooldown == Max(g.cooldown, rp.cdn)
      && ScuderiaOf(v.db).handsSinceLastHeavy == 0
  {
    var levelIdx := ToLevelIndex(i.martingalaUi);
    var rs1 := AdvanceRow(s, rs, i.esito, i.margineK);
    AdvanceRowEffects(s, rs, i.esito, i.margineK);
    ExitAndCooldownEffects(db, g, rs1, i.esito, levelIdx);
  }

  /**
   * Heavy mode at level 5 is authorized too: the hand leaves the level-5
   * branch and the heavy continuation aside, so it takes no heavy slot, books
   * no debt, and the cooldown only counts down.
   */
  lemma DogmaAuthorizesAtL5(db: Db, s: Settings, i: HandInput, rs: RowState, g: GlobalState, units: real)
    requires db.global == Some(g) && i.tableId in db.tables
    requires ToLevelIndex(i.martingalaUi) == 4 && rs.forceToL8Active
    ensures var v := Ladder(db, s, i, rs, g, units);
      && v.advice.authorizedHeavy && !v.advice.stopAtL5
      && v.advice.prediction == DogmaL8 && v.advice.reason == DogmaActive(5)
      && GlobalOf(v.db).portfolioDebtUnits == g.portfolioDebtUnits
      && GlobalOf(v.db).cooldown == (if g.cooldown > 0 then g.cooldown - 1 else g.cooldown)
  {
    var levelIdx := ToLevelIndex(i.martingalaUi);
    var stake := StakeAt(s.levels, levelIdx);
    var rs1 := AdvanceRow(s, rs, i.esito, i.margineK);
    AdvanceRowEffects(s, rs, i.esito, i.margineK);
    var ec := ExitAndCooldown(db, g, rs1, i.esito, levelIdx);
    ExitAndCooldownEffects(db, g, rs1, i.esito, levelIdx);
    ExitLedger(db, g, rs1, i.esito, levelIdx);
    var adv1 := DogmaAdvice(BaseAdvice(s, i, g, ec.rs, levelIdx, stake), ec.rs, levelIdx);
    CloseHandEffects(Step(ec.db, ec.rs, adv1), s, i, g, levelIdx, units, stake);
  }

  /** Which level-5 branch is taken, each condition in full. */
  lemma L5KindConditions(s: Settings, g: GlobalState, rs: RowState, inHot: bool, severe: bool)
    ensures var kind := L5KindOf(s, g, rs, inHot, severe);
      var rp := GetRegiaParams(s, g.globalMarginUnits);
      var roomOpen := g.cooldown <= 0 && g.heavyCount < rp.hmax;
      var triggerDebt := g.portfolioDebtUnits > s.debtTriggerRatio * ResidualCapacity(s);
      && (kind == HotRedStop <==> inHot || severe)
      && (kind == Vm20Extension <==> !inHot && !severe && rs.vmLocal20 > 0.0 && roomOpen)
      && (kind == HotOverride <==>
            !inHot && !severe && !(rs.vmLocal20 > 0.0 && roomOpen)
            && triggerDebt && roomOpen && CanOverride(s, g) && rs.runP < 5)
      && (kind == DefaultStop <==>
            !inHot && !severe && !(rs.vmLocal20 > 0.0 && roomOpen)
            && !(triggerDebt && roomOpen && CanOverride(s, g) && rs.runP < 5))
  {
  }

  /** With no concurrent override allowed (the default), the override branch is never taken. */
  lemma NoOverrideWithoutBudget(s: Settings, g: GlobalState, rs: RowState, inHot: bool, severe: bool)
    requires s.maxHotOverridesConcurrent <= 0 && g.hotOverridesActive >= 0
    ensures L5KindOf(s, g, rs, inHot, severe) != HotOverride
  {
  }

  /** What each level-5 branch writes, read from a store whose global document exists. */
  lemma L5StepEffects(st: Step, s: Settings, g: GlobalState, kind: L5Kind)
    requires st.db.global.Some?
    ensures var st' := L5Step(st, s, g, kind);
      var g0 := GlobalOf(st.db);
      var g' := GlobalOf(st'.db);
      var rp := GetRegiaParams(s, g.globalMarginUnits);
      && (kind == HotRedStop || kind == DefaultStop ==>
            && st'.adv.stopAtL5
            && g' == g0.(portfolioDebtUnits := g.portfolioDebtUnits + s.l5LossUnits)
            && st'.rs == st.rs.(l5ClosedCount := st.rs.l5ClosedCount + 1)
            && st'.adv.prediction == StopL5)
      && (kind == HotRedStop ==> st'.adv.authorizedHeavy == st.adv.authorizedHeavy)
      && (kind == DefaultStop ==> !st'.adv.authorizedHeavy)
      && (kind == Vm20Extension ==>
            && !st'.adv.stopAtL5 && st'.adv.authorizedHeavy
            && g' == g0.(heavyCount := g.heavyCount + 1, cooldown := rp.cdn)
            && st'.rs == st.rs.(forceToL8Active := true)
            && st'.adv.prediction == L6Authorized)
      && (kind == HotOverride ==>
            && !st'.adv.stopAtL5 && st'.adv.authorizedHeavy
            && g' == g0.(heavyCount := g.heavyCount + 1, cooldown := rp.cdn,
                         hotOverridesActive := g.hotOverridesActive + 1,
                         hotOverridesUsedThisShoe := g.hotOverridesUsedThisShoe + 1)
            && st'.rs == st.rs.(forceToL8Active := true)
            && st'.adv.prediction == L6Authorized)
      && st'.adv.levelIndex == st.adv.levelIndex
  {
  }

  /**
   * Closing a hand below level 6: the advice keeps its flags, the row keeps
   * heavy mode and its level-5 count, and the decay keeps the cooldown, the
   * debt and the override counters, taking a heavy slot back only when no
   * cooldown runs.
   */
  lemma CloseHandEffects(st: Step, s: Settings, i: HandInput, g: GlobalState, levelIdx: int, units: real, stake: real)
    requires st.adv.levelIndex < 5 && st.db.global.Some? && i.tableId in st.db.tables
    ensures var v := CloseHand(st, s, i, g, levelIdx, units, stake);
      var g0 := GlobalOf(st.db);
      var g' := GlobalOf(v.db);
      var rs' := TableOf(v.db, i.tableId).rowState;
      && v.advice.stopAtL5 == st.adv.stopAtL5 && v.advice.authorizedHeavy == st.adv.authorizedHeavy
      && v.advice.prediction == st.adv.prediction
      && g'.cooldown == g0.cooldown && g'.portfolioDebtUnits == g0.portfolioDebtUnits
      && g'.hotOverridesActive == g0.hotOverridesActive && g'.hotOverridesUsedThisShoe == g0.hotOverridesUsedThisShoe
      && (g0.cooldown > 0 ==> g'.heavyCount == g0.heavyCount)
      && rs'.forceToL8Active == st.rs.forceToL8Active && rs'.l5ClosedCount == st.rs.l5ClosedCount
  {
  }

  /**
   * At level 5 without heavy mode the ladder either stops, booking the level-5
   * loss as portfolio debt and closing one more level-5 on the table, or
   * authorizes heavy mode, taking a heavy slot and the regime's cooldown; an
   * override is counted only on the override branch, which needs budget. The
   * decay that closes the hand treats it as a quiet one (its advice is at
   * level 5, not 6), so the new slot survives it only while a cooldown runs.
   */
  lemma L5Effects(db: Db, s: Settings, i: HandInput, rs: RowState, g: GlobalState, units: real)
    requires db.global == Some(g) && i.tableId in db.tables
    requires ToLevelIndex(i.martingalaUi) == 4 && !rs.forceToL8Active
    ensures var v := Ladder(db, s, i, rs, g, units);
      var rp := GetRegiaParams(s, g.globalMarginUnits);
      var g' := GlobalOf(v.db);
      var rs' := TableOf(v.db, i.tableId).rowState;
      && (v.advice.stopAtL5 <==> !v.advice.authorizedHeavy)
      && (v.advice.stopAtL5 ==>
            && g'.portfolioDebtUnits == g.portfolioDebtUnits + s.l5LossUnits
            && rs'.l5ClosedCount == rs.l5ClosedCount + 1 && !rs'.forceToL8Active
            && g'.hotOverridesUsedThisShoe == g.hotOverridesUsedThisShoe
            && v.advice.prediction == StopL5)
      && (v.advice.authorizedHeavy ==>
            && g'.portfolioDebtUnits == g.portfolioDebtUnits
            && g'.cooldown == rp.cdn
            && (rp.cdn > 0 ==> g'.heavyCount == g.heavyCount + 1)
            && rs'.forceToL8Active && rs'.l5ClosedCount == rs.l5ClosedCount
            && v.advice.prediction == L6Authorized)
      && (g'.hotOverridesUsedThisShoe != g.hotOverridesUsedThisShoe ==>
            g'.hotOverridesUsedThisShoe == g.hotOverridesUsedThisShoe + 1 && CanOverride(s, g))
  {
    var levelIdx := ToLevelIndex(i.martingalaUi);
    var stake := StakeAt(s.levels, levelIdx);
    var rs1 := AdvanceRow(s, rs, i.esito, i.margineK);
    AdvanceRowEffects(s, rs, i.esito, i.margineK);
    var ec := ExitAndCooldown(db, g, rs1, i.esito, levelIdx);
    ExitAndCooldownEffects(db, g, rs1, i.esito, levelIdx);
    ExitLedger(db, g, rs1, i.esito, levelIdx);
    var rs2 := ec.rs;
    var adv1 := DogmaAdvice(BaseAdvice(s, i, g, rs2, levelIdx, stake), rs2, levelIdx);
    assert !adv1.stopAtL5 && !adv1.authorizedHeavy && adv1.levelIndex == 4;
    var kind := L5KindOf(s, g, rs2, adv1.hotZone, IsSevereRed(s, rs2.historyTable));
    assert Ladder(db, s, i, rs, g, units)
        == CloseHand(L5Step(Step(ec.db, rs2, adv1), s, g, kind), s, i, g, levelIdx, units, stake);
    if kind == HotOverride {
      L5KindConditions(s, g, rs2, adv1.hotZone, IsSevereRed(s, rs2.historyTable));
    }
    L5Close(Step(ec.db, rs2, adv1), s, i, g, levelIdx, units, stake, kind);
  }

  /** The level-5 branch followed by the close of the hand, from a step that has not yet decided anything. */
  lemma L5Close(st: Step, s: Settings, i: HandInput, g: GlobalState, levelIdx: int, units: real, stake: real,
                kind: L5Kind)
    requires st.db.global.Some? && i.tableId in st.db.tables
    requires !st.adv.stopAtL5 && !st.adv.authorizedHeavy && st.adv.levelIndex == 4 && !st.rs.forceToL8Active
    requires GlobalOf(st.db).portfolioDebtUnits == g.portfolioDebtUnits
    requires GlobalOf(st.db).hotOverridesUsedThisShoe == g.hotOverridesUsedThisShoe
    requires kind == HotOverride ==> CanOverride(s, g)
    ensures var v := CloseHand(L5Step(st, s, g, kind), s, i, g, levelIdx, units, stake);
      var rp := GetRegiaParams(s, g.globalMarginUnits);
      var g' := GlobalOf(v.db);
      var rs' := TableOf(v.db, i.tableId).rowState;
      && (v.advice.stopAtL5 <==> !v.advice.authorizedHeavy)
      && (v.advice.stopAtL5 ==>
            && g'.portfolioDebtUnits == g.portfolioDebtUnits + s.l5LossUnits
            && rs'.l5ClosedCount == st.rs.l5ClosedCount + 1 && !rs'.forceToL8Active
            && g'.hotOverridesUsedThisShoe == g.hotOverridesUsedThisShoe
            && v.advice.prediction == StopL5)
      && (v.advice.authorizedHeavy ==>
            && g'.portfolioDebtUnits == g.portfolioDebtUnits
            && g'.cooldown == rp.cdn
            && (rp.cdn > 0 ==> g'.heavyCount == g.heavyCount + 1)
            && rs'.forceToL8Active && rs'.l5ClosedCount == st.rs.l5ClosedCount
            && v.advice.prediction == L6Authorized)
      && (g'.hotOverridesUsedThisShoe != g.hotOverridesUsedThisShoe ==>
            g'.hotOverridesUsedThisShoe == g.hotOverridesUsedThisShoe + 1 && CanOverride(s, g))
  {
    var st1 := L5Step(st, s, g, kind);
    L5StepEffects(st, s, g, kind);
    L5StepLedger(st, s, g, kind);
    CloseHandEffects(st1, s, i, g, levelIdx, units, stake);
  }

  // ------------------------- after intake -------------------------

  /** The store as the stages after intake see it: the fold, then the retune. */
  function Tuned(db: Db, s: Settings, i: HandInput): Mission.Tuned
  {
    var db3 := WithGlobal(FoldDb(db, i.tableId, MarginUnits(s, i)));
    Mission.Retune(db3, s, GlobalOf(db3).globalMarginUnits, i.elapsedMinutes, i.tables)
  }

  /** Every stage after intake keeps the ledger of the folded store and ends by saving the advice and the input. */
  lemma AfterIntakeLedger(db: Db, s: Settings, i: HandInput, rs: RowState)
    ensures var v := AfterIntake(db, s, i, rs);
      && SameLedger(WithGlobal(FoldDb(db, i.tableId, MarginUnits(s, i))), v.db)
      && v.settings.k == s.k
      && (i.tableId in db.tables ==>
            TableOf(v.db, i.tableId).lastAdvice == Some(v.advice)
            && TableOf(v.db, i.tableId).lastInput == Some(LastInputOf(i)))
  {
    var t := i.tableId;
    var units := MarginUnits(s, i);
    var db3 := WithGlobal(FoldDb(db, t, units));
    var g := GlobalOf(db3);
    Mission.RetuneFrame(db3, s, g.globalMarginUnits, i.elapsedMinutes, i.tables);
    var tuned := Mission.Retune(db3, s, g.globalMarginUnits, i.elapsedMinutes, i.tables);
    var s2 := tuned.settings;
    var db4 := WithRegia(tuned.db);
    assert SameLedger(db3, db4) && db4.tables == db.tables;
    var v := AfterIntake(db, s, i, rs);
    if RegiaOf(tuned.db).missionCompleted {
      var adv := StopWinAdvice(s2, i, g, rs);
      assert v == Verdict(SaveDb(db4, t, rs, adv, i), s2, adv);
      SaveLedger(db4, t, rs, adv, i);
    } else if i.martingalaUi == 5 {
      var g5 := GlobalOf(db4);
      var db5 := WithGlobal(db4);
      if PreemptiveStop(s2, g5) {
        var rp := GetRegiaParams(s2, g5.globalMarginUnits);
        var adv := EarlyStopAdvice(s2, i, g5);
        var db6 := UpdateGlobalDb(db5, CooldownPatch(Max(g5.cooldown, rp.cdn)));
        assert v == Verdict(SaveDb(db6, t, rs, adv, i), s2, adv);
        assert SameLedger(db3, db6) && db6.tables == db.tables;
        SaveLedger(db6, t, rs, adv, i);
      } else {
        assert v == Ladder(db5, s2, i, rs, g, units);
        LadderLedger(db5, s2, i, rs, g, units);
      }
    } else {
      assert v == Ladder(db4, s2, i, rs, g, units);
      LadderLedger(db4, s2, i, rs, g, units);
    }
  }

  /**
   * Once the mission is complete the hand is not played: the advice stops at
   * level 1 with no stake, the row is saved as validation left it (the outcome
   * is not even added to the windows), and no heavy or cooldown state moves.
   */
  lemma MissionStopEffects(db: Db, s: Settings, i: HandInput, rs: RowState)
    requires i.tableId in db.tables
    requires RegiaOf(Tuned(db, s, i).db).missionCompleted
    ensures var v := AfterIntake(db, s, i, rs);
      && v.advice.levelIndex == 0 && v.advice.stakeUnits == 0.0 && v.advice.stopAtL5 && !v.advice.authorizedHeavy
      && v.advice.prediction == StopMission && v.advice.tableStatus == MissionComplete
      && GlobalOf(v.db) == GlobalOf(FoldDb(db, i.tableId, MarginUnits(s, i)))
      && ScuderiaOf(v.db) == ScuderiaOf(db)
      && TableOf(v.db, i.tableId).rowState == rs
  {
    var db3 := WithGlobal(FoldDb(db, i.tableId, MarginUnits(s, i)));
    Mission.RetuneFrame(db3, s, GlobalOf(db3).globalMarginUnits, i.elapsedMinutes, i.tables);
  }

  /** A completed mission stays complete, so every later accepted hand is a mission stop. */
  lemma CompletedMissionStopsEveryHand(db: Db, s: Settings, i: HandInput, rs: RowState)
    requires RegiaOf(db).missionCompleted
    ensures RegiaOf(Tuned(db, s, i).db).missionCompleted
    ensures AfterIntake(db, s, i, rs).advice.prediction == StopMission
  {
    var db3 := WithGlobal(FoldDb(db, i.tableId, MarginUnits(s, i)));
    assert RegiaOf(db3) == RegiaOf(db);
    Mission.CompletionFlagMonotone(db3, s, GlobalOf(db3).globalMarginUnits, i.elapsedMinutes, i.tables);
  }

  /**
   * At level 5, with the mission running, a closed heavy room or a portfolio
   * debt over its trigger stops the ladder before it moves: the advice holds
   * level 5 with no stake, the cooldown becomes at least the regime's, the
   * row is saved as validation left it, and no heavy slot is taken.
   */
  lemma PreemptiveStopEffects(db: Db, s: Settings, i: HandInput, rs: RowState)
    requires i.tableId in db.tables
    requires i.martingalaUi == 5
    requires var tuned := Tuned(db, s, i);
      !RegiaOf(tuned.db).missionCompleted
      && PreemptiveStop(tuned.settings, GlobalOf(FoldDb(db, i.tableId, MarginUnits(s, i))))
    ensures var v := AfterIntake(db, s, i, rs);
      var g := GlobalOf(FoldDb(db, i.tableId, MarginUnits(s, i)));
      var rp := GetRegiaParams(v.settings, g.globalMarginUnits);
      && v.advice.levelIndex == 4 && v.advice.stakeUnits == 0.0 && v.advice.stopAtL5 && !v.advice.authorizedHeavy
      && v.advice.reason == StopL5Early && v.advice.prediction == StopL5
      && GlobalOf(v.db) == g.(cooldown := Max(g.cooldown, rp.cdn))
      && TableOf(v.db, i.tableId).rowState == rs
  {
    var db3 := WithGlobal(FoldDb(db, i.tableId, MarginUnits(s, i)));
    Mission.RetuneFrame(db3, s, GlobalOf(db3).globalMarginUnits, i.elapsedMinutes, i.tables);
  }

  // ------------------------- the whole decision -------------------------

  /** The decision keeps `global margin - Σ cached margins`: the ledger stays balanced whatever the hand. */
  lemma DecideConservesImbalance(db: Db, s: Settings, i: HandInput)
    ensures Imbalance(Decide(db, s, i).db) == Imbalance(db)
  {
    var t := i.tableId;
    match IntakeSpec(db, s, i)
    case Replayed(db1, adv) =>
    case Rejected(db1, adv) =>
    case Admitted(db2, rs) =>
      var units := MarginUnits(s, i);
      FoldConservesImbalance(db2, t, units);
      AfterIntakeLedger(db2, s, i, rs);
  }

  /** After any decision the hand's key is marked as seen. */
  lemma SeenAfterDecide(db: Db, s: Settings, i: HandInput)
    ensures (i.tableId, i.handIndex) in Decide(db, s, i).db.seen
  {
    match IntakeSpec(db, s, i)
    case Replayed(db1, adv) =>
    case Rejected(db1, adv) =>
    case Admitted(db2, rs) =>
      AfterIntakeLedger(db2, s, i, rs);
  }

  /**
   * Submitting a hand that was replayed or decided again, unchanged, is a
   * replay: the store then holds the key, an advice and this very input.
   */
  lemma ResubmissionReplays(db: Db, s: Settings, i: HandInput)
    requires i.marginFinite
    requires IsReplay(db, i) || !Rejects(TableOf(db, i.tableId).rowState, i)
    ensures IsReplay(Decide(db, s, i).db, i)
  {
    match IntakeSpec(db, s, i)
    case Replayed(db1, adv) =>
    case Rejected(db1, adv) =>
    case Admitted(db2, rs) =>
      AfterIntakeLedger(db2, s, i, rs);
  }

  /** A decision never changes the display factor `k`. */
  lemma DecideKeepsK(db: Db, s: Settings, i: HandInput)
    ensures Decide(db, s, i).settings.k == s.k
  {
    match IntakeSpec(db, s, i)
    case Replayed(db1, adv) =>
    case Rejected(db1, adv) =>
    case Admitted(db2, rs) =>
      AfterIntakeLedger(db2, s, i, rs);
  }
}
