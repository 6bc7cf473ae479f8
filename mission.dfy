/**
 * The adaptive mission controller (functions/src/ProactiveEngine/regiaAdaptiva.ts).
 *
 * It keeps the mission targets in the regia document, picks a regime from the
 * elapsed time, the progress towards the target and the margin velocity, and
 * merges that regime's parameters into the settings: into the stored
 * configuration and into the in-process settings object it shares with the
 * engine.
 */
module Mission {
  import opened Types
  import opened Store

  const WarmUpMinutes: real := 10.0
  /** Share of the nominal target the controller aims at. */
  const EfficiencyFactor: real := 0.25
  /** Slack on the nominal mission duration. */
  const TimeBuffer: real := 1.2

  /** Division where a zero divisor yields zero (the source would produce Infinity or NaN). */
  function Quot(a: real, b: real): real
  {
    if b == 0.0 then 0.0 else a / b
  }

  /** A mission quantity scaled from the planned tables to the tables in play (each at least one). */
  function PerTables(x: real, r: RegiaState, tables: int): real
  {
    x * (Max(1, tables) as real) / (Max(1, r.targetTables) as real)
  }

  /** The mission target scaled to the tables in play and the efficiency factor. */
  function TargetAdj(r: RegiaState, tables: int): real
  {
    PerTables(r.targetUnitsTotal, r, tables) * EfficiencyFactor
  }

  /** The mission duration scaled to the tables in play, with the time buffer. */
  function MissionMinutes(r: RegiaState, tables: int): real
  {
    PerTables(r.targetMinutesTotal, r, tables) * TimeBuffer
  }

  /** Target margin velocity, units per minute. */
  function VmTarget(r: RegiaState, tables: int): real
  {
    TargetAdj(r, tables) / RMax(1.0, MissionMinutes(r, tables))
  }

  /** Observed margin velocity, units per minute. */
  function Velocity(margin: real, elapsed: real): real
  {
    margin / RMax(1.0, elapsed)
  }

  function Progress(margin: real, targetAdj: real): real
  {
    if targetAdj <= 0.0 then 0.0 else margin / targetAdj
  }

  /** The targets of the default (1 of 10 tables) configuration, worked out. */
  lemma DefaultMissionTargets()
    ensures TargetAdj(DefaultRegia, 1) == 22.5
    ensures MissionMinutes(DefaultRegia, 1) == 57.6
    ensures VmTarget(DefaultRegia, 1) == 22.5 / 57.6
  {
  }

  datatype Regime = WarmUp | Completion | Late | Aggressive | Protective | Neutral

  /** The regime `updateDynamicParameters` applies, first match wins. */
  function RegimeOf(r: RegiaState, margin: real, elapsed: real, tables: int): Regime
  {
    var adj := TargetAdj(r, tables);
    var vmTarget := VmTarget(r, tables);
    var vm := Velocity(margin, elapsed);
    if elapsed < WarmUpMinutes then WarmUp
    else if margin >= adj && !r.missionCompleted then Completion
    else if Progress(margin, adj) >= 0.50 && elapsed >= MissionMinutes(r, tables) * 0.30 then Late
    else if vm < vmTarget then Aggressive
    else if vm > vmTarget * 1.5 then Protective
    else Neutral
  }

  /** Each regime holds exactly when its condition holds and no earlier one does. */
  lemma RegimeConditions(r: RegiaState, margin: real, elapsed: real, tables: int)
    ensures var regime := RegimeOf(r, margin, elapsed, tables);
      var adj := TargetAdj(r, tables);
      var vmT := VmTarget(r, tables);
      var vm := Velocity(margin, elapsed);
      var completes := margin >= adj && !r.missionCompleted;
      var late := Progress(margin, adj) >= 0.50 && elapsed >= MissionMinutes(r, tables) * 0.30;
      && (regime == WarmUp <==> elapsed < WarmUpMinutes)
      && (regime == Completion <==> elapsed >= WarmUpMinutes && completes)
      && (regime == Late <==> elapsed >= WarmUpMinutes && !completes && late)
      && (regime == Aggressive <==> elapsed >= WarmUpMinutes && !completes && !late && vm < vmT)
      && (regime == Protective <==> elapsed >= WarmUpMinutes && !completes && !late && vm >= vmT && vm > vmT * 1.5)
      && (regime == Neutral <==> elapsed >= WarmUpMinutes && !completes && !late && vmT <= vm <= vmT * 1.5)
  {
  }

  /** Once the mission is completed no later call can select the completion regime again. */
  lemma CompletedNeverCompletesAgain(r: RegiaState, margin: real, elapsed: real, tables: int)
    requires r.missionCompleted
    ensures RegimeOf(r, margin, elapsed, tables) != Completion
  {
  }

  function SettingsUpdate(
    lowThresh: Option<real>, highThresh: Option<real>, debtTriggerRatio: Option<real>,
    hmaxLow: Option<int>, hmaxMid: Option<int>, hmaxHigh: Option<int>,
    cooldownLow: Option<int>, cooldownMid: Option<int>, cooldownHigh: Option<int>): SettingsPatch
  {
    SettingsPatch(lowThresh, highThresh, debtTriggerRatio, hmaxLow, hmaxMid, hmaxHigh,
                  cooldownLow, cooldownMid, cooldownHigh, None)
  }

  /** The parameters each regime merges into the settings. */
  function PhasePatch(regime: Regime, tables: int): SettingsPatch
  {
    match regime
    case WarmUp =>
      SettingsUpdate(Some(-800.0), Some(800.0), Some(0.60), Some(2), Some(2), Some(1), Some(1), Some(1), Some(1))
    case Completion =>
      SettingsUpdate(Some(0.0), Some(0.0), None, Some(0), Some(0), Some(0), Some(9999), Some(9999), Some(9999))
    case Late =>
      SettingsUpdate(Some(-800.0), Some(600.0), Some(0.65), Some(Max(2, tables / 4)), Some(1), Some(0), Some(1), Some(2), Some(2))
    case Aggressive =>
      SettingsUpdate(Some(-1000.0), None, Some(0.55), Some(Max(5, tables / 2 + 1)), None, None, Some(1), None, None)
    case Protective =>
      SettingsUpdate(None, Some(1000.0), Some(0.70), None, None, Some(1), None, None, Some(2))
    case Neutral =>
      SettingsUpdate(Some(-1000.0), Some(800.0), Some(0.60), None, Some(Max(2, tables / 5)), None, None, Some(1), None)
  }

  /** No regime touches the display factor `k`. */
  lemma PhasesKeepK(regime: Regime, tables: int, s: Settings)
    ensures MergeSettings(s, PhasePatch(regime, tables)).k == s.k
  {
  }

  /** The stored configuration after `updateSettingsForPhase`: the stored settings (created with the defaults when missing) merged with the update. */
  function ApplyPhaseDb(db: Db, p: SettingsPatch): Db
  {
    UpdateConfigDb(WithConfig(db), p)
  }

  function VmTargetPatch(vm: real): RegiaPatch
  {
    NoRegiaChange.(vmTargetGlobal := Some(vm))
  }

  datatype Tuned = Tuned(db: Db, settings: Settings)

  /**
   * The store and the shared settings after `updateDynamicParameters`, in the
   * source's order of writes.
   */
  function Retune(db: Db, live: Settings, margin: real, elapsed: real, tables: int): Tuned
  {
    var r := RegiaOf(db);
    var db1 := WithRegia(db);
    var regime := RegimeOf(r, margin, elapsed, tables);
    var p := PhasePatch(regime, tables);
    if regime == WarmUp then
      Tuned(UpdateRegiaDb(ApplyPhaseDb(db1, p), VmTargetPatch(Quot(r.targetUnitsTotal, r.targetMinutesTotal))),
            MergeSettings(live, p))
    else
      var db2 := UpdateRegiaDb(db1, VmTargetPatch(VmTarget(r, tables)));
      var db3 := if regime == Completion then UpdateRegiaDb(db2, NoRegiaChange.(missionCompleted := Some(true))) else db2;
      Tuned(ApplyPhaseDb(db3, p), MergeSettings(live, p))
  }

  /**
   * During the warm-up the fixed warm-up parameters are merged into both
   * settings copies, the velocity target becomes units over minutes, and
   * nothing else changes.
   */
  lemma WarmUpRetune(db: Db, live: Settings, margin: real, elapsed: real, tables: int)
    requires elapsed < WarmUpMinutes
    ensures var t := Retune(db, live, margin, elapsed, tables);
      var r := RegiaOf(db);
      var p := PhasePatch(WarmUp, tables);
      && t.settings == MergeSettings(live, p)
      && t.settings.lowThresh == -800.0 && t.settings.highThresh == 800.0 && t.settings.debtTriggerRatio == 0.60
      && t.settings.hmaxLow == 2 && t.settings.hmaxMid == 2 && t.settings.hmaxHigh == 1
      && t.settings.cooldownLow == 1 && t.settings.cooldownMid == 1 && t.settings.cooldownHigh == 1
      && t.db.config == Some(MergeSettings(ConfigOf(db), p))
      && t.db.regia == Some(r.(vmTargetGlobal := Quot(r.targetUnitsTotal, r.targetMinutesTotal)))
      && t.db.global == db.global && t.db.scuderia == db.scuderia && t.db.tables == db.tables
      && t.db.marginCache == db.marginCache && t.db.seen == db.seen
  {
  }

  /**
   * Outside the warm-up the velocity target is stored first; reaching the
   * adjusted target while not completed sets the flag, zeroes every heavy cap
   * and sets every cooldown to 9999.
   */
  lemma CompletionRetune(db: Db, live: Settings, margin: real, elapsed: real, tables: int)
    requires elapsed >= WarmUpMinutes
    requires margin >= TargetAdj(RegiaOf(db), tables) && !RegiaOf(db).missionCompleted
    ensures var t := Retune(db, live, margin, elapsed, tables);
      var r := RegiaOf(db);
      && t.db.regia == Some(r.(vmTargetGlobal := VmTarget(r, tables), missionCompleted := true))
      && t.settings.hmaxLow == 0 && t.settings.hmaxMid == 0 && t.settings.hmaxHigh == 0
      && t.settings.cooldownLow == 9999 && t.settings.cooldownMid == 9999 && t.settings.cooldownHigh == 9999
      && t.settings.lowThresh == 0.0 && t.settings.highThresh == 0.0
      && t.settings.debtTriggerRatio == live.debtTriggerRatio
      && t.db.config.Some? && t.db.config.value.hmaxHigh == 0 && t.db.config.value.cooldownHigh == 9999
  {
  }

  /** The late phase merges the protective late-mission caps, with the low cap scaled to the tables. */
  lemma LateRetune(db: Db, live: Settings, margin: real, elapsed: real, tables: int)
    requires RegimeOf(RegiaOf(db), margin, elapsed, tables) == Late
    ensures var t := Retune(db, live, margin, elapsed, tables);
      && t.settings.lowThresh == -800.0 && t.settings.highThresh == 600.0 && t.settings.debtTriggerRatio == 0.65
      && t.settings.hmaxLow == Max(2, tables / 4) && t.settings.hmaxMid == 1 && t.settings.hmaxHigh == 0
      && t.settings.cooldownLow == 1 && t.settings.cooldownMid == 2 && t.settings.cooldownHigh == 2
      && RegiaOf(t.db).missionCompleted == RegiaOf(db).missionCompleted
      && RegiaOf(t.db).vmTargetGlobal == VmTarget(RegiaOf(db), tables)
  {
  }

  /**
   * The three velocity regimes: behind target widens the low band and its cap,
   * ahead of target tightens the high band, on target sets the neutral band;
   * each leaves the fields it does not name as they were.
   */
  lemma VelocityRegimes(db: Db, live: Settings, margin: real, elapsed: real, tables: int)
    ensures var regime := RegimeOf(RegiaOf(db), margin, elapsed, tables);
      var s := Retune(db, live, margin, elapsed, tables).settings;
      && (regime == Aggressive ==>
            s == live.(lowThresh := -1000.0, debtTriggerRatio := 0.55, hmaxLow := Max(5, tables / 2 + 1), cooldownLow := 1))
      && (regime == Protective ==>
            s == live.(highThresh := 1000.0, hmaxHigh := 1, cooldownHigh := 2, debtTriggerRatio := 0.70))
      && (regime == Neutral ==>
            s == live.(lowThresh := -1000.0, highThresh := 800.0, debtTriggerRatio := 0.60,
                       hmaxMid := Max(2, tables / 5), cooldownMid := 1))
  {
  }

  /**
   * `updateDynamicParameters` never clears the completion flag, and sets it
   * exactly when the completion regime is selected.
   */
  lemma CompletionFlagMonotone(db: Db, live: Settings, margin: real, elapsed: real, tables: int)
    ensures var t := Retune(db, live, margin, elapsed, tables);
      var r := RegiaOf(db);
      && (r.missionCompleted ==> RegiaOf(t.db).missionCompleted)
      && (RegiaOf(t.db).missionCompleted <==>
            r.missionCompleted || (elapsed >= WarmUpMinutes && margin >= TargetAdj(r, tables)))
  {
  }

  /**
   * A retune only writes the regia and settings documents, and the shared
   * settings keep every field no regime names (ladder, windows, caps, `k`).
   */
  lemma RetuneFrame(db: Db, live: Settings, margin: real, elapsed: real, tables: int)
    ensures var t := Retune(db, live, margin, elapsed, tables);
      && t.db.global == db.global && t.db.scuderia == db.scuderia && t.db.tables == db.tables
      && t.db.marginCache == db.marginCache && t.db.seen == db.seen
      && t.db.regia.Some? && t.db.config.Some?
      && t.settings.k == live.k && t.settings.levels == live.levels && t.settings.windowW10 == live.windowW10
      && t.settings.hotZones == live.hotZones && t.settings.l5LossUnits == live.l5LossUnits
      && t.settings.maxRunSideAllowedTable == live.maxRunSideAllowedTable
      && t.settings.maxHotOverridesConcurrent == live.maxHotOverridesConcurrent
      && t.settings.maxHotOverridesPerShoe == live.maxHotOverridesPerShoe
  {
    var regime := RegimeOf(RegiaOf(db), margin, elapsed, tables);
    if regime == WarmUp {
    } else if regime == Completion {
    } else {
    }
  }

  /** The regia update `initialize` writes. */
  function InitPatch(targetMargin: real, targetMinutes: real, settings: Settings): RegiaPatch
  {
    RegiaPatch(Some(targetMargin), Some(targetMinutes), Some(10), Some(Max(1, (targetMargin / 10.0).Floor)),
               Some(false), Some(0.0), Some(settings))
  }

  /** The regia update `setMissionParameters` writes. */
  function MissionPatch(targetUnits: real, totalMinutes: real, totalTables: int): RegiaPatch
  {
    var units := RMax(100.0, targetUnits);
    var tables := Max(1, totalTables);
    RegiaPatch(Some(units), Some(RMax(60.0, totalMinutes)), Some(tables),
               Some(Round(units / (tables as real))), Some(false), None, None)
  }

  /**
   * New mission parameters are clamped (at least 100 units, 60 minutes and one
   * table), the per-table target is the rounded share of the units, and the
   * mission starts over as not completed.
   */
  lemma MissionParametersClamped(db: Db, targetUnits: real, totalMinutes: real, totalTables: int)
    requires db.regia.Some?
    ensures var r := UpdateRegiaDb(db, MissionPatch(targetUnits, totalMinutes, totalTables)).regia.value;
      && r.targetUnitsTotal >= 100.0 && r.targetMinutesTotal >= 60.0 && r.targetTables >= 1
      && (targetUnits >= 100.0 ==> r.targetUnitsTotal == targetUnits)
      && (totalMinutes >= 60.0 ==> r.targetMinutesTotal == totalMinutes)
      && (totalTables >= 1 ==> r.targetTables == totalTables)
      && r.targetUnitsPerTable == Round(r.targetUnitsTotal / (r.targetTables as real))
      && !r.missionCompleted
      && r.vmTargetGlobal == db.regia.value.vmTargetGlobal && r.settings == db.regia.value.settings
  {
  }

  /** `initialize` stores a fresh, uncompleted mission over ten tables with a per-table target of at least one unit. */
  lemma InitializeMission(db: Db, targetMargin: real, targetMinutes: real, s: Settings)
    requires db.regia.Some?
    ensures var r := UpdateRegiaDb(db, InitPatch(targetMargin, targetMinutes, s)).regia.value;
      && r == RegiaState(targetMargin, targetMinutes, 10, r.targetUnitsPerTable, false, 0.0, s)
      && r.targetUnitsPerTable >= 1
      && (targetMargin >= 20.0 ==> r.targetUnitsPerTable as real <= targetMargin / 10.0 < r.targetUnitsPerTable as real + 1.0)
  {
  }

  // ------------------------- reporting -------------------------

  /** The numeric part of `getDashboardSnapshot`; the achievement percentage is not rounded here. */
  function Snapshot(r: RegiaState, margin: real, elapsed: real, tables: int, k: real): (snap: MissionSnapshot)
    ensures snap.warmUpActive <==> elapsed < WarmUpMinutes
    ensures snap.tavoliAttivi >= 1 && (tables >= 1 ==> snap.tavoliAttivi == tables)
    ensures snap.targetEuro <= 0.0 ==> snap.achievementPercent == 0.0
    ensures snap.targetEuro > 0.0 ==> snap.achievementPercent * snap.targetEuro == margin * k * 100.0
    ensures snap.targetUnitsAdj * EfficiencyFactor == TargetAdj(r, tables)
    ensures snap.missionMinutesAdj * TimeBuffer == MissionMinutes(r, tables)
    ensures snap.vmTargetUnits * RMax(1.0, snap.missionMinutesAdj) == snap.targetUnitsAdj
    ensures snap.vmTargetEuro == snap.vmTargetUnits * k && snap.targetEuro == snap.targetUnitsAdj * k
    ensures snap.missionCompleted == r.missionCompleted && snap.k == k && snap.warmUpMinutes == WarmUpMinutes
  {
    var unitsAdj := PerTables(r.targetUnitsTotal, r, tables);
    var minutesAdj := PerTables(r.targetMinutesTotal, r, tables);
    var vmUnits := unitsAdj / RMax(1.0, minutesAdj);
    var targetEuro := unitsAdj * k;
    var achievement := if targetEuro > 0.0 then (margin * k) / targetEuro * 100.0 else 0.0;
    MissionSnapshot(unitsAdj, minutesAdj, vmUnits, targetEuro, vmUnits * k, WarmUpMinutes,
                    elapsed < WarmUpMinutes, achievement, k, Max(1, tables), r.missionCompleted)
  }

  /**
   * The dashboard measures achievement against the table-scaled target without
   * the efficiency factor, while the controller completes the mission at the
   * target with it: the dashboard shows a quarter of the controller's progress,
   * so 25 % at the moment of completion.
   */
  lemma DashboardShowsQuarterOfProgress(r: RegiaState, margin: real, elapsed: real, tables: int, k: real)
    requires r.targetUnitsTotal > 0.0 && k > 0.0
    ensures Snapshot(r, margin, elapsed, tables, k).achievementPercent
            == Progress(margin, TargetAdj(r, tables)) * 100.0 * EfficiencyFactor
    ensures margin == TargetAdj(r, tables) ==> Snapshot(r, margin, elapsed, tables, k).achievementPercent == 25.0
  {
    var u := PerTables(r.targetUnitsTotal, r, tables);
    assert u > 0.0 by {
      var num := r.targetUnitsTotal * (Max(1, tables) as real);
      assert num > 0.0;
    }
    QuarterOfRatio(margin, u, k);
  }

  /** The arithmetic behind the dashboard's quarter: the same margin over the target with and without the factor. */
  lemma QuarterOfRatio(m: real, u: real, k: real)
    requires u > 0.0 && k > 0.0
    ensures (m * k) / (u * k) * 100.0 == m / (u * EfficiencyFactor) * 100.0 * EfficiencyFactor
    ensures m == u * EfficiencyFactor ==> (m * k) / (u * k) * 100.0 == 25.0
  {
    assert (m * k) / (u * k) == m / u;
    assert m / (u * 0.25) * 0.25 == m / u;
  }

  datatype Colour = Gray | Red | Yellow | Green

  /** The colour and velocity of `buildValutazione`; the message text is not modelled. */
  datatype Valutazione = Valutazione(vmValue: real, color: Colour)

  function BuildValutazione(snap: MissionSnapshot, marginEuro: real, elapsed: real): (v: Valutazione)
    ensures snap.warmUpActive <==> v.color == Colour.Gray
    ensures snap.warmUpActive ==> v.vmValue == 0.0
    ensures !snap.warmUpActive ==> v.vmValue == Velocity(marginEuro, elapsed)
    ensures !snap.warmUpActive ==>
      var ratio := v.vmValue / RMax(0.000001, snap.vmTargetEuro);
      (v.color == Colour.Red <==> ratio < 0.9) && (v.color == Colour.Yellow <==> ratio > 1.1)
      && (v.color == Colour.Green <==> 0.9 <= ratio <= 1.1)
  {
    var vm := Velocity(marginEuro, elapsed);
    if snap.warmUpActive then Valutazione(0.0, Colour.Gray)
    else
      var ratio := vm / RMax(0.000001, snap.vmTargetEuro);
      if ratio < 0.9 then Valutazione(vm, Colour.Red)
      else if ratio > 1.1 then Valutazione(vm, Colour.Yellow)
      else Valutazione(vm, Colour.Green)
  }

  /** Colours ordered by velocity: red is slowest, then green, then yellow. */
  function ColourRank(c: Colour): int
  {
    match c
    case Gray => 0
    case Red => 1
    case Green => 2
    case Yellow => 3
  }

  /** Over the same elapsed time, a larger margin never yields a slower colour. */
  lemma ValutazioneMonotone(snap: MissionSnapshot, m1: real, m2: real, elapsed: real)
    requires m1 <= m2
    ensures ColourRank(BuildValutazione(snap, m1, elapsed).color) <= ColourRank(BuildValutazione(snap, m2, elapsed).color)
  {
    var d := RMax(1.0, elapsed);
    var t := RMax(0.000001, snap.vmTargetEuro);
    assert m1 / d <= m2 / d;
    assert (m1 / d) / t <= (m2 / d) / t;
  }

  datatype MissionInfo = MissionInfo(unitsTarget: real, minutesTarget: real, tablesTarget: int, vmTarget: real)

  class RegiaAdaptiva {
    const store: Store
    /** The settings object shared with the engine. */
    const live: LiveSettings

    constructor (store: Store, live: LiveSettings)
      ensures this.store == store && this.live == live
    {
      this.store := store;
      this.live := live;
    }

    method Initialize(targetMargin: real, targetMinutes: real) returns (ok: bool)
      modifies store
      ensures ok == old(store.State()).regia.Some?
      ensures store.State() == UpdateRegiaDb(old(store.State()), InitPatch(targetMargin, targetMinutes, live.value))
    {
      var state := RegiaPatch(Some(targetMargin), Some(targetMinutes), Some(10),
                              Some(Max(1, (targetMargin / 10.0).Floor)), Some(false), Some(0.0), Some(live.value));
      ok := store.UpdateRegiaState(state);
    }

    method SetMissionParameters(targetUnits: real, totalMinutes: real, totalTables: int) returns (ok: bool)
      modifies store
      ensures ok == old(store.State()).regia.Some?
      ensures store.State() == UpdateRegiaDb(old(store.State()), MissionPatch(targetUnits, totalMinutes, totalTables))
    {
      var units := RMax(100.0, targetUnits);
      var tables := Max(1, totalTables);
      var updates := RegiaPatch(Some(units), Some(RMax(60.0, totalMinutes)), Some(tables),
                                Some(Round(units / (tables as real))), Some(false), None, None);
      ok := store.UpdateRegiaState(updates);
    }

    method GetMissionInfo() returns (info: MissionInfo)
      modifies store
      ensures var r := RegiaOf(old(store.State()));
        info == MissionInfo(r.targetUnitsTotal, r.targetMinutesTotal, r.targetTables, r.vmTargetGlobal)
      ensures store.State() == WithRegia(old(store.State()))
    {
      var state := store.GetRegiaState();
      info := MissionInfo(state.targetUnitsTotal, state.targetMinutesTotal, state.targetTables, state.vmTargetGlobal);
    }

    method ShouldStopMission() returns (stop: bool)
      modifies store
      ensures stop == RegiaOf(old(store.State())).missionCompleted
      ensures store.State() == WithRegia(old(store.State()))
    {
      var state := store.GetRegiaState();
      stop := state.missionCompleted;
    }

    /** Merges the update into the stored settings and into the shared settings object. */
    method UpdateSettingsForPhase(updates: SettingsPatch)
      modifies store, live
      ensures store.State() == ApplyPhaseDb(old(store.State()), updates)
      ensures live.value == MergeSettings(old(live.value), updates)
    {
      var currentSettings := store.GetSettings();
      var _ := store.UpdateSettings(updates);
      live.value := MergeSettings(live.value, updates);
    }

    method UpdateDynamicParameters(currentMarginUnits: real, elapsedMinutes: real, tavoliAttivi: int)
      modifies store, live
      ensures Tuned(store.State(), live.value)
           == Retune(old(store.State()), old(live.value), currentMarginUnits, elapsedMinutes, tavoliAttivi)
    {
      var state := store.GetRegiaState();

      if elapsedMinutes < WarmUpMinutes {
        UpdateSettingsForPhase(PhasePatch(WarmUp, tavoliAttivi));
        var vmTarget := Quot(state.targetUnitsTotal, state.targetMinutesTotal);
        var _ := store.UpdateRegiaState(VmTargetPatch(vmTarget));
        return;
      }

      var targetTotalAdj := TargetAdj(state, tavoliAttivi);
      var missionMinutes := MissionMinutes(state, tavoliAttivi);
      var vmTarget := targetTotalAdj / RMax(1.0, missionMinutes);
      var _ := store.UpdateRegiaState(VmTargetPatch(vmTarget));

      var vm := Velocity(currentMarginUnits, elapsedMinutes);
      var progress := Progress(currentMarginUnits, targetTotalAdj);

      if currentMarginUnits >= targetTotalAdj && !state.missionCompleted {
        var _ := store.UpdateRegiaState(NoRegiaChange.(missionCompleted := Some(true)));
        UpdateSettingsForPhase(PhasePatch(Completion, tavoliAttivi));
        return;
      }

      if progress >= 0.50 && elapsedMinutes >= missionMinutes * 0.30 {
        UpdateSettingsForPhase(PhasePatch(Late, tavoliAttivi));
        return;
      }

      if vm < vmTarget {
        UpdateSettingsForPhase(PhasePatch(Aggressive, tavoliAttivi));
      } else if vm > vmTarget * 1.5 {
        UpdateSettingsForPhase(PhasePatch(Protective, tavoliAttivi));
      } else {
        UpdateSettingsForPhase(PhasePatch(Neutral, tavoliAttivi));
      }
    }

    method GetDashboardSnapshot(currentMarginUnits: real, elapsedMinutes: real, tavoliAttivi: int, k: real)
      returns (snap: MissionSnapshot)
      modifies store
      ensures snap == Snapshot(RegiaOf(old(store.State())), currentMarginUnits, elapsedMinutes, tavoliAttivi, k)
      ensures store.State() == WithRegia(old(store.State()))
    {
      var state := store.GetRegiaState();
      snap := Snapshot(state, currentMarginUnits, elapsedMinutes, tavoliAttivi, k);
    }
  }
}
