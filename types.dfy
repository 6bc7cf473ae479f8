/**
 * Record types and the default configuration of the proactive staking engine
 * (functions/src/ProactiveEngine/types.ts).
 *
 * Margins, thresholds, stakes and ratios are `real`; counters are `int`.
 * Display strings of the source (reason, prediction, table status, the
 * hot-zone label and the tooltip JSON) are enumerations or small records.
 */
module Types {

  datatype Option<+T> = None | Some(value: T)

  function Max(a: int, b: int): int { if a >= b then a else b }
  function Min(a: int, b: int): int { if a <= b then a else b }
  function RMax(a: real, b: real): real { if a >= b then a else b }
  function Abs(x: real): real { if x < 0.0 then -x else x }

  /** JavaScript's Math.round: the nearest integer, halves rounded up. */
  function Round(x: real): int { (x + 0.5).Floor }

  /** Outcome of one hand as the caller reports it: "P", "B", "T"; any other string (lower case included) is `Other`. */
  datatype Esito = P | B | T | Other(raw: string)

  /** Lower-case outcome kept in the per-table window: "p", "b" or "t". */
  datatype Side = SideP | SideB | SideT

  /** The lower-case form of an outcome when it is one of "p", "b", "t". */
  function LowerSide(e: Esito): Option<Side>
  {
    match e
    case P => Some(SideP)
    case B => Some(SideB)
    case T => Some(SideT)
    case Other(raw) =>
      if raw == "p" then Some(SideP) else if raw == "b" then Some(SideB) else if raw == "t" then Some(SideT) else None
  }

  datatype Signal = Green | Yellow | Red

  /** The reason texts the engine writes into an advice. */
  datatype Reason =
    | TableDisabled          // "Tavolo disabilitato"
    | InvalidInput           // "Input invalido"
    | StopWin                // "STOP-WIN"
    | StopL5Sync             // "Stop L5 sync"
    | StopL5Early            // "Stop L5 anticipato"
    | DefaultReason          // "Default"
    | DogmaActive(level: int)        // "Dogma attivo L<level>"
    | DogmaLevel(level: int)         // "Dogma L<level>"
    | StopL5HotRed           // "Stop L5: hot/rosso"
    | DogmaExtendedVm20(vm: real)    // "Dogma esteso L5 Vm20 <vm>"
    | OverrideHot            // "Override HOT L5"
    | StopL5Default          // "Stop L5 default"

  datatype Prediction = Safe | PredictionDisabled | StopMission | StopL5 | DogmaL8 | L6Authorized

  datatype TableStatus = Active | Warning | StatusDisabled | MissionComplete

  /** What the hot-zone label names: the first configured zone holding the hand, or the open hand. */
  datatype ZoneLabel = NoLabel | ClosedZone(zoneStart: int, zoneEnd: int) | OpenZone(handNo: int)

  /** The diagnostic payload serialised into `tooltipJson`; `NoTooltip` is the empty string. */
  datatype Tooltip =
    | NoTooltip
    | Diagnostics(handNo: int, runP: int, maxRunP: int, heavyCount: int, hmax: int, cdn: int, cooldown: int)

  datatype HotZone = HotZone(zoneStart: int, zoneEnd: int)

  datatype Settings = Settings(
    levels: seq<real>,
    k: real,
    windowW10: nat,
    maxRunPAllowed: int,
    maxRunSideAllowedTable: int,
    hotZones: seq<HotZone>,
    highThresh: real,
    lowThresh: real,
    hmaxHigh: int,
    hmaxMid: int,
    hmaxLow: int,
    cooldownHigh: int,
    cooldownMid: int,
    cooldownLow: int,
    l5LossUnits: real,
    maxHotOverridesConcurrent: int,
    maxHotOverridesPerShoe: int,
    debtTriggerRatio: real,
    meanUnitsPerHandPerTable: real,
    estimatedHandsLeftPerTable: real,
    syncDelayMs: int,
    heavyDecayAfterHands: int,
    resetOnMapChange: bool,
    globalHeavyCapWindow: int,
    globalHeavyCap: int,
    perTableHeavyLimit: int)

  const DefaultLevels: seq<real> := [1.0, 3.0, 7.0, 15.0, 35.0, 75.0, 155.0, 340.0]

  const DefaultHotZones: seq<HotZone> :=
    [HotZone(11, 20), HotZone(41, 50), HotZone(51, 60), HotZone(61, 70)]

  const DefaultSettings: Settings := Settings(
    levels := DefaultLevels,
    k := 1.0,
    windowW10 := 20,
    maxRunPAllowed := 2,
    maxRunSideAllowedTable := 3,
    hotZones := DefaultHotZones,
    highThresh := 250.0,
    lowThresh := -300.0,
    hmaxHigh := 1,
    hmaxMid := 1,
    hmaxLow := 1,
    cooldownHigh := 4,
    cooldownMid := 3,
    cooldownLow := 2,
    l5LossUnits := 61.0,
    maxHotOverridesConcurrent := 0,
    maxHotOverridesPerShoe := 1,
    debtTriggerRatio := 0.60,
    meanUnitsPerHandPerTable := 0.50,
    estimatedHandsLeftPerTable := 35.0,
    syncDelayMs := 120,
    heavyDecayAfterHands := 5,
    resetOnMapChange := true,
    globalHeavyCapWindow := 60,
    globalHeavyCap := 4,
    perTableHeavyLimit := 2)

  datatype Advice = Advice(
    tableId: int,
    levelIndex: int,
    stakeUnits: real,
    globalMargin: real,
    stopAtL5: bool,
    authorizedHeavy: bool,
    reason: Reason,
    signalW10: Signal,
    signalTableW10: Signal,
    hotZone: bool,
    tooltip: Tooltip,
    hotZoneLabel: ZoneLabel,
    portfolioDebtUnits: real,
    hotOverridesActive: int,
    hotOverridesUsedThisShoe: int,
    vmLocal20: real,
    prediction: Prediction,
    tableStatus: TableStatus)

  datatype RowState = RowState(
    prevMazzo: Option<int>,
    prevLevel: int,
    prevMargine: real,
    prevStake: real,
    prevSignalW10: string,
    prevHotZone: bool,
    history: seq<Esito>,
    historyTable: seq<Side>,
    runP: int,
    forceToL8Active: bool,
    l5ClosedCount: int,
    handCount: int,
    margineAccum: real,
    vmLocal20: real,
    warmInputs: int,
    invalidCount: int,
    validRecovery: int,
    disabled: bool)

  /** The last raw input of a table; `marginFinite` is false for a NaN or infinite margin. */
  datatype LastInput = LastInput(handIndex: int, margineK: real, marginFinite: bool, martingalaUi: int, esito: Esito)

  datatype GlobalState = GlobalState(
    globalMarginUnits: real,
    heavyCount: int,
    cooldown: int,
    portfolioDebtUnits: real,
    hotOverridesActive: int,
    hotOverridesUsedThisShoe: int)

  /** Heavy-lifecycle state; timestamps are kept as their seconds. */
  datatype ScuderiaState = ScuderiaState(handsSinceLastHeavy: int, recentHeavyTimestamps: seq<int>)

  datatype RegiaState = RegiaState(
    targetUnitsTotal: real,
    targetMinutesTotal: real,
    targetTables: int,
    targetUnitsPerTable: int,
    missionCompleted: bool,
    vmTargetGlobal: real,
    settings: Settings)

  datatype TableState = TableState(
    rowState: RowState,
    lastAdvice: Option<Advice>,
    lastInput: Option<LastInput>,
    marginUnits: real)

  datatype MissionSnapshot = MissionSnapshot(
    targetUnitsAdj: real,
    missionMinutesAdj: real,
    vmTargetUnits: real,
    targetEuro: real,
    vmTargetEuro: real,
    warmUpMinutes: real,
    warmUpActive: bool,
    achievementPercent: real,
    k: real,
    tavoliAttivi: int,
    missionCompleted: bool)

  // ---------------------------------------------------------------------
  // Partial updates (`Partial<T>` in the source): a named field replaces the
  // stored one, an unnamed field keeps it.
  // ---------------------------------------------------------------------

  function Pick<X>(o: Option<X>, current: X): X
  {
    if o.Some? then o.value else current
  }

  datatype GlobalPatch = GlobalPatch(
    heavyCount: Option<int>,
    cooldown: Option<int>,
    portfolioDebtUnits: Option<real>,
    hotOverridesActive: Option<int>,
    hotOverridesUsedThisShoe: Option<int>)

  const NoGlobalChange := GlobalPatch(None, None, None, None, None)

  function MergeGlobal(g: GlobalState, p: GlobalPatch): (r: GlobalState)
    ensures r.globalMarginUnits == g.globalMarginUnits
    ensures p.heavyCount.None? ==> r.heavyCount == g.heavyCount
    ensures p.heavyCount.Some? ==> r.heavyCount == p.heavyCount.value
    ensures p.cooldown.None? ==> r.cooldown == g.cooldown
    ensures p.cooldown.Some? ==> r.cooldown == p.cooldown.value
    ensures p.portfolioDebtUnits.None? ==> r.portfolioDebtUnits == g.portfolioDebtUnits
    ensures p.portfolioDebtUnits.Some? ==> r.portfolioDebtUnits == p.portfolioDebtUnits.value
    ensures p.hotOverridesActive.None? ==> r.hotOverridesActive == g.hotOverridesActive
    ensures p.hotOverridesActive.Some? ==> r.hotOverridesActive == p.hotOverridesActive.value
    ensures p.hotOverridesUsedThisShoe.None? ==> r.hotOverridesUsedThisShoe == g.hotOverridesUsedThisShoe
    ensures p.hotOverridesUsedThisShoe.Some? ==> r.hotOverridesUsedThisShoe == p.hotOverridesUsedThisShoe.value
  {
    GlobalState(
      g.globalMarginUnits,
      Pick(p.heavyCount, g.heavyCount),
      Pick(p.cooldown, g.cooldown),
      Pick(p.portfolioDebtUnits, g.portfolioDebtUnits),
      Pick(p.hotOverridesActive, g.hotOverridesActive),
      Pick(p.hotOverridesUsedThisShoe, g.hotOverridesUsedThisShoe))
  }

  datatype ScuderiaPatch = ScuderiaPatch(handsSinceLastHeavy: Option<int>, recentHeavyTimestamps: Option<seq<int>>)

  function MergeScuderia(s: ScuderiaState, p: ScuderiaPatch): (r: ScuderiaState)
    ensures p.handsSinceLastHeavy.None? ==> r.handsSinceLastHeavy == s.handsSinceLastHeavy
    ensures p.handsSinceLastHeavy.Some? ==> r.handsSinceLastHeavy == p.handsSinceLastHeavy.value
    ensures p.recentHeavyTimestamps.None? ==> r.recentHeavyTimestamps == s.recentHeavyTimestamps
    ensures p.recentHeavyTimestamps.Some? ==> r.recentHeavyTimestamps == p.recentHeavyTimestamps.value
  {
    ScuderiaState(Pick(p.handsSinceLastHeavy, s.handsSinceLastHeavy), Pick(p.recentHeavyTimestamps, s.recentHeavyTimestamps))
  }

  datatype RegiaPatch = RegiaPatch(
    targetUnitsTotal: Option<real>,
    targetMinutesTotal: Option<real>,
    targetTables: Option<int>,
    targetUnitsPerTable: Option<int>,
    missionCompleted: Option<bool>,
    vmTargetGlobal: Option<real>,
    settings: Option<Settings>)

  const NoRegiaChange := RegiaPatch(None, None, None, None, None, None, None)

  function MergeRegia(r: RegiaState, p: RegiaPatch): (r': RegiaState)
    ensures p.missionCompleted.None? ==> r'.missionCompleted == r.missionCompleted
    ensures p.missionCompleted.Some? ==> r'.missionCompleted == p.missionCompleted.value
    ensures p.vmTargetGlobal.None? ==> r'.vmTargetGlobal == r.vmTargetGlobal
    ensures p.vmTargetGlobal.Some? ==> r'.vmTargetGlobal == p.vmTargetGlobal.value
    ensures p.targetUnitsTotal.None? ==> r'.targetUnitsTotal == r.targetUnitsTotal
    ensures p.targetUnitsTotal.Some? ==> r'.targetUnitsTotal == p.targetUnitsTotal.value
    ensures p.targetMinutesTotal.None? ==> r'.targetMinutesTotal == r.targetMinutesTotal
    ensures p.targetMinutesTotal.Some? ==> r'.targetMinutesTotal == p.targetMinutesTotal.value
    ensures p.targetTables.None? ==> r'.targetTables == r.targetTables
    ensures p.targetTables.Some? ==> r'.targetTables == p.targetTables.value
    ensures p.targetUnitsPerTable.None? ==> r'.targetUnitsPerTable == r.targetUnitsPerTable
    ensures p.targetUnitsPerTable.Some? ==> r'.targetUnitsPerTable == p.targetUnitsPerTable.value
    ensures p.settings.None? ==> r'.settings == r.settings
    ensures p.settings.Some? ==> r'.settings == p.settings.value
  {
    RegiaState(
      Pick(p.targetUnitsTotal, r.targetUnitsTotal),
      Pick(p.targetMinutesTotal, r.targetMinutesTotal),
      Pick(p.targetTables, r.targetTables),
      Pick(p.targetUnitsPerTable, r.targetUnitsPerTable),
      Pick(p.missionCompleted, r.missionCompleted),
      Pick(p.vmTargetGlobal, r.vmTargetGlobal),
      Pick(p.settings, r.settings))
  }

  /** The settings fields that the mission controller and `setK` ever name in an update. */
  datatype SettingsPatch = SettingsPatch(
    lowThresh: Option<real>,
    highThresh: Option<real>,
    debtTriggerRatio: Option<real>,
    hmaxLow: Option<int>,
    hmaxMid: Option<int>,
    hmaxHigh: Option<int>,
    cooldownLow: Option<int>,
    cooldownMid: Option<int>,
    cooldownHigh: Option<int>,
    k: Option<real>)

  const NoSettingsChange := SettingsPatch(None, None, None, None, None, None, None, None, None, None)

  function MergeSettings(s: Settings, p: SettingsPatch): (r: Settings)
    ensures r.levels == s.levels && r.windowW10 == s.windowW10 && r.hotZones == s.hotZones
    ensures r.maxRunSideAllowedTable == s.maxRunSideAllowedTable && r.l5LossUnits == s.l5LossUnits
    ensures r.maxHotOverridesConcurrent == s.maxHotOverridesConcurrent
    ensures r.maxHotOverridesPerShoe == s.maxHotOverridesPerShoe
    ensures r.meanUnitsPerHandPerTable == s.meanUnitsPerHandPerTable
    ensures r.estimatedHandsLeftPerTable == s.estimatedHandsLeftPerTable
    ensures r.heavyDecayAfterHands == s.heavyDecayAfterHands
    ensures r.globalHeavyCapWindow == s.globalHeavyCapWindow && r.globalHeavyCap == s.globalHeavyCap
    ensures r.lowThresh == Pick(p.lowThresh, s.lowThresh) && r.highThresh == Pick(p.highThresh, s.highThresh)
    ensures r.debtTriggerRatio == Pick(p.debtTriggerRatio, s.debtTriggerRatio)
    ensures r.hmaxLow == Pick(p.hmaxLow, s.hmaxLow) && r.hmaxMid == Pick(p.hmaxMid, s.hmaxMid)
    ensures r.hmaxHigh == Pick(p.hmaxHigh, s.hmaxHigh)
    ensures r.cooldownLow == Pick(p.cooldownLow, s.cooldownLow) && r.cooldownMid == Pick(p.cooldownMid, s.cooldownMid)
    ensures r.cooldownHigh == Pick(p.cooldownHigh, s.cooldownHigh)
    ensures r.k == Pick(p.k, s.k)
  {
    s.(lowThresh := Pick(p.lowThresh, s.lowThresh),
       highThresh := Pick(p.highThresh, s.highThresh),
       debtTriggerRatio := Pick(p.debtTriggerRatio, s.debtTriggerRatio),
       hmaxLow := Pick(p.hmaxLow, s.hmaxLow),
       hmaxMid := Pick(p.hmaxMid, s.hmaxMid),
       hmaxHigh := Pick(p.hmaxHigh, s.hmaxHigh),
       cooldownLow := Pick(p.cooldownLow, s.cooldownLow),
       cooldownMid := Pick(p.cooldownMid, s.cooldownMid),
       cooldownHigh := Pick(p.cooldownHigh, s.cooldownHigh),
       k := Pick(p.k, s.k))
  }

  /** Merging the empty patch changes nothing. */
  lemma MergeNothingIsIdentity(s: Settings)
    ensures MergeSettings(s, NoSettingsChange) == s
  {
  }

  datatype TablePatch = TablePatch(rowState: Option<RowState>, lastAdvice: Option<Advice>, lastInput: Option<LastInput>)

  function MergeTable(t: TableState, p: TablePatch): (r: TableState)
    ensures r.marginUnits == t.marginUnits
    ensures r.rowState == Pick(p.rowState, t.rowState)
    ensures p.lastAdvice.None? ==> r.lastAdvice == t.lastAdvice
    ensures p.lastAdvice.Some? ==> r.lastAdvice == Some(p.lastAdvice.value)
    ensures p.lastInput.None? ==> r.lastInput == t.lastInput
    ensures p.lastInput.Some? ==> r.lastInput == Some(p.lastInput.value)
  {
    TableState(
      Pick(p.rowState, t.rowState),
      if p.lastAdvice.Some? then Some(p.lastAdvice.value) else t.lastAdvice,
      if p.lastInput.Some? then Some(p.lastInput.value) else t.lastInput,
      t.marginUnits)
  }

  /**
   * The in-process settings object. The engine and its mission controller hold
   * the same object; the controller merges regime parameters into it in place.
   */
  class LiveSettings {
    var value: Settings

    constructor (initial: Settings)
      ensures value == initial
    {
      value := initial;
    }
  }

  // ---------------------------------------------------------------------
  // Facts about the default configuration.
  // ---------------------------------------------------------------------

  /** The default ladder has eight strictly increasing rungs. */
  lemma DefaultLadderStrictlyIncreasing()
    ensures |DefaultSettings.levels| == 8
    ensures forall i, j :: 0 <= i < j < |DefaultSettings.levels| ==> DefaultSettings.levels[i] < DefaultSettings.levels[j]
  {
  }

  /** The loss booked when a ladder stops at level 5 is the sum of the first five rungs. */
  lemma L5LossIsFirstFiveRungs()
    ensures DefaultSettings.l5LossUnits == DefaultLevels[0] + DefaultLevels[1] + DefaultLevels[2] + DefaultLevels[3] + DefaultLevels[4]
  {
  }

  /** The default hot zones are well formed, ordered and do not overlap. */
  lemma DefaultHotZonesOrdered()
    ensures forall i :: 0 <= i < |DefaultHotZones| ==> DefaultHotZones[i].zoneStart <= DefaultHotZones[i].zoneEnd
    ensures forall i :: 0 <= i < |DefaultHotZones| - 1 ==> DefaultHotZones[i].zoneEnd < DefaultHotZones[i + 1].zoneStart
  {
  }

  /** The default display factor is one that `setK` would accept. */
  lemma DefaultKPositive()
    ensures DefaultSettings.k > 0.0
  {
  }
}
