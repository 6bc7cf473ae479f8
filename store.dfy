/**
 * The persistence collaborator (functions/src/ProactiveEngine/firestoreService.ts)
 * as an in-memory store: one optional document per shared aggregate, a map of
 * table documents, the per-table margin cache and the set of seen
 * (table, hand) keys.
 *
 * Getters create and store their default document on first read. Updaters
 * merge the named fields into an existing document; like a document `update`,
 * they change nothing when the document does not exist.
 */
module Store {
  import opened Types

  datatype Db = Db(
    global: Option<GlobalState>,
    scuderia: Option<ScuderiaState>,
    regia: Option<RegiaState>,
    config: Option<Settings>,
    tables: map<int, TableState>,
    marginCache: map<int, real>,
    seen: set<(int, int)>)

  const EmptyDb := Db(None, None, None, None, map[], map[], {})

  const DefaultGlobal := GlobalState(0.0, 0, 0, 0.0, 0, 0)
  const DefaultScuderia := ScuderiaState(0, [])
  const DefaultRegia := RegiaState(900.0, 480.0, 10, 90, false, 0.0, DefaultSettings)

  const EmptyRowState := RowState(
    prevMazzo := None,
    prevLevel := 0,
    prevMargine := 0.0,
    prevStake := 0.0,
    prevSignalW10 := "",
    prevHotZone := false,
    history := [],
    historyTable := [],
    runP := 0,
    forceToL8Active := false,
    l5ClosedCount := 0,
    handCount := 0,
    margineAccum := 0.0,
    vmLocal20 := 0.0,
    warmInputs := 0,
    invalidCount := 0,
    validRecovery := 0,
    disabled := false)

  const EmptyTableState := TableState(EmptyRowState, None, None, 0.0)

  // ------------------------- reads with defaults -------------------------

  function GlobalOf(db: Db): GlobalState { if db.global.Some? then db.global.value else DefaultGlobal }
  function ScuderiaOf(db: Db): ScuderiaState { if db.scuderia.Some? then db.scuderia.value else DefaultScuderia }
  function RegiaOf(db: Db): RegiaState { if db.regia.Some? then db.regia.value else DefaultRegia }
  function ConfigOf(db: Db): Settings { if db.config.Some? then db.config.value else DefaultSettings }
  function TableOf(db: Db, t: int): TableState { if t in db.tables then db.tables[t] else EmptyTableState }

  // ------------------------- get-or-create -------------------------

  function WithGlobal(db: Db): Db { db.(global := Some(GlobalOf(db))) }
  function WithScuderia(db: Db): Db { db.(scuderia := Some(ScuderiaOf(db))) }
  function WithRegia(db: Db): Db { db.(regia := Some(RegiaOf(db))) }
  function WithConfig(db: Db): Db { db.(config := Some(ConfigOf(db))) }
  function WithTable(db: Db, t: int): Db { db.(tables := db.tables[t := TableOf(db, t)]) }

  // ------------------------- partial-merge updates -------------------------

  function UpdateGlobalDb(db: Db, p: GlobalPatch): Db
  {
    if db.global.Some? then db.(global := Some(MergeGlobal(db.global.value, p))) else db
  }

  function UpdateScuderiaDb(db: Db, p: ScuderiaPatch): Db
  {
    if db.scuderia.Some? then db.(scuderia := Some(MergeScuderia(db.scuderia.value, p))) else db
  }

  function UpdateRegiaDb(db: Db, p: RegiaPatch): Db
  {
    if db.regia.Some? then db.(regia := Some(MergeRegia(db.regia.value, p))) else db
  }

  function UpdateConfigDb(db: Db, p: SettingsPatch): Db
  {
    if db.config.Some? then db.(config := Some(MergeSettings(db.config.value, p))) else db
  }

  function UpdateTableDb(db: Db, t: int, p: TablePatch): Db
  {
    if t in db.tables then db.(tables := db.tables[t := MergeTable(db.tables[t], p)]) else db
  }

  function MarkSeenDb(db: Db, t: int, hand: int): Db
  {
    db.(seen := db.seen + {(t, hand)})
  }

  /** The table's cached margin, zero when the cache has no entry. */
  function CachedMargin(db: Db, t: int): real
  {
    if t in db.marginCache then db.marginCache[t] else 0.0
  }

  /**
   * The margin fold: the table's cache entry becomes `v` and the global margin
   * moves by `v` minus the old entry. A missing global document is read as the
   * zero default (see the finding in README.md for the source's behaviour).
   */
  function FoldDb(db: Db, t: int, v: real): Db
  {
    var g := GlobalOf(db);
    db.(marginCache := db.marginCache[t := v],
        global := Some(g.(globalMarginUnits := g.globalMarginUnits + (v - CachedMargin(db, t)))))
  }

  // ------------------------- conservation of the margin fold -------------------------

  lemma EmptyIfNoMember(s: set<int>)
    requires forall x :: x !in s
    ensures s == {}
  {
    assert forall x :: x in s <==> x in {};
  }

  lemma HasMember(s: set<int>)
    requires s != {}
    ensures exists x :: x in s
  {
    if forall x :: x !in s {
      EmptyIfNoMember(s);
      assert false;
    }
  }

  ghost function SumOver(m: map<int, real>, keys: set<int>): real
    requires keys <= m.Keys
    decreases keys
  {
    if keys == {} then 0.0
    else
      HasMember(keys);
      var k :| k in keys;
      m[k] + SumOver(m, keys - {k})
  }

  /** Sum of all cached table margins. */
  ghost function CacheTotal(m: map<int, real>): real
  {
    SumOver(m, m.Keys)
  }

  /** What the global margin holds beyond the sum of the table cache. */
  ghost function Imbalance(db: Db): real
  {
    GlobalOf(db).globalMarginUnits - CacheTotal(db.marginCache)
  }

  lemma {:induction false} SumOverPick(m: map<int, real>, keys: set<int>, k: int)
    requires keys <= m.Keys && k in keys
    ensures SumOver(m, keys) == m[k] + SumOver(m, keys - {k})
    decreases keys
  {
    var j :| j in keys && SumOver(m, keys) == m[j] + SumOver(m, keys - {j});
    if j != k {
      SumOverPick(m, keys - {j}, k);
      SumOverPick(m, keys - {k}, j);
      assert keys - {j} - {k} == keys - {k} - {j};
    }
  }

  lemma {:induction false} SumOverAgree(m1: map<int, real>, m2: map<int, real>, keys: set<int>)
    requires keys <= m1.Keys && keys <= m2.Keys
    requires forall k :: k in keys ==> m1[k] == m2[k]
    ensures SumOver(m1, keys) == SumOver(m2, keys)
    decreases keys
  {
    if keys != {} {
      HasMember(keys);
      var k :| k in keys;
      SumOverPick(m1, keys, k);
      SumOverPick(m2, keys, k);
      SumOverAgree(m1, m2, keys - {k});
    }
  }

  /** Overwriting one cache entry moves the cache total by the new value minus the old one. */
  lemma CacheTotalUpdate(m: map<int, real>, t: int, v: real)
    ensures CacheTotal(m[t := v]) == CacheTotal(m) + v - (if t in m then m[t] else 0.0)
  {
    var m' := m[t := v];
    var rest := m.Keys - {t};
    SumOverPick(m', m'.Keys, t);
    assert m'.Keys - {t} == rest;
    SumOverAgree(m, m', rest);
    if t in m {
      SumOverPick(m, m.Keys, t);
    } else {
      assert rest == m.Keys;
    }
  }

  /** The fold keeps `global - Σ cache` unchanged, for any table and any value. */
  lemma FoldConservesImbalance(db: Db, t: int, v: real)
    ensures Imbalance(FoldDb(db, t, v)) == Imbalance(db)
  {
    CacheTotalUpdate(db.marginCache, t, v);
  }

  /** From the empty store, every sequence of folds leaves the global margin equal to the cache total. */
  lemma {:induction false} FoldsBalanceFromEmpty(ops: seq<(int, real)>)
    ensures Imbalance(FoldAll(EmptyDb, ops)) == 0.0
    decreases |ops|
  {
    if ops == [] {
      assert CacheTotal(map[]) == 0.0;
    } else {
      FoldsBalanceFromEmpty(ops[..|ops| - 1]);
      var last := ops[|ops| - 1];
      FoldConservesImbalance(FoldAll(EmptyDb, ops[..|ops| - 1]), last.0, last.1);
    }
  }

  function FoldAll(db: Db, ops: seq<(int, real)>): Db
    decreases |ops|
  {
    if ops == [] then db
    else
      var last := ops[|ops| - 1];
      FoldDb(FoldAll(db, ops[..|ops| - 1]), last.0, last.1)
  }

  /** Updates to the other global fields never move the balance. */
  lemma UpdateGlobalConservesImbalance(db: Db, p: GlobalPatch)
    ensures Imbalance(UpdateGlobalDb(db, p)) == Imbalance(db)
  {
  }

  // ------------------------- facts about the defaults -------------------------

  /** A missing global document reads as all-zero counters, and the created document is what later reads return. */
  lemma GetGlobalDefaults(db: Db)
    ensures db.global.None? ==> GlobalOf(db) == GlobalState(0.0, 0, 0, 0.0, 0, 0)
    ensures GlobalOf(WithGlobal(db)) == GlobalOf(db)
    ensures WithGlobal(WithGlobal(db)) == WithGlobal(db)
  {
  }

  /** The default mission is 900 units in 480 minutes over 10 tables, not completed, under the default settings. */
  lemma DefaultRegiaValues(db: Db)
    ensures db.regia.None? ==> RegiaOf(db) == RegiaState(900.0, 480.0, 10, 90, false, 0.0, DefaultSettings)
    ensures db.config.None? ==> ConfigOf(db) == DefaultSettings
  {
  }

  /** Marking an input seen is idempotent, and the key is seen afterwards. */
  lemma MarkSeenIdempotent(db: Db, t: int, hand: int)
    ensures (t, hand) in MarkSeenDb(db, t, hand).seen
    ensures MarkSeenDb(MarkSeenDb(db, t, hand), t, hand) == MarkSeenDb(db, t, hand)
    ensures MarkSeenDb(db, t, hand).seen - {(t, hand)} == db.seen - {(t, hand)}
  {
  }

  class Store {
    var global: Option<GlobalState>
    var scuderia: Option<ScuderiaState>
    var regia: Option<RegiaState>
    var config: Option<Settings>
    var tables: map<int, TableState>
    var marginCache: map<int, real>
    var seen: set<(int, int)>

    /** The documents the store holds. */
    function State(): Db
      reads this
    {
      Db(global, scuderia, regia, config, tables, marginCache, seen)
    }

    constructor ()
      ensures State() == EmptyDb
    {
      global, scuderia, regia, config := None, None, None, None;
      tables, marginCache, seen := map[], map[], {};
    }

    method GetGlobalState() returns (g: GlobalState)
      modifies this
      ensures g == GlobalOf(old(State()))
      ensures State() == WithGlobal(old(State()))
    {
      if global.None? {
        global := Some(DefaultGlobal);
      }
      g := global.value;
    }

    method UpdateGlobalState(p: GlobalPatch) returns (ok: bool)
      modifies this
      ensures ok == old(global).Some?
      ensures State() == UpdateGlobalDb(old(State()), p)
    {
      ok := global.Some?;
      if ok {
        global := Some(MergeGlobal(global.value, p));
      }
    }

    /** The margin fold, one atomic step. */
    method IncrementGlobalMargin(tableId: int, marginDelta: real)
      modifies this
      ensures State() == FoldDb(old(State()), tableId, marginDelta)
      ensures Imbalance(State()) == Imbalance(old(State()))
    {
      var currentTableMargin := if tableId in marginCache then marginCache[tableId] else 0.0;
      var newTableMargin := marginDelta;
      var globalDelta := newTableMargin - currentTableMargin;
      var current := if global.Some? then global.value else DefaultGlobal;
      marginCache := marginCache[tableId := newTableMargin];
      global := Some(current.(globalMarginUnits := current.globalMarginUnits + globalDelta));
      FoldConservesImbalance(old(State()), tableId, marginDelta);
    }

    method GetScuderiaState() returns (s: ScuderiaState)
      modifies this
      ensures s == ScuderiaOf(old(State()))
      ensures State() == WithScuderia(old(State()))
    {
      if scuderia.None? {
        scuderia := Some(DefaultScuderia);
      }
      s := scuderia.value;
    }

    method UpdateScuderiaState(p: ScuderiaPatch) returns (ok: bool)
      modifies this
      ensures ok == old(scuderia).Some?
      ensures State() == UpdateScuderiaDb(old(State()), p)
    {
      ok := scuderia.Some?;
      if ok {
        scuderia := Some(MergeScuderia(scuderia.value, p));
      }
    }

    method GetRegiaState() returns (r: RegiaState)
      modifies this
      ensures r == RegiaOf(old(State()))
      ensures State() == WithRegia(old(State()))
    {
      if regia.None? {
        regia := Some(DefaultRegia);
      }
      r := regia.value;
    }

    method UpdateRegiaState(p: RegiaPatch) returns (ok: bool)
      modifies this
      ensures ok == old(regia).Some?
      ensures State() == UpdateRegiaDb(old(State()), p)
    {
      ok := regia.Some?;
      if ok {
        regia := Some(MergeRegia(regia.value, p));
      }
    }

    method GetTableState(tableId: int) returns (t: TableState)
      modifies this
      ensures t == TableOf(old(State()), tableId)
      ensures State() == WithTable(old(State()), tableId)
    {
      if tableId !in tables {
        tables := tables[tableId := EmptyTableState];
      }
      t := tables[tableId];
    }

    method UpdateTableState(tableId: int, p: TablePatch) returns (ok: bool)
      modifies this
      ensures ok == (tableId in old(tables))
      ensures State() == UpdateTableDb(old(State()), tableId, p)
    {
      ok := tableId in tables;
      if ok {
        tables := tables[tableId := MergeTable(tables[tableId], p)];
      }
    }

    method IsInputSeen(tableId: int, handIndex: int) returns (b: bool)
      ensures b == ((tableId, handIndex) in seen)
    {
      b := (tableId, handIndex) in seen;
    }

    method MarkInputSeen(tableId: int, handIndex: int)
      modifies this
      ensures State() == MarkSeenDb(old(State()), tableId, handIndex)
    {
      seen := seen + {(tableId, handIndex)};
    }

    method GetSettings() returns (s: Settings)
      modifies this
      ensures s == ConfigOf(old(State()))
      ensures State() == WithConfig(old(State()))
    {
      if config.None? {
        config := Some(DefaultSettings);
      }
      s := config.value;
    }

    method UpdateSettings(p: SettingsPatch) returns (ok: bool)
      modifies this
      ensures ok == old(config).Some?
      ensures State() == UpdateConfigDb(old(State()), p)
    {
      ok := config.Some?;
      if ok {
        config := Some(MergeSettings(config.value, p));
      }
    }
  }

  // ------------------------- the fold as the source writes it -------------------------

  /**
   * The global document as the source's fold leaves it: a `set` with merge
   * writes only `globalMarginUnits`, so a document created by the fold has no
   * counters at all (`None` here, `undefined` in the source).
   */
  datatype RawGlobalDoc = RawGlobalDoc(
    globalMarginUnits: real,
    heavyCount: Option<int>,
    cooldown: Option<int>,
    portfolioDebtUnits: Option<real>,
    hotOverridesActive: Option<int>,
    hotOverridesUsedThisShoe: Option<int>)

  /** The source's fold on the raw global document: it never applies the zero defaults of `getGlobalState`. */
  function FoldRawGlobal(doc: Option<RawGlobalDoc>, cached: real, v: real): (r: RawGlobalDoc)
    ensures r.globalMarginUnits == (if doc.Some? then doc.value.globalMarginUnits else 0.0) + (v - cached)
    ensures doc.None? ==> r.heavyCount.None? && r.cooldown.None? && r.portfolioDebtUnits.None?
  {
    var current := if doc.Some? then doc.value.globalMarginUnits else 0.0;
    var merged := current + (v - cached);
    if doc.Some? then doc.value.(globalMarginUnits := merged)
    else RawGlobalDoc(merged, None, None, None, None, None)
  }

  /**
   * On a store without a global document the source's fold creates one whose
   * counters are missing, so the next `getGlobalState` returns it as is and no
   * zero default is ever applied; the corrected fold yields the zero counters.
   */
  lemma FirstFoldLeavesCountersUnset(t: int, v: real)
    ensures FoldRawGlobal(None, CachedMargin(EmptyDb, t), v).heavyCount.None?
    ensures FoldRawGlobal(None, CachedMargin(EmptyDb, t), v).cooldown.None?
    ensures GlobalOf(FoldDb(EmptyDb, t, v)) == GlobalState(v, 0, 0, 0.0, 0, 0)
  {
  }

  /**
   * The corrected fold on any store without a global document creates one
   * carrying the zero counters, with the margin moved by the fold's delta.
   */
  lemma FoldCreatesZeroCounters(db: Db, t: int, v: real)
    requires db.global.None?
    ensures var g := FoldDb(db, t, v).global;
      && g.Some?
      && g.value.heavyCount == 0 && g.value.cooldown == 0 && g.value.portfolioDebtUnits == 0.0
      && g.value.hotOverridesActive == 0 && g.value.hotOverridesUsedThisShoe == 0
      && g.value.globalMarginUnits == v - CachedMargin(db, t)
  {
  }
}
