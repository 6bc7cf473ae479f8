/**
 * Heavy-mode lifecycle (functions/src/ProactiveEngine/scuderiaExtensions.ts):
 * the decay that ages out heavy slots after a run of quiet hands, and the
 * sliding-window cap on heavy admissions across all tables.
 */
module Scuderia {
  import opened Types
  import opened Store

  /** Quiet hands after which one heavy slot is released; 0 or missing settings fall back to 4. */
  function DecayThreshold(settings: Option<Settings>): (r: int)
    ensures settings.None? ==> r == 4
    ensures settings.Some? && settings.value.heavyDecayAfterHands == 0 ==> r == 4
    ensures settings.Some? && settings.value.heavyDecayAfterHands != 0 ==> r == settings.value.heavyDecayAfterHands
  {
    if settings.None? || settings.value.heavyDecayAfterHands == 0 then 4 else settings.value.heavyDecayAfterHands
  }

  datatype Decay = Decay(handsSinceLastHeavy: int, heavyCount: int)

  /** One hand without entering heavy mode: the quiet-hand counter and the heavy count it leaves. */
  function DecayStep(handsSince: int, heavyCount: int, cooldown: int, threshold: int): Decay
  {
    var newHandsSince := handsSince + 1;
    if cooldown == 0 && heavyCount > 0 && newHandsSince >= threshold then Decay(0, heavyCount - 1)
    else if heavyCount == 0 && cooldown > 0 then Decay(0, heavyCount)
    else Decay(newHandsSince, heavyCount)
  }

  /** The three outcomes of a decay step, and that the heavy count never goes negative. */
  lemma DecayStepCases(handsSince: int, heavyCount: int, cooldown: int, threshold: int)
    ensures var d := DecayStep(handsSince, heavyCount, cooldown, threshold);
      && (cooldown == 0 && heavyCount > 0 && handsSince + 1 >= threshold ==> d == Decay(0, heavyCount - 1))
      && (heavyCount == 0 && cooldown > 0 ==> d == Decay(0, 0))
      && ((!(cooldown == 0 && heavyCount > 0 && handsSince + 1 >= threshold) && !(heavyCount == 0 && cooldown > 0))
            ==> d == Decay(handsSince + 1, heavyCount))
      && heavyCount - 1 <= d.heavyCount <= heavyCount
      && (heavyCount >= 0 ==> d.heavyCount >= 0)
  {
  }

  /** The store after `applyHeavyDecay`; the cooldown is written back unchanged. */
  function DecayDb(db: Db, settings: Option<Settings>, enteredHeavy: bool): Db
  {
    var sc := ScuderiaOf(db);
    var g := GlobalOf(db);
    var db1 := WithGlobal(WithScuderia(db));
    if enteredHeavy then
      UpdateScuderiaDb(db1, ScuderiaPatch(Some(0), None))
    else
      var d := DecayStep(sc.handsSinceLastHeavy, g.heavyCount, g.cooldown, DecayThreshold(settings));
      UpdateGlobalDb(
        UpdateScuderiaDb(db1, ScuderiaPatch(Some(d.handsSinceLastHeavy), None)),
        GlobalPatch(Some(d.heavyCount), Some(g.cooldown), None, None, None))
  }

  /** Entering heavy only restarts the quiet-hand counter: the global document is not written. */
  lemma DecayWhenEnteredHeavy(db: Db, settings: Option<Settings>)
    ensures var db' := DecayDb(db, settings, true);
      && ScuderiaOf(db').handsSinceLastHeavy == 0
      && ScuderiaOf(db').recentHeavyTimestamps == ScuderiaOf(db).recentHeavyTimestamps
      && GlobalOf(db') == GlobalOf(db)
      && db'.tables == db.tables && db'.regia == db.regia && db'.config == db.config
  {
  }

  /** A quiet hand never makes the heavy count negative, lowers it by at most one, and keeps every other global field. */
  lemma DecayKeepsGlobalBounds(db: Db, settings: Option<Settings>)
    requires GlobalOf(db).heavyCount >= 0
    ensures var g := GlobalOf(db); var g' := GlobalOf(DecayDb(db, settings, false));
      && 0 <= g'.heavyCount <= g.heavyCount
      && g'.cooldown == g.cooldown
      && g'.globalMarginUnits == g.globalMarginUnits
      && g'.portfolioDebtUnits == g.portfolioDebtUnits
      && g'.hotOverridesActive == g.hotOverridesActive
      && g'.hotOverridesUsedThisShoe == g.hotOverridesUsedThisShoe
  {
  }

  /** The timestamps newer than the cutoff, in their stored order. */
  function Recent(ts: seq<int>, cutoff: int): (r: seq<int>)
    ensures |r| <= |ts|
    ensures forall i :: 0 <= i < |r| ==> r[i] > cutoff
    ensures forall x :: x in ts && x > cutoff ==> x in r
    ensures forall x :: x in r ==> x in ts
    ensures forall x :: multiset(r)[x] == (if x > cutoff then multiset(ts)[x] else 0)
  {
    if ts == [] then []
    else
      assert ts == [ts[0]] + ts[1..];
      if ts[0] > cutoff then [ts[0]] + Recent(ts[1..], cutoff)
      else Recent(ts[1..], cutoff)
  }

  datatype Admission = Admission(admitted: bool, db: Db)

  /** The store and verdict after `allowHeavyGlobal` at time `now` (seconds). */
  function AdmitDb(db: Db, settings: Option<Settings>, now: int): Admission
  {
    if settings.None? then Admission(true, db)
    else
      var s := settings.value;
      var db1 := WithScuderia(db);
      var recent := Recent(ScuderiaOf(db).recentHeavyTimestamps, now - s.globalHeavyCapWindow);
      if |recent| >= s.globalHeavyCap then Admission(false, db1)
      else Admission(true, UpdateScuderiaDb(db1, ScuderiaPatch(None, Some(recent + [now]))))
  }

  /**
   * The admission cap: a request is refused, with nothing but the lazy
   * creation of the heavy-lifecycle document, exactly when the window already
   * holds `globalHeavyCap` timestamps; an admitted request stores the window
   * plus `now`, so the stored window never exceeds the cap.
   */
  lemma AdmissionRespectsCap(db: Db, s: Settings, now: int)
    ensures var a := AdmitDb(db, Some(s), now);
      var recent := Recent(ScuderiaOf(db).recentHeavyTimestamps, now - s.globalHeavyCapWindow);
      && (a.admitted <==> |recent| < s.globalHeavyCap)
      && (!a.admitted ==> a.db == WithScuderia(db))
      && (a.admitted ==> ScuderiaOf(a.db).recentHeavyTimestamps == recent + [now])
      && (a.admitted ==> |ScuderiaOf(a.db).recentHeavyTimestamps| <= s.globalHeavyCap)
      && (a.admitted ==> ScuderiaOf(a.db).handsSinceLastHeavy == ScuderiaOf(db).handsSinceLastHeavy)
      && a.db.global == db.global && a.db.tables == db.tables
  {
  }

  /** Without settings every request is admitted and nothing is stored. */
  lemma AdmissionWithoutSettings(db: Db, now: int)
    ensures AdmitDb(db, None, now) == Admission(true, db)
  {
  }

  /** A window whose every timestamp is newer than the cutoff is kept whole. */
  lemma {:induction false} RecentKeepsNewer(ts: seq<int>, cutoff: int)
    requires forall i :: 0 <= i < |ts| ==> ts[i] > cutoff
    ensures Recent(ts, cutoff) == ts
  {
    if ts != [] {
      RecentKeepsNewer(ts[1..], cutoff);
      assert [ts[0]] + ts[1..] == ts;
    }
  }

  /** An admission into a window that holds fewer than `globalHeavyCap` timestamps, all inside it, appends `now`. */
  lemma AdmitIntoOpenWindow(db: Db, s: Settings, now: int)
    requires db.scuderia.Some?
    requires var ts := db.scuderia.value.recentHeavyTimestamps;
      |ts| < s.globalHeavyCap && forall i :: 0 <= i < |ts| ==> ts[i] > now - s.globalHeavyCapWindow
    ensures var a := AdmitDb(db, Some(s), now);
      && a.admitted
      && a.db.scuderia == Some(db.scuderia.value.(recentHeavyTimestamps := db.scuderia.value.recentHeavyTimestamps + [now]))
  {
    RecentKeepsNewer(db.scuderia.value.recentHeavyTimestamps, now - s.globalHeavyCapWindow);
  }

  /** With a cap of 4 in a 60 s window, four admissions in a row are granted and a fifth inside the window is refused. */
  lemma FifthAdmissionInWindowRefused(db: Db, s: Settings, t1: int, t2: int, t3: int, t4: int, t5: int)
    requires s.globalHeavyCap == 4 && s.globalHeavyCapWindow == 60
    requires db.scuderia == Some(ScuderiaState(0, []))
    requires t1 <= t2 <= t3 <= t4 <= t5 < t1 + 60
    ensures var a1 := AdmitDb(db, Some(s), t1);
      var a2 := AdmitDb(a1.db, Some(s), t2);
      var a3 := AdmitDb(a2.db, Some(s), t3);
      var a4 := AdmitDb(a3.db, Some(s), t4);
      var a5 := AdmitDb(a4.db, Some(s), t5);
      a1.admitted && a2.admitted && a3.admitted && a4.admitted && !a5.admitted
  {
    var a1 := AdmitDb(db, Some(s), t1);
    AdmitIntoOpenWindow(db, s, t1);
    var a2 := AdmitDb(a1.db, Some(s), t2);
    AdmitIntoOpenWindow(a1.db, s, t2);
    var a3 := AdmitDb(a2.db, Some(s), t3);
    AdmitIntoOpenWindow(a2.db, s, t3);
    var a4 := AdmitDb(a3.db, Some(s), t4);
    AdmitIntoOpenWindow(a3.db, s, t4);
    var ts := a4.db.scuderia.value.recentHeavyTimestamps;
    assert ts == [t1, t2, t3, t4];
    RecentKeepsNewer(ts, t5 - 60);
  }

  class ScuderiaExtensions {
    const store: Store

    constructor (store: Store)
      ensures this.store == store
    {
      this.store := store;
    }

    /**
     * The optional wait before a heavy authorization. The clock is not
     * modelled: the method returns how long it would wait (the configured
     * delay when settings are present and the delay is positive, otherwise
     * none) and changes no state.
     */
    method ApplySyncDelay(settings: Option<Settings>) returns (waitMs: int)
      ensures waitMs >= 0
      ensures waitMs > 0 <==> settings.Some? && settings.value.syncDelayMs > 0
      ensures waitMs > 0 ==> waitMs == settings.value.syncDelayMs
    {
      waitMs := 0;
      if settings.Some? && settings.value.syncDelayMs > 0 {
        waitMs := settings.value.syncDelayMs;
      }
    }

    method ApplyHeavyDecay(settings: Option<Settings>, enteredHeavy: bool)
      modifies store
      ensures store.State() == DecayDb(old(store.State()), settings, enteredHeavy)
    {
      var scuderiaState := store.GetScuderiaState();
      var globalState := store.GetGlobalState();

      if enteredHeavy {
        var _ := store.UpdateScuderiaState(ScuderiaPatch(Some(0), None));
        return;
      }

      var newHandsSince := scuderiaState.handsSinceLastHeavy + 1;
      var threshold := DecayThreshold(settings);

      var newHeavyCount := globalState.heavyCount;
      var newCooldown := globalState.cooldown;
      var resetHands := false;

      if newCooldown == 0 && newHeavyCount > 0 && newHandsSince >= threshold {
        newHeavyCount := newHeavyCount - 1;
        resetHands := true;
      } else if newHeavyCount == 0 && newCooldown > 0 {
        resetHands := true;
      }

      var _ := store.UpdateScuderiaState(ScuderiaPatch(Some(if resetHands then 0 else newHandsSince), None));
      var _ := store.UpdateGlobalState(GlobalPatch(Some(newHeavyCount), Some(newCooldown), None, None, None));
    }

    method AllowHeavyGlobal(settings: Option<Settings>, now: int) returns (admitted: bool)
      modifies store
      ensures AdmitDb(old(store.State()), settings, now) == Admission(admitted, store.State())
    {
      if settings.None? {
        return true;
      }
      var scuderiaState := store.GetScuderiaState();
      var cutoffSeconds := now - settings.value.globalHeavyCapWindow;
      var recentTimestamps := Recent(scuderiaState.recentHeavyTimestamps, cutoffSeconds);

      if |recentTimestamps| >= settings.value.globalHeavyCap {
        return false;
      }

      recentTimestamps := recentTimestamps + [now];
      var _ := store.UpdateScuderiaState(ScuderiaPatch(None, Some(recentTimestamps)));
      admitted := true;
    }
  }
}
