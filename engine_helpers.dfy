/**
 * The engine's small computations (functions/src/ProactiveEngine/index.ts):
 * the regia caps for a margin, the hot-zone test and label, the residual
 * capacity estimate, the longest Player run, the severe red table signal and
 * the bounded outcome windows. Where the source loops, a method with a loop
 * is proved equal to a recursive specification function, and the properties
 * are proved about the specification.
 */
module EngineHelpers {
  import opened Types

  // ------------------------- regia caps -------------------------

  datatype RegiaParams = RegiaParams(hmax: int, cdn: int)

  /** The heavy cap and cooldown for the global margin: high band, low band, otherwise mid. */
  function GetRegiaParams(s: Settings, globalMarginUnits: real): (rp: RegiaParams)
    ensures globalMarginUnits >= s.highThresh ==> rp == RegiaParams(s.hmaxHigh, s.cooldownHigh)
    ensures globalMarginUnits < s.highThresh && globalMarginUnits <= s.lowThresh ==> rp == RegiaParams(s.hmaxLow, s.cooldownLow)
    ensures s.lowThresh < globalMarginUnits < s.highThresh ==> rp == RegiaParams(s.hmaxMid, s.cooldownMid)
    ensures rp in {RegiaParams(s.hmaxHigh, s.cooldownHigh), RegiaParams(s.hmaxLow, s.cooldownLow), RegiaParams(s.hmaxMid, s.cooldownMid)}
  {
    if globalMarginUnits >= s.highThresh then RegiaParams(s.hmaxHigh, s.cooldownHigh)
    else if globalMarginUnits <= s.lowThresh then RegiaParams(s.hmaxLow, s.cooldownLow)
    else RegiaParams(s.hmaxMid, s.cooldownMid)
  }

  /** When the bands overlap the high band wins. */
  lemma HighBandWins(s: Settings, g: real)
    requires s.highThresh <= g <= s.lowThresh
    ensures GetRegiaParams(s, g) == RegiaParams(s.hmaxHigh, s.cooldownHigh)
  {
  }

  /** The default caps: one heavy slot in every band, cooldown 4 high, 3 mid and 2 low. */
  lemma DefaultRegiaParams(g: real)
    ensures g >= 250.0 ==> GetRegiaParams(DefaultSettings, g) == RegiaParams(1, 4)
    ensures g <= -300.0 ==> GetRegiaParams(DefaultSettings, g) == RegiaParams(1, 2)
    ensures -300.0 < g < 250.0 ==> GetRegiaParams(DefaultSettings, g) == RegiaParams(1, 3)
  {
  }

  // ------------------------- residual capacity -------------------------

  /** Number of tables the residual capacity is estimated for. */
  const EstimatedActiveTables: int := 10

  /**
   * Units the remaining hands of all tables are expected to yield: the mean
   * units per hand, times the hands left per table, times the estimated tables.
   * The contract gives the sign; DefaultResidualCapacity works out the value
   * under the defaults.
   */
  function ResidualCapacity(s: Settings): (r: real)
    ensures s.meanUnitsPerHandPerTable >= 0.0 && s.estimatedHandsLeftPerTable >= 0.0 ==> r >= 0.0
  {
    s.meanUnitsPerHandPerTable * s.estimatedHandsLeftPerTable * (EstimatedActiveTables as real)
  }

  /** Under the defaults the residual capacity is 175 units, so the debt trigger is 105 units. */
  lemma DefaultResidualCapacity()
    ensures ResidualCapacity(DefaultSettings) == 175.0
    ensures DefaultSettings.debtTriggerRatio * ResidualCapacity(DefaultSettings) == 105.0
  {
  }

  // ------------------------- hot zones -------------------------

  predicate InZone(z: HotZone, handNo: int)
  {
    z.zoneStart <= handNo <= z.zoneEnd
  }

  /** Some configured zone holds the hand. */
  predicate InZones(zones: seq<HotZone>, handNo: int)
  {
    exists i :: 0 <= i < |zones| && InZone(zones[i], handNo)
  }

  method InHotZone(zones: seq<HotZone>, handNo: int, bHotZone: bool) returns (hot: bool)
    ensures hot <==> bHotZone && InZones(zones, handNo)
  {
    if !bHotZone {
      return false;
    }
    var i := 0;
    while i < |zones|
      invariant 0 <= i <= |zones|
      invariant forall j :: 0 <= j < i ==> !InZone(zones[j], handNo)
    {
      if handNo >= zones[i].zoneStart && handNo <= zones[i].zoneEnd {
        return true;
      }
      i := i + 1;
    }
    return false;
  }

  /** The label: the first zone holding the hand, or the open hand. */
  function ZoneLabelOf(zones: seq<HotZone>, handNo: int): ZoneLabel
  {
    if zones == [] then OpenZone(handNo)
    else if InZone(zones[0], handNo) then ClosedZone(zones[0].zoneStart, zones[0].zoneEnd)
    else ZoneLabelOf(zones[1..], handNo)
  }

  /**
   * The label is closed exactly when the hand is in a zone, and then it names
   * the first zone that holds the hand; otherwise it names the hand.
   */
  lemma {:induction false} ZoneLabelFirstMatch(zones: seq<HotZone>, handNo: int)
    ensures ZoneLabelOf(zones, handNo).ClosedZone? <==> InZones(zones, handNo)
    ensures ZoneLabelOf(zones, handNo).OpenZone? ==> ZoneLabelOf(zones, handNo) == OpenZone(handNo)
    ensures ZoneLabelOf(zones, handNo).ClosedZone? ==>
      exists i :: 0 <= i < |zones| && InZone(zones[i], handNo)
        && ZoneLabelOf(zones, handNo) == ClosedZone(zones[i].zoneStart, zones[i].zoneEnd)
        && forall j :: 0 <= j < i ==> !InZone(zones[j], handNo)
  {
    if zones != [] && !InZone(zones[0], handNo) {
      ZoneLabelFirstMatch(zones[1..], handNo);
      if InZones(zones, handNo) {
        var i :| 0 <= i < |zones| && InZone(zones[i], handNo);
        assert i > 0;
        assert InZone(zones[1..][i - 1], handNo);
      }
      if ZoneLabelOf(zones, handNo).ClosedZone? {
        var i :| 0 <= i < |zones[1..]| && InZone(zones[1..][i], handNo)
          && ZoneLabelOf(zones[1..], handNo) == ClosedZone(zones[1..][i].zoneStart, zones[1..][i].zoneEnd)
          && forall j :: 0 <= j < i ==> !InZone(zones[1..][j], handNo);
        assert forall j :: 0 <= j < i + 1 ==> !InZone(zones[j], handNo) by {
          forall j | 0 <= j < i + 1 ensures !InZone(zones[j], handNo) {
            if j > 0 { assert zones[j] == zones[1..][j - 1]; }
          }
        }
        assert zones[i + 1] == zones[1..][i];
      }
    }
  }

  method HotZoneLabel(zones: seq<HotZone>, handNo: int) returns (zoneLabel: ZoneLabel)
    ensures zoneLabel == ZoneLabelOf(zones, handNo)
  {
    var i := 0;
    while i < |zones|
      invariant 0 <= i <= |zones|
      invariant ZoneLabelOf(zones[i..], handNo) == ZoneLabelOf(zones, handNo)
    {
      if handNo >= zones[i].zoneStart && handNo <= zones[i].zoneEnd {
        return ClosedZone(zones[i].zoneStart, zones[i].zoneEnd);
      }
      assert zones[i..][1..] == zones[i + 1..];
      i := i + 1;
    }
    return OpenZone(handNo);
  }

  // ------------------------- the longest Player run -------------------------

  /** Length of the run of "P" at the end of the history. */
  function TrailingP(h: seq<Esito>): (n: nat)
    ensures n <= |h|
  {
    if h == [] || h[|h| - 1] != P then 0 else TrailingP(h[..|h| - 1]) + 1
  }

  /** The longest run of "P", as the forward scan computes it. */
  function MaxPRun(h: seq<Esito>): (n: nat)
    ensures n <= |h|
  {
    if h == [] then 0 else Max(MaxPRun(h[..|h| - 1]), TrailingP(h))
  }

  predicate AllP(h: seq<Esito>, i: int, j: int)
    requires 0 <= i <= j <= |h|
  {
    forall k :: i <= k < j ==> h[k] == P
  }

  /** A run of `n` "P" starts at `i`. */
  predicate PRunAt(h: seq<Esito>, i: int, n: int)
  {
    0 <= i && 0 <= n && i + n <= |h| && AllP(h, i, i + n)
  }

  lemma {:induction false} TrailingPCoversRun(h: seq<Esito>, i: int)
    requires 0 <= i <= |h| && AllP(h, i, |h|)
    ensures |h| - i <= TrailingP(h)
  {
    if i < |h| {
      var h' := h[..|h| - 1];
      assert AllP(h', i, |h'|) by {
        forall k | i <= k < |h'| ensures h'[k] == P { assert h'[k] == h[k]; }
      }
      TrailingPCoversRun(h', i);
    }
  }

  lemma {:induction false} TrailingPIsRun(h: seq<Esito>)
    ensures AllP(h, |h| - TrailingP(h), |h|)
  {
    if h != [] && h[|h| - 1] == P {
      var h' := h[..|h| - 1];
      TrailingPIsRun(h');
      forall k | |h| - TrailingP(h) <= k < |h| ensures h[k] == P {
        if k < |h| - 1 { assert h[k] == h'[k]; }
      }
    }
  }

  /**
   * `MaxPRun` is the longest run of "P": every run of "P" is at most that
   * long, and a run of exactly that length exists.
   */
  lemma {:induction false} MaxPRunIsLongest(h: seq<Esito>)
    ensures forall i, j :: 0 <= i <= j <= |h| && AllP(h, i, j) ==> j - i <= MaxPRun(h)
    ensures exists i :: PRunAt(h, i, MaxPRun(h))
  {
    if h == [] {
      assert PRunAt(h, 0, 0);
    } else {
      var h' := h[..|h| - 1];
      MaxPRunIsLongest(h');
      forall i, j | 0 <= i <= j <= |h| && AllP(h, i, j) ensures j - i <= MaxPRun(h) {
        if j == |h| {
          TrailingPCoversRun(h, i);
        } else {
          assert AllP(h', i, j) by {
            forall k | i <= k < j ensures h'[k] == P { assert h'[k] == h[k]; }
          }
        }
      }
      if MaxPRun(h') >= TrailingP(h) {
        var i :| PRunAt(h', i, MaxPRun(h'));
        assert PRunAt(h, i, MaxPRun(h)) by {
          forall k | i <= k < i + MaxPRun(h) ensures h[k] == P { assert h[k] == h'[k]; }
        }
      } else {
        TrailingPIsRun(h);
        assert PRunAt(h, |h| - MaxPRun(h), MaxPRun(h));
      }
    }
  }

  method GetMaxRunP(history: seq<Esito>) returns (max: int)
    ensures max == MaxPRun(history)
  {
    max := 0;
    var cur := 0;
    var i := 0;
    while i < |history|
      invariant 0 <= i <= |history|
      invariant cur == TrailingP(history[..i])
      invariant max == MaxPRun(history[..i])
    {
      assert history[..i + 1][..i] == history[..i];
      if history[i] == P {
        cur := cur + 1;
        if cur > max {
          max := cur;
        }
      } else {
        cur := 0;
      }
      i := i + 1;
    }
    assert history[..|history|] == history;
  }

  // ------------------------- the severe red table signal -------------------------

  /** The table window without its ties. */
  function NonTies(ht: seq<Side>): (r: seq<Side>)
    ensures |r| <= |ht|
    ensures forall i :: 0 <= i < |r| ==> r[i] != SideT
    ensures forall x :: multiset(r)[x] == (if x == SideT then 0 else multiset(ht)[x])
  {
    if ht == [] then []
    else
      assert ht == [ht[0]] + ht[1..];
      if ht[0] == SideT then NonTies(ht[1..])
      else [ht[0]] + NonTies(ht[1..])
  }

  /** Length of the run of equal outcomes at the front. */
  function LeadRun(s: seq<Side>): (n: nat)
    ensures n <= |s|
    ensures s != [] ==> n >= 1
  {
    if s == [] then 0
    else if |s| == 1 || s[0] != s[1] then 1
    else 1 + LeadRun(s[1..])
  }

  /** The longest run of equal outcomes, as the backward scan computes it. */
  function LongestRun(s: seq<Side>): (n: nat)
    ensures n <= |s|
    ensures s != [] ==> n >= 1
  {
    if s == [] then 0 else Max(LongestRun(s[1..]), LeadRun(s))
  }

  predicate SameRun(s: seq<Side>, i: int, j: int)
    requires 0 <= i < j <= |s|
  {
    forall k :: i <= k < j ==> s[k] == s[i]
  }

  /** A run of `n` equal outcomes starts at `i`. */
  predicate SameRunAt(s: seq<Side>, i: int, n: int)
  {
    0 <= i && 0 < n && i + n <= |s| && SameRun(s, i, i + n)
  }

  lemma {:induction false} LeadRunCoversRun(s: seq<Side>, j: int)
    requires 0 < j <= |s| && SameRun(s, 0, j)
    ensures j <= LeadRun(s)
  {
    if j > 1 {
      assert s[0] == s[1];
      assert SameRun(s[1..], 0, j - 1) by {
        forall k | 0 <= k < j - 1 ensures s[1..][k] == s[1..][0] { assert s[1..][k] == s[k + 1]; }
      }
      LeadRunCoversRun(s[1..], j - 1);
    }
  }

  lemma {:induction false} LeadRunIsRun(s: seq<Side>)
    requires s != []
    ensures SameRun(s, 0, LeadRun(s))
  {
    if |s| > 1 && s[0] == s[1] {
      LeadRunIsRun(s[1..]);
      forall k | 0 <= k < LeadRun(s) ensures s[k] == s[0] {
        if k > 0 { assert s[k] == s[1..][k - 1]; }
      }
    }
  }

  /**
   * `LongestRun` is the longest run of equal outcomes: every such run is at
   * most that long, and on a non-empty window one of exactly that length exists.
   */
  lemma {:induction false} LongestRunIsLongest(s: seq<Side>)
    ensures forall i, j :: 0 <= i < j <= |s| && SameRun(s, i, j) ==> j - i <= LongestRun(s)
    ensures s != [] ==> exists i :: SameRunAt(s, i, LongestRun(s))
  {
    if s != [] {
      var s' := s[1..];
      LongestRunIsLongest(s');
      forall i, j | 0 <= i < j <= |s| && SameRun(s, i, j) ensures j - i <= LongestRun(s) {
        if i == 0 {
          LeadRunCoversRun(s, j);
        } else {
          assert SameRun(s', i - 1, j - 1) by {
            forall k | i - 1 <= k < j - 1 ensures s'[k] == s'[i - 1] { assert s'[k] == s[k + 1]; }
          }
        }
      }
      if s' != [] && LongestRun(s') >= LeadRun(s) {
        var i :| SameRunAt(s', i, LongestRun(s'));
        assert SameRunAt(s, i + 1, LongestRun(s)) by {
          forall k | i + 1 <= k < i + 1 + LongestRun(s) ensures s[k] == s[i + 1] { assert s[k] == s'[k - 1]; }
        }
      } else {
        LeadRunIsRun(s);
        assert SameRunAt(s, 0, LongestRun(s));
      }
    }
  }

  /** The severe red signal: a non-empty window whose longest run of equal non-tie outcomes exceeds the table limit by more than two. */
  predicate IsSevereRed(s: Settings, ht: seq<Side>)
  {
    |ht| > 0 && LongestRun(NonTies(ht)) > s.maxRunSideAllowedTable + 2
  }

  /** An empty window, or one holding only ties under a non-negative limit, is never severe. */
  lemma SevereRedNeedsOutcomes(s: Settings, ht: seq<Side>)
    requires s.maxRunSideAllowedTable >= -2
    requires forall i :: 0 <= i < |ht| ==> ht[i] == SideT
    ensures !IsSevereRed(s, ht)
  {
    if NonTies(ht) != [] {
      NonTiesOfTies(ht);
    }
  }

  lemma {:induction false} NonTiesOfTies(ht: seq<Side>)
    requires forall i :: 0 <= i < |ht| ==> ht[i] == SideT
    ensures NonTies(ht) == []
  {
    if ht != [] {
      NonTiesOfTies(ht[1..]);
    }
  }

  /** Under the defaults, six equal non-tie outcomes in a row make the signal severe. */
  lemma SixInARowIsSevere(ht: seq<Side>)
    requires ht == [SideB, SideB, SideT, SideB, SideB, SideB, SideB]
    ensures IsSevereRed(DefaultSettings, ht)
  {
    var nt := [SideB, SideB, SideB, SideB, SideB, SideB];
    assert NonTies([SideB]) == [SideB];
    assert NonTies([SideB, SideB]) == [SideB, SideB] by { assert [SideB, SideB][1..] == [SideB]; }
    assert NonTies([SideB, SideB, SideB]) == [SideB, SideB, SideB] by { assert [SideB, SideB, SideB][1..] == [SideB, SideB]; }
    assert NonTies([SideB, SideB, SideB, SideB]) == [SideB, SideB, SideB, SideB] by {
      assert [SideB, SideB, SideB, SideB][1..] == [SideB, SideB, SideB];
    }
    assert NonTies([SideT, SideB, SideB, SideB, SideB]) == [SideB, SideB, SideB, SideB] by {
      assert [SideT, SideB, SideB, SideB, SideB][1..] == [SideB, SideB, SideB, SideB];
    }
    assert NonTies([SideB, SideT, SideB, SideB, SideB, SideB]) == [SideB, SideB, SideB, SideB, SideB] by {
      assert [SideB, SideT, SideB, SideB, SideB, SideB][1..] == [SideT, SideB, SideB, SideB, SideB];
    }
    assert NonTies(ht) == nt by {
      assert ht[1..] == [SideB, SideT, SideB, SideB, SideB, SideB];
    }
    assert SameRun(nt, 0, 6);
    LeadRunCoversRun(nt, 6);
  }

  method IsSevereRedTableSignal(s: Settings, historyTable: seq<Side>) returns (severe: bool)
    ensures severe == IsSevereRed(s, historyTable)
  {
    if |historyTable| == 0 {
      return false;
    }
    var cur := 0;
    var maxRun := 0;
    var last: Option<Side> := None;
    var i := |historyTable| - 1;
    while i >= 0
      invariant -1 <= i < |historyTable|
      invariant var rest := NonTies(historyTable[i + 1..]);
        && cur == LeadRun(rest)
        && maxRun == LongestRun(rest)
        && last == (if rest == [] then None else Some(rest[0]))
    {
      var o := historyTable[i];
      assert historyTable[i..][1..] == historyTable[i + 1..];
      if o == SideT {
        i := i - 1;
        continue;
      }
      ghost var rest := NonTies(historyTable[i + 1..]);
      assert NonTies(historyTable[i..]) == [o] + rest;
      assert ([o] + rest)[1..] == rest;
      if last == None || Some(o) == last {
        cur := cur + 1;
        maxRun := Max(maxRun, cur);
      } else {
        cur := 1;
      }
      last := Some(o);
      i := i - 1;
    }
    assert historyTable[0..] == historyTable;
    severe := maxRun > s.maxRunSideAllowedTable + 2;
  }

  // ------------------------- bounded windows -------------------------

  /** The most recent `w` entries. */
  function KeepLast<T>(h: seq<T>, w: nat): (r: seq<T>)
    ensures |r| == Min(|h|, w)
    ensures r == h[|h| - |r|..]
  {
    if |h| <= w then h else h[|h| - w..]
  }

  /** Drops entries from the front until at most `w` remain. */
  method TrimWindow<T>(h: seq<T>, w: nat) returns (r: seq<T>)
    ensures r == KeepLast(h, w)
  {
    r := h;
    while |r| > w
      invariant r == h[|h| - |r|..]
      invariant |r| >= w || r == h
      decreases |r|
    {
      r := r[1..];
    }
  }

  /** The outcome history after one hand: every outcome but a tie is appended, then the window is trimmed. */
  function AppendHistory(h: seq<Esito>, e: Esito, w: nat): seq<Esito>
  {
    if e == T then h else KeepLast(h + [e], w)
  }

  /** The table window after one hand: "p", "b" and "t" (any case) are appended, then the window is trimmed. */
  function EnqueueSide(ht: seq<Side>, e: Esito, w: nat): seq<Side>
  {
    if LowerSide(e).None? then ht else KeepLast(ht + [LowerSide(e).value], w)
  }

  method PushHistory(h: seq<Esito>, e: Esito, w: nat) returns (r: seq<Esito>)
    ensures r == AppendHistory(h, e, w)
  {
    r := h;
    if e != T {
      r := r + [e];
      r := TrimWindow(r, w);
    }
  }

  method EnqueueTableOutcome(ht: seq<Side>, e: Esito, w: nat) returns (r: seq<Side>)
    ensures r == EnqueueSide(ht, e, w)
  {
    r := ht;
    var side := LowerSide(e);
    if side.None? {
      return;
    }
    r := r + [side.value];
    r := TrimWindow(r, w);
  }

  /**
   * The history window holds no ties, never grows beyond its cap, and keeps
   * the most recent entries: it is a suffix of the old window plus the new
   * outcome, ending with that outcome when it is not a tie.
   */
  lemma HistoryWindow(h: seq<Esito>, e: Esito, w: nat)
    ensures var r := AppendHistory(h, e, w);
      && ((forall i :: 0 <= i < |h| ==> h[i] != T) ==> forall i :: 0 <= i < |r| ==> r[i] != T)
      && (|h| <= w ==> |r| <= w)
      && (e == T ==> r == h)
      && (e != T ==> r == (h + [e])[|h| + 1 - |r|..] && |r| == Min(|h| + 1, w))
      && (e != T && w >= 1 ==> r[|r| - 1] == e)
  {
  }

  /** The table window holds only sides, never grows beyond its cap and keeps the most recent entries. */
  lemma TableWindow(ht: seq<Side>, e: Esito, w: nat)
    ensures var r := EnqueueSide(ht, e, w);
      && (|ht| <= w ==> |r| <= w)
      && (LowerSide(e).None? ==> r == ht)
      && (LowerSide(e).Some? ==> |r| == Min(|ht| + 1, w) && r == (ht + [LowerSide(e).value])[|ht| + 1 - |r|..])
      && (LowerSide(e).Some? && w >= 1 ==> r[|r| - 1] == LowerSide(e).value)
  {
  }
}
