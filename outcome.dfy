/**
 * The outcome classifier (functions/src/ProactiveEngine/outcomeInferer.ts):
 * stateless helpers that turn a martingale level into a ladder index and infer
 * the outcome of a hand from the change in margin and level.
 */
module OutcomeInferer {
  import opened Types

  /** The default tolerance of `approx`. */
  const Tolerance: real := 0.6

  /** `x` and `y` are within the tolerance of each other, bounds included. */
  predicate Approx(x: real, y: real)
  {
    Abs(x - y) <= Tolerance
  }

  lemma ApproxSymmetric(x: real, y: real)
    ensures Approx(x, y) <==> Approx(y, x)
    ensures Approx(x, x)
    ensures Approx(x, x + Tolerance) && !Approx(x, x + Tolerance + 0.1)
  {
  }

  /** Ladder index of a martingale level: UI levels 1..8 map to 0..7, anything else is clamped into 0..7. */
  function ToLevelIndex(martingalaUi: int): (r: int)
    ensures 0 <= r <= 7
    ensures 1 <= martingalaUi <= 8 ==> r == martingalaUi - 1
    ensures martingalaUi > 8 ==> r == 7
    ensures martingalaUi < 1 ==> r == 0
  {
    if 1 <= martingalaUi <= 8 then martingalaUi - 1
    else Max(Min(martingalaUi, 7), 0)
  }

  /**
   * Infers the outcome of the hand that led from the row's previous level and
   * margin to `levelIdxNow` and `margineNow`.
   */
  function InferOutcome(s: RowState, levelIdxNow: int, margineNow: real): (r: Esito)
    ensures r == P || r == B || r == T
    ensures s.prevMazzo.None? ==> r == T
    ensures s.prevMazzo.Some? && levelIdxNow < s.prevLevel ==> r == B
    ensures s.prevMazzo.Some? && levelIdxNow > s.prevLevel && levelIdxNow != 0 ==> r == P
    ensures s.prevMazzo.Some? && levelIdxNow == s.prevLevel && levelIdxNow != 0 ==> r == T
    ensures s.prevMazzo.Some? && levelIdxNow == s.prevLevel == 0 ==>
              r == (if Approx(margineNow - s.prevMargine, 0.0) then T else B)
  {
    if s.prevMazzo.None? then T
    else
      var dM := margineNow - s.prevMargine;
      var dL := levelIdxNow - s.prevLevel;
      if Approx(dM, 0.0) && dL == 0 then T
      else if (levelIdxNow == 0 || dL < 0) && Approx(dM, s.prevStake) then B
      else if dL >= 1 && Approx(dM, -s.prevStake) then P
      else if dL > 0 then P
      else if dL < 0 || levelIdxNow == 0 then B
      else T
  }
}
