/**
 * The HTTP entry point's own logic (functions/src/index.ts): the per-table
 * deck tracker that turns the remaining card count into a hand index, the
 * outcome normalisation, the fixed hot-zone test, and the mapping from the
 * engine's advice to the numeric action code sent back to the client.
 */
module Handler {
  import opened Types
  import opened Store
  import opened EngineHelpers
  import opened Decision
  import Engine

  // ------------------------- the deck tracker -------------------------

  /** The stored deck document: the last card count, the hand index and the shoe size. */
  datatype Deck = Deck(lastMazzo: int, handIndex: int, carteTotali: int)

  /** The document a table starts with: the current count, hand 0, a 416-card shoe. */
  function DefaultDeck(cards: int): (d: Deck)
    ensures d.lastMazzo == cards && d.handIndex == 0 && d.carteTotali == 416
  {
    Deck(cards, 0, 416)
  }

  /** A refill is a count above the last one and within 20 cards of a full shoe. */
  predicate IsNewShoe(d: Deck, cards: int)
  {
    cards > d.lastMazzo && cards > d.carteTotali - 20
  }

  /** The shoe size guessed from the count right after a refill. */
  function ShoeSize(cards: int): (size: int)
    ensures cards > 450 ==> size == 520
    ensures 350 < cards <= 450 ==> size == 416
    ensures 250 < cards <= 350 ==> size == 312
    ensures cards <= 250 ==> size == 416
  {
    if cards > 450 then 520 else if cards > 350 then 416 else if cards > 250 then 312 else 416
  }

  /** The deck document after a request reporting `cards` remaining. */
  function NextDeck(d: Deck, cards: int): Deck
  {
    var d1 := if IsNewShoe(d, cards) then Deck(cards, 0, ShoeSize(cards)) else d;
    var carteDiff := d1.lastMazzo - cards;
    if carteDiff < 0 then d1.(handIndex := Max(0, (d1.carteTotali - cards) / 4), lastMazzo := cards)
    else if carteDiff >= 4 then d1.(handIndex := d1.handIndex + carteDiff / 4, lastMazzo := cards)
    else d1
  }

  /** The deck object of one request, updated field by field. */
  class DeckState {
    var lastMazzo: int
    var handIndex: int
    var carteTotali: int

    function Value(): Deck
      reads this
    {
      Deck(lastMazzo, handIndex, carteTotali)
    }

    /** The stored document, or the default one for the reported count. */
    constructor (saved: Option<Deck>, cards: int)
      ensures Value() == if saved.Some? then saved.value else DefaultDeck(cards)
    {
      var d := if saved.Some? then saved.value else DefaultDeck(cards);
      lastMazzo := d.lastMazzo;
      handIndex := d.handIndex;
      carteTotali := d.carteTotali;
    }

    method Observe(carteRimaste: int)
      modifies this
      ensures Value() == NextDeck(old(Value()), carteRimaste)
    {
      if carteRimaste > lastMazzo && carteRimaste > carteTotali - 20 {
        carteTotali := if carteRimaste > 450 then 520 else if carteRimaste > 350 then 416
                       else if carteRimaste > 250 then 312 else 416;
        handIndex := 0;
        lastMazzo := carteRimaste;
      }

      var carteDiff := lastMazzo - carteRimaste;
      if carteDiff < 0 {
        var carteGiocate := carteTotali - carteRimaste;
        handIndex := Max(0, carteGiocate / 4);
        lastMazzo := carteRimaste;
      }

      if carteDiff >= 4 {
        handIndex := handIndex + carteDiff / 4;
        lastMazzo := carteRimaste;
      }
    }
  }

  /** A refill restarts the hand count at 0 in the same request: after the reset the count differs by nothing. */
  lemma NewShoeRestartsCount(d: Deck, cards: int)
    requires IsNewShoe(d, cards)
    ensures NextDeck(d, cards) == Deck(cards, 0, ShoeSize(cards))
  {
  }

  /**
   * Without a refill: a higher count recomputes the hand index from the cards
   * dealt out of the shoe, a drop of four or more cards advances it by one hand
   * per four cards, and a drop of one to three cards changes nothing.
   */
  lemma CountChanges(d: Deck, cards: int)
    requires !IsNewShoe(d, cards)
    ensures var r := NextDeck(d, cards);
      && (cards > d.lastMazzo ==> r == d.(handIndex := Max(0, (d.carteTotali - cards) / 4), lastMazzo := cards))
      && (d.lastMazzo - cards >= 4 ==> r == d.(handIndex := d.handIndex + (d.lastMazzo - cards) / 4, lastMazzo := cards))
      && (0 <= d.lastMazzo - cards <= 3 ==> r == d)
  {
  }

  /** The tracker ends within three cards above the reported count, and a hand index never goes negative. */
  lemma DeckInvariants(d: Deck, cards: int)
    ensures var r := NextDeck(d, cards);
      && 0 <= r.lastMazzo - cards <= 3
      && (d.handIndex >= 0 ==> r.handIndex >= 0)
      && (r.lastMazzo != cards ==> r == d)
  {
  }

  /** Reporting the same count twice changes nothing the second time, so a retried request is harmless. */
  lemma {:induction false} SameCountIdempotent(d: Deck, cards: int)
    ensures NextDeck(NextDeck(d, cards), cards) == NextDeck(d, cards)
  {
    DeckInvariants(d, cards);
    var r := NextDeck(d, cards);
    assert !IsNewShoe(r, cards);
    CountChanges(r, cards);
  }

  /** The hand index handed to the engine: the tracker's, or 1 while it is still 0. */
  function EngineHandIndex(handIndex: int): (h: int)
    ensures h >= 1
    ensures handIndex > 0 ==> h == handIndex
    ensures handIndex <= 0 ==> h == 1
  {
    if handIndex > 0 then handIndex else 1
  }

  // ------------------------- the request's inputs -------------------------

  /** The hand is in one of the fixed hot ranges 11–20, 41–50, 51–60, 61–70. */
  predicate IsInHotZone(hz: int)
  {
    (hz >= 11 && hz <= 20) || (hz >= 41 && hz <= 50) || (hz >= 51 && hz <= 60) || (hz >= 61 && hz <= 70)
  }

  /** The handler's fixed ranges are the engine's default hot zones: hands 11 to 20 and 41 to 70. */
  lemma HotZoneMatchesDefaults(hz: int)
    ensures IsInHotZone(hz) <==> (11 <= hz <= 20 || 41 <= hz <= 70)
    ensures IsInHotZone(hz) <==> InZones(DefaultHotZones, hz)
  {
    if IsInHotZone(hz) {
      if 11 <= hz <= 20 {
        assert InZone(DefaultHotZones[0], hz);
      } else if 41 <= hz <= 50 {
        assert InZone(DefaultHotZones[1], hz);
      } else if 51 <= hz <= 60 {
        assert InZone(DefaultHotZones[2], hz);
      } else {
        assert InZone(DefaultHotZones[3], hz);
      }
    }
  }

  function UpperChar(c: char): char
  {
    if 'a' <= c <= 'z' then (c as int - 32) as char else c
  }

  function Upper(s: string): string
  {
    seq(|s|, i requires 0 <= i < |s| => UpperChar(s[i]))
  }

  /** The outcome sent to the engine: "B" or "T" in either case, and Player for anything else. */
  function NormaliseOutcome(pbt: string): (e: Esito)
    ensures e == B <==> pbt == "B" || pbt == "b"
    ensures e == T <==> pbt == "T" || pbt == "t"
    ensures e == P <==> !(pbt == "B" || pbt == "b" || pbt == "T" || pbt == "t")
  {
    var u := Upper(pbt);
    if u == "B" then B else if u == "T" then T else P
  }

  /** The engine input of one request; the level on the wire counts from 0. */
  function EngineInput(tableId: int, handIndex: int, margin: real, marginFinite: bool, colpo: int, pbt: string,
                       elapsed: real): (i: HandInput)
    ensures i.handIndex >= 1 && i.martingalaUi == colpo + 1 && i.tables == 1 && !i.signalW10
    ensures i.hotZone <==> InZones(DefaultHotZones, i.handIndex)
    ensures i.esito == P || i.esito == B || i.esito == T
    ensures i.tableId == tableId && i.handIndex == EngineHandIndex(handIndex) && i.esito == NormaliseOutcome(pbt)
    ensures i.margineK == margin && i.marginFinite == marginFinite && i.elapsedMinutes == elapsed
  {
    var hand := EngineHandIndex(handIndex);
    HotZoneMatchesDefaults(hand);
    HandInput(tableId, hand, margin, marginFinite, colpo + 1, false, IsInHotZone(hand), NormaliseOutcome(pbt),
              elapsed, 1)
  }

  // ------------------------- the action code -------------------------

  function LowerChar(c: char): char
  {
    if 'A' <= c <= 'Z' then (c as int + 32) as char else c
  }

  function Lower(s: string): string
  {
    seq(|s|, i requires 0 <= i < |s| => LowerChar(s[i]))
  }

  /** `w` occurs in `s` as a contiguous piece. */
  predicate Contains(s: string, w: string)
  {
    exists k :: 0 <= k <= |s| && OccursAt(s, w, k)
  }

  /** `w` starts at position `k` of `s`. */
  predicate OccursAt(s: string, w: string, k: int)
  {
    0 <= k <= |s| && w <= s[k..]
  }

  predicate NumChar(c: char)
  {
    '0' <= c <= '9' || c == '-' || c == '.'
  }

  function Digit(n: int): char
    requires 0 <= n <= 9
  {
    ('0' as int + n) as char
  }

  function NatText(n: nat): (t: string)
    ensures |t| > 0 && forall i :: 0 <= i < |t| ==> '0' <= t[i] <= '9'
  {
    if n < 10 then [Digit(n)] else NatText(n / 10) + [Digit(n % 10)]
  }

  function IntText(n: int): (t: string)
    ensures forall i :: 0 <= i < |t| ==> NumChar(t[i])
  {
    if n < 0 then "-" + NatText(-n) else NatText(n)
  }

  /** `toFixed(2)`: sign, whole part, a point and two rounded decimals. */
  function Fixed2(x: real): (t: string)
    ensures forall i :: 0 <= i < |t| ==> NumChar(t[i])
  {
    var c := Round(Abs(x) * 100.0);
    var cents := if c < 0 then 0 else c;
    (if x < 0.0 then "-" else "") + NatText(cents / 100) + "." + [Digit((cents % 100) / 10), Digit(cents % 10)]
  }

  function ReasonText(r: Reason): string
  {
    match r
    case TableDisabled => "Tavolo disabilitato"
    case InvalidInput => "Input invalido"
    case StopWin => "STOP-WIN"
    case StopL5Sync => "Stop L5 sync"
    case StopL5Early => "Stop L5 anticipato"
    case DefaultReason => "Default"
    case DogmaActive(level) => "Dogma attivo L" + IntText(level)
    case DogmaLevel(level) => "Dogma L" + IntText(level)
    case StopL5HotRed => "Stop L5: hot/rosso"
    case DogmaExtendedVm20(vm) => "Dogma esteso L5 Vm20 " + Fixed2(vm)
    case OverrideHot => "Override HOT L5"
    case StopL5Default => "Stop L5 default"
  }

  function PredictionText(p: Prediction): string
  {
    match p
    case Safe => "Safe"
    case PredictionDisabled => "Disabled"
    case StopMission => "Stop Missione"
    case StopL5 => "Stop L5"
    case DogmaL8 => "Dogma L8"
    case L6Authorized => "L6 autorizzata"
  }

  function StatusText(s: TableStatus): string
  {
    match s
    case Active => "🟢 Active"
    case Warning => "🟡 Warning"
    case StatusDisabled => "🔴 Disabled"
    case MissionComplete => "🟢 Mission Complete"
  }

  /** The stop tests of the action code, on the advice's texts. */
  predicate SaysStop(adv: Advice)
  {
    var reason := Lower(ReasonText(adv.reason));
    Contains(reason, "stop") || PredictionText(adv.prediction) == "Disabled"
    || Contains(StatusText(adv.tableStatus), "Disabled") || Contains(StatusText(adv.tableStatus), "🔴")
    || adv.stopAtL5
  }

  predicate SaysReset(adv: Advice)
  {
    var reason := Lower(ReasonText(adv.reason));
    Contains(reason, "azzera") || Contains(reason, "reset") || Contains(reason, "safewin") || Contains(reason, "martingala")
  }

  predicate SaysStart(adv: Advice)
  {
    var reason := Lower(ReasonText(adv.reason));
    Contains(reason, "start") || Contains(reason, "avvia")
  }

  /** The action code, first match wins: 1 stop, 2 reset, 3 start, 0 otherwise. */
  method ActionCode(advice: Advice) returns (actionCode: int)
    ensures actionCode == 1 <==> SaysStop(advice)
    ensures actionCode == 2 <==> !SaysStop(advice) && SaysReset(advice)
    ensures actionCode == 3 <==> !SaysStop(advice) && !SaysReset(advice) && SaysStart(advice)
    ensures actionCode == 0 <==> !SaysStop(advice) && !SaysReset(advice) && !SaysStart(advice)
  {
    actionCode := 0;
    var reason := Lower(ReasonText(advice.reason));

    if Contains(reason, "stop") || PredictionText(advice.prediction) == "Disabled"
       || Contains(StatusText(advice.tableStatus), "Disabled") || Contains(StatusText(advice.tableStatus), "🔴")
       || advice.stopAtL5 {
      actionCode := 1;
    } else if Contains(reason, "azzera") || Contains(reason, "reset") || Contains(reason, "safewin")
              || Contains(reason, "martingala") {
      actionCode := 2;
    } else if Contains(reason, "start") || Contains(reason, "avvia") {
      actionCode := 3;
    }
  }

  /** Lower-casing leaves digits, signs and points alone. */
  lemma LowerNumericSuffix(a: string, d: string)
    requires forall i :: 0 <= i < |d| ==> NumChar(d[i])
    ensures Lower(a + d) == Lower(a) + d
  {
  }

  /** A keyword with a character the text lacks does not occur in it. */
  lemma MissingCharNotContained(s: string, w: string, c: char)
    requires c in w && c !in s
    ensures !Contains(s, w)
  {
    forall k | 0 <= k <= |s|
      ensures !OccursAt(s, w, k)
    {
    }
  }

  /** A letter missing from a text stays missing when digits, signs and points are appended. */
  lemma CharNotInNumericSuffix(pre: string, d: string, c: char)
    requires c !in pre && !NumChar(c)
    requires forall i :: 0 <= i < |d| ==> NumChar(d[i])
    ensures c !in pre + d
  {
    forall i | 0 <= i < |pre + d|
      ensures (pre + d)[i] != c
    {
      if i >= |pre| {
        assert (pre + d)[i] == d[i - |pre|];
      }
    }
  }

  /** A keyword with two adjacent characters that never sit side by side in the text does not occur in it. */
  lemma MissingPairNotContained(s: string, w: string, j: int)
    requires 0 <= j < |w| - 1
    requires forall i :: 0 <= i < |s| - 1 ==> !(s[i] == w[j] && s[i + 1] == w[j + 1])
    ensures !Contains(s, w)
  {
    forall k | 0 <= k <= |s|
      ensures !OccursAt(s, w, k)
    {
      if k + j + 1 < |s| {
        assert !(s[k + j] == w[j] && s[k + j + 1] == w[j + 1]);
      }
    }
  }

  /** The reasons that stop play: the mission stop and the four level-5 stops. */
  predicate IsStopReason(r: Reason)
  {
    r.StopWin? || r.StopL5Sync? || r.StopL5Early? || r.StopL5HotRed? || r.StopL5Default?
  }

  /** None of the reset or start keywords occurs in `t`. */
  predicate NoResetOrStart(t: string)
  {
    !Contains(t, "azzera") && !Contains(t, "reset") && !Contains(t, "safewin") && !Contains(t, "martingala")
    && !Contains(t, "start") && !Contains(t, "avvia")
  }

  lemma TextTableDisabled()
    ensures var t := "tavolo disabilitato"; !Contains(t, "stop") && NoResetOrStart(t)
  {
    var t := "tavolo disabilitato";
    assert 'p' !in t && 'z' !in t && 'r' !in t && 'f' !in t && 'm' !in t;
    assert forall i :: 0 <= i < |t| - 1 ==> !(t[i] == 'v' && t[i + 1] == 'v');
    MissingPairNotContained(t, "avvia", 1);
    MissingCharNotContained(t, "stop", 'p');
    MissingCharNotContained(t, "azzera", 'z');
    MissingCharNotContained(t, "reset", 'r');
    MissingCharNotContained(t, "safewin", 'f');
    MissingCharNotContained(t, "martingala", 'm');
    MissingCharNotContained(t, "start", 'r');
  }

  lemma KeywordsTableDisabled()
    ensures var t := Lower(ReasonText(TableDisabled));
      !Contains(t, "stop") && NoResetOrStart(t)
  {
    assert Lower("Tavolo disabilitato") == "tavolo disabilitato";
    TextTableDisabled();
  }

  lemma TextInvalidInput()
    ensures var t := "input invalido"; !Contains(t, "stop") && NoResetOrStart(t)
  {
    var t := "input invalido";
    MissingCharNotContained(t, "stop", 's');
    MissingCharNotContained(t, "azzera", 'z');
    MissingCharNotContained(t, "reset", 'r');
    MissingCharNotContained(t, "safewin", 's');
    MissingCharNotContained(t, "martingala", 'm');
    MissingCharNotContained(t, "start", 's');
    MissingPairNotContained(t, "avvia", 0);
  }

  lemma KeywordsInvalidInput()
    ensures var t := Lower(ReasonText(InvalidInput));
      !Contains(t, "stop") && NoResetOrStart(t)
  {
    assert Lower("Input invalido") == "input invalido";
    TextInvalidInput();
  }

  lemma TextStopWin()
    ensures var t := "stop-win"; Contains(t, "stop") && NoResetOrStart(t)
  {
    var t := "stop-win";
    assert OccursAt(t, "stop", 0);
    MissingCharNotContained(t, "azzera", 'a');
    MissingCharNotContained(t, "reset", 'r');
    MissingCharNotContained(t, "safewin", 'a');
    MissingCharNotContained(t, "martingala", 'm');
    MissingCharNotContained(t, "start", 'a');
    MissingCharNotContained(t, "avvia", 'a');
  }

  lemma KeywordsStopWin()
    ensures var t := Lower(ReasonText(StopWin));
      Contains(t, "stop") && NoResetOrStart(t)
  {
    assert Lower("STOP-WIN") == "stop-win";
    TextStopWin();
  }

  lemma TextStopL5Sync()
    ensures var t := "stop l5 sync"; Contains(t, "stop") && NoResetOrStart(t)
  {
    var t := "stop l5 sync";
    assert OccursAt(t, "stop", 0);
    MissingCharNotContained(t, "azzera", 'a');
    MissingCharNotContained(t, "reset", 'r');
    MissingCharNotContained(t, "safewin", 'a');
    MissingCharNotContained(t, "martingala", 'm');
    MissingCharNotContained(t, "start", 'a');
    MissingCharNotContained(t, "avvia", 'a');
  }

  lemma KeywordsStopL5Sync()
    ensures var t := Lower(ReasonText(StopL5Sync));
      Contains(t, "stop") && NoResetOrStart(t)
  {
    assert Lower("Stop L5 sync") == "stop l5 sync";
    TextStopL5Sync();
  }

  lemma TextStopL5Early()
    ensures var t := "stop l5 anticipato"; Contains(t, "stop") && NoResetOrStart(t)
  {
    var t := "stop l5 anticipato";
    assert OccursAt(t, "stop", 0);
    MissingCharNotContained(t, "azzera", 'z');
    MissingCharNotContained(t, "reset", 'r');
    MissingCharNotContained(t, "safewin", 'f');
    MissingCharNotContained(t, "martingala", 'm');
    MissingCharNotContained(t, "start", 'r');
    MissingCharNotContained(t, "avvia", 'v');
  }

  lemma KeywordsStopL5Early()
    ensures var t := Lower(ReasonText(StopL5Early));
      Contains(t, "stop") && NoResetOrStart(t)
  {
    assert Lower("Stop L5 anticipato") == "stop l5 anticipato";
    TextStopL5Early();
  }

  lemma TextDefaultReason()
    ensures var t := "default"; !Contains(t, "stop") && NoResetOrStart(t)
  {
    var t := "default";
    MissingCharNotContained(t, "stop", 's');
    MissingCharNotContained(t, "azzera", 'z');
    MissingCharNotContained(t, "reset", 'r');
    MissingCharNotContained(t, "safewin", 's');
    MissingCharNotContained(t, "martingala", 'm');
    MissingCharNotContained(t, "start", 's');
    MissingCharNotContained(t, "avvia", 'v');
  }

  lemma KeywordsDefaultReason()
    ensures var t := Lower(ReasonText(DefaultReason));
      !Contains(t, "stop") && NoResetOrStart(t)
  {
    assert Lower("Default") == "default";
    TextDefaultReason();
  }

  lemma TextDogmaActive(d: string)
    requires forall i :: 0 <= i < |d| ==> NumChar(d[i])
    ensures var t := "dogma attivo l" + d; !Contains(t, "stop") && NoResetOrStart(t)
  {
    var t := "dogma attivo l" + d;
    MissingCharNotContained(t, "stop", 's');
    MissingCharNotContained(t, "azzera", 'z');
    MissingCharNotContained(t, "reset", 'r');
    MissingCharNotContained(t, "safewin", 's');
    MissingCharNotContained(t, "martingala", 'r');
    MissingCharNotContained(t, "start", 's');
    MissingPairNotContained(t, "avvia", 0);
  }

  lemma KeywordsDogmaActive(x: int)
    ensures var t := Lower(ReasonText(DogmaActive(x)));
      !Contains(t, "stop") && NoResetOrStart(t)
  {
    TextDogmaActive(IntText(x));
    assert Lower("Dogma attivo L") == "dogma attivo l";
    LowerNumericSuffix("Dogma attivo L", IntText(x));
  }

  lemma TextDogmaLevel(d: string)
    requires forall i :: 0 <= i < |d| ==> NumChar(d[i])
    ensures var t := "dogma l" + d; !Contains(t, "stop") && NoResetOrStart(t)
  {
    var t := "dogma l" + d;
    MissingCharNotContained(t, "stop", 's');
    MissingCharNotContained(t, "azzera", 'z');
    MissingCharNotContained(t, "reset", 'r');
    MissingCharNotContained(t, "safewin", 's');
    MissingCharNotContained(t, "martingala", 'r');
    MissingCharNotContained(t, "start", 's');
    MissingCharNotContained(t, "avvia", 'v');
  }

  lemma KeywordsDogmaLevel(x: int)
    ensures var t := Lower(ReasonText(DogmaLevel(x)));
      !Contains(t, "stop") && NoResetOrStart(t)
  {
    TextDogmaLevel(IntText(x));
    assert Lower("Dogma L") == "dogma l";
    LowerNumericSuffix("Dogma L", IntText(x));
  }

  lemma TextStopL5HotRed()
    ensures var t := "stop l5: hot/rosso"; Contains(t, "stop") && NoResetOrStart(t)
  {
    var t := "stop l5: hot/rosso";
    assert OccursAt(t, "stop", 0);
    MissingCharNotContained(t, "azzera", 'a');
    MissingCharNotContained(t, "reset", 'e');
    MissingCharNotContained(t, "safewin", 'a');
    MissingCharNotContained(t, "martingala", 'm');
    MissingCharNotContained(t, "start", 'a');
    MissingCharNotContained(t, "avvia", 'a');
  }

  lemma KeywordsStopL5HotRed()
    ensures var t := Lower(ReasonText(StopL5HotRed));
      Contains(t, "stop") && NoResetOrStart(t)
  {
    assert Lower("Stop L5: hot/rosso") == "stop l5: hot/rosso";
    TextStopL5HotRed();
  }

  lemma TextDogmaExtendedVm20(d: string)
    requires forall i :: 0 <= i < |d| ==> NumChar(d[i])
    ensures var t := "dogma esteso l5 vm20 " + d; !Contains(t, "stop") && NoResetOrStart(t)
  {
    var pre := "dogma esteso l5 vm20 ";
    var t := pre + d;
    assert 'p' !in pre && 'z' !in pre && 'r' !in pre && 'f' !in pre && 'i' !in pre;
    CharNotInNumericSuffix(pre, d, 'p');
    CharNotInNumericSuffix(pre, d, 'z');
    CharNotInNumericSuffix(pre, d, 'r');
    CharNotInNumericSuffix(pre, d, 'f');
    CharNotInNumericSuffix(pre, d, 'i');
    MissingCharNotContained(t, "stop", 'p');
    MissingCharNotContained(t, "azzera", 'z');
    MissingCharNotContained(t, "reset", 'r');
    MissingCharNotContained(t, "safewin", 'f');
    MissingCharNotContained(t, "martingala", 'r');
    MissingCharNotContained(t, "start", 'r');
    MissingCharNotContained(t, "avvia", 'i');
  }

  lemma KeywordsDogmaExtendedVm20(x: real)
    ensures var t := Lower(ReasonText(DogmaExtendedVm20(x)));
      !Contains(t, "stop") && NoResetOrStart(t)
  {
    TextDogmaExtendedVm20(Fixed2(x));
    assert Lower("Dogma esteso L5 Vm20 ") == "dogma esteso l5 vm20 ";
    LowerNumericSuffix("Dogma esteso L5 Vm20 ", Fixed2(x));
  }

  lemma TextOverrideHot()
    ensures var t := "override hot l5"; !Contains(t, "stop") && NoResetOrStart(t)
  {
    var t := "override hot l5";
    MissingCharNotContained(t, "stop", 's');
    MissingCharNotContained(t, "azzera", 'a');
    MissingCharNotContained(t, "reset", 's');
    MissingCharNotContained(t, "safewin", 's');
    MissingCharNotContained(t, "martingala", 'm');
    MissingCharNotContained(t, "start", 's');
    MissingCharNotContained(t, "avvia", 'a');
  }

  lemma KeywordsOverrideHot()
    ensures var t := Lower(ReasonText(OverrideHot));
      !Contains(t, "stop") && NoResetOrStart(t)
  {
    assert Lower("Override HOT L5") == "override hot l5";
    TextOverrideHot();
  }

  lemma TextStopL5Default()
    ensures var t := "stop l5 default"; Contains(t, "stop") && NoResetOrStart(t)
  {
    var t := "stop l5 default";
    assert OccursAt(t, "stop", 0);
    MissingCharNotContained(t, "azzera", 'z');
    MissingCharNotContained(t, "reset", 'r');
    MissingCharNotContained(t, "safewin", 'w');
    MissingCharNotContained(t, "martingala", 'm');
    MissingCharNotContained(t, "start", 'r');
    MissingCharNotContained(t, "avvia", 'v');
  }

  lemma KeywordsStopL5Default()
    ensures var t := Lower(ReasonText(StopL5Default));
      Contains(t, "stop") && NoResetOrStart(t)
  {
    assert Lower("Stop L5 default") == "stop l5 default";
    TextStopL5Default();
  }

  /**
   * Of the keywords the action code looks for, an engine reason only ever
   * contains "stop", and exactly the stop reasons do; no reason asks for a
   * reset or a start.
   */
  lemma ReasonKeywords(r: Reason)
    ensures Contains(Lower(ReasonText(r)), "stop") <==> IsStopReason(r)
    ensures NoResetOrStart(Lower(ReasonText(r)))
  {
    match r
    case TableDisabled => KeywordsTableDisabled();
    case InvalidInput => KeywordsInvalidInput();
    case StopWin => KeywordsStopWin();
    case StopL5Sync => KeywordsStopL5Sync();
    case StopL5Early => KeywordsStopL5Early();
    case DefaultReason => KeywordsDefaultReason();
    case DogmaActive(x) => KeywordsDogmaActive(x);
    case DogmaLevel(x) => KeywordsDogmaLevel(x);
    case StopL5HotRed => KeywordsStopL5HotRed();
    case DogmaExtendedVm20(x) => KeywordsDogmaExtendedVm20(x);
    case OverrideHot => KeywordsOverrideHot();
    case StopL5Default => KeywordsStopL5Default();
  }

  /** The status and prediction tests fire exactly on the disabled table. */
  lemma StatusKeywords(adv: Advice)
    ensures PredictionText(adv.prediction) == "Disabled" <==> adv.prediction == PredictionDisabled
    ensures Contains(StatusText(adv.tableStatus), "Disabled") <==> adv.tableStatus == StatusDisabled
    ensures Contains(StatusText(adv.tableStatus), "🔴") <==> adv.tableStatus == StatusDisabled
  {
    var t := StatusText(adv.tableStatus);
    match adv.tableStatus
    case Active =>
      assert !Contains(t, "Disabled") by { MissingCharNotContained(t, "Disabled", 'D'); }
      MissingCharNotContained(t, "🔴", '🔴');
    case Warning =>
      assert !Contains(t, "Disabled") by { MissingCharNotContained(t, "Disabled", 'D'); }
      MissingCharNotContained(t, "🔴", '🔴');
    case StatusDisabled =>
      assert OccursAt(t, "Disabled", 2);
      assert OccursAt(t, "🔴", 0);
    case MissionComplete =>
      assert !Contains(t, "Disabled") by { MissingCharNotContained(t, "Disabled", 'D'); }
      MissingCharNotContained(t, "🔴", '🔴');
  }

  /**
   * The engine's advice only ever maps to 1 (stop: a stop reason, the
   * disabled table, or a stop at level 5) or 0; codes 2 and 3 are never sent.
   */
  lemma ActionCodeIsStopOrPlay(adv: Advice)
    ensures SaysStop(adv) <==>
      IsStopReason(adv.reason) || adv.prediction == PredictionDisabled || adv.tableStatus == StatusDisabled
      || adv.stopAtL5
    ensures !SaysReset(adv) && !SaysStart(adv)
  {
    ReasonKeywords(adv.reason);
    StatusKeywords(adv);
  }

  // ------------------------- one request -------------------------

  /**
   * One complete request: the deck document is advanced, the engine decides
   * on the resulting input, and the advice becomes the action code. Returns
   * the code and the deck document written back.
   */
  method HandleHand(store: Store, live: LiveSettings, saved: Option<Deck>, tableId: int, margin: real,
                    marginFinite: bool, colpo: int, pbt: string, carteRimaste: int, elapsed: real)
    returns (actionCode: int, deck: Deck)
    modifies store, live
    ensures deck == NextDeck(if saved.Some? then saved.value else DefaultDeck(carteRimaste), carteRimaste)
    ensures var v := Decide(old(store.State()), old(live.value),
                            EngineInput(tableId, deck.handIndex, margin, marginFinite, colpo, pbt, elapsed));
      && store.State() == v.db && live.value == v.settings
      && (actionCode == 1 <==> SaysStop(v.advice))
      && (actionCode == 0 <==> !SaysStop(v.advice))
  {
    var deckState := new DeckState(saved, carteRimaste);
    deckState.Observe(carteRimaste);
    deck := deckState.Value();

    var handIndexMazzo := if deck.handIndex > 0 then deck.handIndex else 1;
    var isInHotZone := IsInHotZone(handIndexMazzo);
    var esito := NormaliseOutcome(pbt);
    var input := HandInput(tableId, handIndexMazzo, margin, marginFinite, colpo + 1, false, isInHotZone, esito, elapsed, 1);
    assert input == EngineInput(tableId, deck.handIndex, margin, marginFinite, colpo, pbt, elapsed);

    var engine := new Engine.ProactiveEngine(store, live);
    var advice := engine.FeedAndDecide(input);
    actionCode := ActionCode(advice);
    ActionCodeIsStopOrPlay(advice);
  }
}
