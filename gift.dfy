/**
 * The gift box (`initGift`): clicking the box or the "open" button runs
 * `openGift`, which is latched by the `giftOpened` flag. The first run hides
 * the box and the button, reveals the surprise and fires the celebration
 * (confetti, hearts, a bell sound and a toast), which the model counts.
 *
 * The 1 s delay before the surprise appears is collapsed into the call.
 */
module Gift {

  /** The gift widget's observable state. */
  datatype GiftState = GiftState(
    giftOpened: bool,
    boxHidden: bool,
    buttonHidden: bool,
    surpriseHidden: bool,
    celebrations: nat)

  /** The two elements whose click runs `openGift`. */
  datatype Trigger = BoxClick | ButtonClick

  /** The page as loaded. */
  const Closed: GiftState := GiftState(false, false, false, true, 0)

  /** `openGift`. */
  function AfterOpen(s: GiftState): (r: GiftState)
    ensures r.giftOpened
    ensures s.giftOpened ==> r == s
    ensures !s.giftOpened ==>
      r.boxHidden && r.buttonHidden && !r.surpriseHidden
      && r.celebrations == s.celebrations + 1
  {
    if s.giftOpened then s
    else GiftState(true, true, true, false, s.celebrations + 1)
  }

  /** Both triggers call the same handler. */
  function OnTrigger(s: GiftState, t: Trigger): GiftState
  {
    match t
    case BoxClick => AfterOpen(s)
    case ButtonClick => AfterOpen(s)
  }

  /** The state after a sequence of clicks. */
  function AfterTriggers(s: GiftState, ts: seq<Trigger>): GiftState
    decreases |ts|
  {
    if ts == [] then s else AfterTriggers(OnTrigger(s, ts[0]), ts[1..])
  }

  /** Once opened, no click changes anything. */
  lemma {:induction false} OpenedIsFinal(s: GiftState, ts: seq<Trigger>)
    requires s.giftOpened
    ensures AfterTriggers(s, ts) == s
    decreases |ts|
  {
    if ts != [] {
      OpenedIsFinal(OnTrigger(s, ts[0]), ts[1..]);
    }
  }

  /**
   * However many times the box and the button are clicked, the celebration
   * runs at most once: exactly once if the gift was closed and clicked.
   */
  lemma {:induction false} CelebratesAtMostOnce(s: GiftState, ts: seq<Trigger>)
    ensures AfterTriggers(s, ts).celebrations
         == s.celebrations + (if ts != [] && !s.giftOpened then 1 else 0)
    ensures ts != [] ==> AfterTriggers(s, ts) == AfterOpen(s)
  {
    if ts != [] {
      OpenedIsFinal(OnTrigger(s, ts[0]), ts[1..]);
    }
  }

  /** The gift widget's closure state, as fields. */
  class GiftBox {
    var giftOpened: bool
    var boxHidden: bool
    var buttonHidden: bool
    var surpriseHidden: bool
    var celebrations: nat

    function Model(): GiftState
      reads this
    {
      GiftState(giftOpened, boxHidden, buttonHidden, surpriseHidden, celebrations)
    }

    constructor ()
      ensures Model() == Closed
    {
      giftOpened := false;
      boxHidden := false;
      buttonHidden := false;
      surpriseHidden := true;
      celebrations := 0;
    }

    /** `openGift`, run from either trigger. */
    method OpenGift()
      modifies this
      ensures Model() == AfterOpen(old(Model()))
    {
      if !giftOpened {
        boxHidden := true;
        buttonHidden := true;
        surpriseHidden := false;
        celebrations := celebrations + 1;
        giftOpened := true;
      }
    }
  }
}
