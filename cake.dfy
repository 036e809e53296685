/**
 * The interactive cake (`initCake`): a light button, a blow button and a
 * reset button drive the `candlesLit` flag, the two buttons' `disabled`
 * flags, one `lit` flag per candle and the visibility of the wish message.
 *
 * The per-candle timers (300 ms and 200 ms apart) and the 1 s delay before
 * the wish appears are collapsed: each handler is modelled by the state it
 * leaves once all of its timers have fired.
 */
module Cake {

  /** The cake widget's observable state. */
  datatype CakeState = CakeState(
    candlesLit: bool,
    lightDisabled: bool,
    blowDisabled: bool,
    lit: seq<bool>,
    wishHidden: bool)

  /** The three buttons. */
  datatype Button = LightButton | BlowButton | ResetButton

  predicate AllLit(lit: seq<bool>)
  {
    forall i :: 0 <= i < |lit| ==> lit[i]
  }

  predicate NoneLit(lit: seq<bool>)
  {
    forall i :: 0 <= i < |lit| ==> !lit[i]
  }

  /** The light button's click handler. */
  function AfterLight(s: CakeState): (r: CakeState)
    ensures |r.lit| == |s.lit| && r.wishHidden == s.wishHidden
    ensures s.candlesLit ==> r == s
    ensures !s.candlesLit ==>
      r.candlesLit && r.lightDisabled && !r.blowDisabled && AllLit(r.lit)
  {
    if s.candlesLit then s
    else s.(candlesLit := true, lightDisabled := true, blowDisabled := false,
            lit := seq(|s.lit|, _ => true))
  }

  /** The blow button's click handler; it leaves the light button as it was. */
  function AfterBlow(s: CakeState): (r: CakeState)
    ensures |r.lit| == |s.lit| && r.lightDisabled == s.lightDisabled
    ensures !s.candlesLit ==> r == s
    ensures s.candlesLit ==>
      !r.candlesLit && r.blowDisabled && NoneLit(r.lit) && !r.wishHidden
  {
    if !s.candlesLit then s
    else s.(candlesLit := false, blowDisabled := true,
            lit := seq(|s.lit|, _ => false), wishHidden := false)
  }

  /** The reset button's click handler: the same state whatever came before. */
  function AfterReset(s: CakeState): (r: CakeState)
    ensures |r.lit| == |s.lit|
    ensures !r.candlesLit && !r.lightDisabled && !r.blowDisabled
    ensures NoneLit(r.lit) && r.wishHidden
  {
    CakeState(false, false, false, seq(|s.lit|, _ => false), true)
  }

  /** A click: the browser does not dispatch clicks to a disabled button. */
  function Press(s: CakeState, b: Button): (r: CakeState)
    ensures |r.lit| == |s.lit|
    ensures (b == LightButton && s.lightDisabled) || (b == BlowButton && s.blowDisabled) ==> r == s
    ensures b == LightButton && !s.lightDisabled ==> r == AfterLight(s)
    ensures b == BlowButton && !s.blowDisabled ==> r == AfterBlow(s)
    ensures b == ResetButton ==> r == AfterReset(s)
  {
    match b
    case LightButton => if s.lightDisabled then s else AfterLight(s)
    case BlowButton => if s.blowDisabled then s else AfterBlow(s)
    case ResetButton => AfterReset(s)
  }

  /** The state after a sequence of clicks. */
  function PressAll(s: CakeState, bs: seq<Button>): CakeState
    decreases |bs|
  {
    if bs == [] then s else PressAll(Press(s, bs[0]), bs[1..])
  }

  /**
   * What the handlers keep true: lit candles go with a disabled light button
   * and an enabled blow button; when the flag is clear no candle is lit.
   */
  predicate Consistent(s: CakeState)
  {
    && (s.candlesLit ==> AllLit(s.lit) && s.lightDisabled && !s.blowDisabled)
    && (!s.candlesLit ==> NoneLit(s.lit))
  }

  /** Every click keeps the cake consistent. */
  lemma PressConsistent(s: CakeState, b: Button)
    requires Consistent(s)
    ensures Consistent(Press(s, b)) && |Press(s, b).lit| == |s.lit|
  {
  }

  /** Any sequence of clicks keeps the cake consistent. */
  lemma {:induction false} PressAllConsistent(s: CakeState, bs: seq<Button>)
    requires Consistent(s)
    ensures Consistent(PressAll(s, bs)) && |PressAll(s, bs).lit| == |s.lit|
    decreases |bs|
  {
    if bs != [] {
      PressConsistent(s, bs[0]);
      PressAllConsistent(Press(s, bs[0]), bs[1..]);
    }
  }

  /** Lighting twice is the same as lighting once. */
  lemma LightIdempotent(s: CakeState)
    ensures AfterLight(AfterLight(s)) == AfterLight(s)
  {
  }

  /**
   * After lighting and blowing, both the light and the blow button are
   * disabled: until a reset, no click on them changes anything.
   */
  lemma {:induction false} BlownCakeWaitsForReset(s: CakeState, bs: seq<Button>)
    requires Consistent(s) && !s.candlesLit && !s.lightDisabled
    requires forall i :: 0 <= i < |bs| ==> bs[i] != ResetButton
    ensures PressAll(Press(Press(s, LightButton), BlowButton), bs)
         == Press(Press(s, LightButton), BlowButton)
    decreases |bs|
  {
    var t := Press(Press(s, LightButton), BlowButton);
    assert t.lightDisabled && t.blowDisabled;
    if bs != [] {
      assert Press(t, bs[0]) == t;
      BlownCakeWaitsForReset(s, bs[1..]);
    }
  }

  /** A reset followed by light and blow shows the wish with every candle out. */
  lemma ResetLightBlow(s: CakeState)
    ensures var t := PressAll(s, [ResetButton, LightButton, BlowButton]);
      && NoneLit(t.lit) && !t.wishHidden && !t.candlesLit
      && t.lightDisabled && t.blowDisabled
  {
    assert [ResetButton, LightButton, BlowButton][1..] == [LightButton, BlowButton];
    assert [LightButton, BlowButton][1..] == [BlowButton];
  }

  /** The cake with its buttons and candles as the page holds them. */
  class CakeWidget {
    var candlesLit: bool
    var lightDisabled: bool
    var blowDisabled: bool
    var wishHidden: bool
    /** One `lit` flag per candle element. */
    var candles: array<bool>

    function Model(): CakeState
      reads this, candles
    {
      CakeState(candlesLit, lightDisabled, blowDisabled, candles[..], wishHidden)
    }

    /**
     * The page as loaded: no candle lit, the wish hidden, the light button
     * enabled; whether the blow button starts disabled is up to the markup.
     */
    constructor (candleCount: nat, blowInitiallyDisabled: bool)
      ensures Model() == CakeState(false, false, blowInitiallyDisabled,
                                   seq(candleCount, _ => false), true)
      ensures Consistent(Model()) && fresh(candles)
    {
      candlesLit := false;
      lightDisabled := false;
      blowDisabled := blowInitiallyDisabled;
      wishHidden := true;
      candles := new bool[candleCount](_ => false);
    }

    /** Marks every candle as `lit` or not. */
    method SetAllCandles(value: bool)
      modifies candles
      ensures candles[..] == seq(candles.Length, _ => value)
    {
      var i := 0;
      while i < candles.Length
        invariant 0 <= i <= candles.Length
        invariant forall k :: 0 <= k < i ==> candles[k] == value
      {
        candles[i] := value;
        i := i + 1;
      }
    }

    method OnLightClick()
      modifies this, candles
      ensures candles == old(candles)
      ensures Model() == AfterLight(old(Model()))
    {
      if !candlesLit {
        SetAllCandles(true);
        candlesLit := true;
        lightDisabled := true;
        blowDisabled := false;
      }
    }

    method OnBlowClick()
      modifies this, candles
      ensures candles == old(candles)
      ensures Model() == AfterBlow(old(Model()))
    {
      if candlesLit {
        SetAllCandles(false);
        candlesLit := false;
        blowDisabled := true;
        wishHidden := false;
      }
    }

    method OnResetClick()
      modifies this, candles
      ensures candles == old(candles)
      ensures Model() == AfterReset(old(Model()))
    {
      SetAllCandles(false);
      wishHidden := true;
      candlesLit := false;
      lightDisabled := false;
      blowDisabled := false;
    }
  }
}
