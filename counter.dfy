/**
 * The hero statistics counter (`animateCounter`): on every animation frame it
 * interpolates linearly from `start` to `end` over `duration` milliseconds,
 * shows the floor of the interpolated value, and asks for another frame until
 * the interpolation is complete. The counter with id "smilesShared" shows an
 * infinity glyph instead of its final number.
 *
 * Progress is an exact `real`: the IEEE-754 rounding of the page's arithmetic
 * is not modelled.
 */
module Counter {

  /** What the counter element displays: an integer, or the glyph '∞'. */
  datatype Text = Number(n: int) | Infinity

  /** The outcome of one animation-frame step. */
  datatype Frame = Frame(text: Text, requestNext: bool)

  /** The one counter whose final value is replaced by '∞'. */
  const SmilesShared: string := "smilesShared"

  /** progress = min(elapsed / duration, 1) */
  function Progress(elapsed: real, duration: real): (p: real)
    requires duration > 0.0
    ensures p <= 1.0
    ensures elapsed >= 0.0 ==> 0.0 <= p
    ensures p == 1.0 <==> elapsed >= duration
    ensures p < 1.0 ==> p * duration == elapsed
  {
    if elapsed / duration < 1.0 then elapsed / duration else 1.0
  }

  /** The displayed integer: floor(progress * (end - start) + start). */
  function Value(progress: real, start: int, end: int): (v: int)
    ensures progress == 0.0 ==> v == start
    ensures progress == 1.0 ==> v == end
    ensures start <= end && 0.0 <= progress <= 1.0 ==> start <= v <= end
  {
    InterpolationBounds(progress, start, end);
    (progress * (end - start) as real + start as real).Floor
  }

  /** For a progress in [0, 1] the interpolated real lies between start and end. */
  lemma InterpolationBounds(progress: real, start: int, end: int)
    ensures start <= end && 0.0 <= progress <= 1.0 ==>
      start as real <= progress * (end - start) as real + start as real <= end as real
  {
  }

  /** The text the counter ends on. */
  function FinalText(id: string, end: int): (t: Text)
    ensures t == Infinity <==> id == SmilesShared
    ensures t.Number? ==> t.n == end
  {
    if id == SmilesShared then Infinity else Number(end)
  }

  /**
   * One animation-frame callback, `elapsed` milliseconds after the first
   * frame: what the element shows and whether another frame is requested.
   */
  function Step(id: string, start: int, end: int, duration: real, elapsed: real): (f: Frame)
    requires duration > 0.0
    ensures f.requestNext <==> elapsed < duration
    ensures f.text == Infinity <==> id == SmilesShared && Value(Progress(elapsed, duration), start, end) == end
    ensures f.text.Number? ==> f.text.n == Value(Progress(elapsed, duration), start, end)
  {
    var progress := Progress(elapsed, duration);
    var value := Value(progress, start, end);
    var text := if id == SmilesShared && value == end then Infinity else Number(value);
    Frame(text, progress < 1.0)
  }

  /** The number a text stands for; '∞' stands for the counter's end value. */
  function Shown(t: Text, end: int): int
  {
    match t
    case Number(n) => n
    case Infinity => end
  }

  /** Once `duration` has elapsed the counter shows its final text and stops. */
  lemma StepAtEnd(id: string, start: int, end: int, duration: real, elapsed: real)
    requires duration > 0.0 && elapsed >= duration
    ensures Step(id, start, end, duration, elapsed) == Frame(FinalText(id, end), false)
  {
  }

  /** The "smilesShared" counter never displays its final number. */
  lemma SmilesNeverShowsEnd(start: int, end: int, duration: real, elapsed: real)
    requires duration > 0.0
    ensures Step(SmilesShared, start, end, duration, elapsed).text != Number(end)
  {
  }

  /** A larger progress never shows a smaller value. */
  lemma ValueMonotone(p1: real, p2: real, start: int, end: int)
    requires 0.0 <= p1 <= p2 <= 1.0 && start <= end
    ensures Value(p1, start, end) <= Value(p2, start, end)
  {
  }

  /** More elapsed time never means less progress. */
  lemma ProgressMonotone(e1: real, e2: real, duration: real)
    requires duration > 0.0 && e1 <= e2
    ensures Progress(e1, duration) <= Progress(e2, duration)
  {
    assert e2 / duration - e1 / duration == (e2 - e1) / duration;
  }

  /** The shown value is non-decreasing in the elapsed time. */
  lemma StepMonotone(id: string, start: int, end: int, duration: real, e1: real, e2: real)
    requires duration > 0.0 && 0.0 <= e1 <= e2 && start <= end
    ensures Shown(Step(id, start, end, duration, e1).text, end)
         <= Shown(Step(id, start, end, duration, e2).text, end)
    ensures start <= Shown(Step(id, start, end, duration, e1).text, end) <= end
  {
    ProgressMonotone(e1, e2, duration);
    ValueMonotone(Progress(e1, duration), Progress(e2, duration), start, end);
  }

  /** Timestamps delivered by the animation-frame scheduler never go back. */
  ghost predicate NonDecreasing(ts: seq<real>)
  {
    forall j, k :: 0 <= j <= k < |ts| ==> ts[j] <= ts[k]
  }

  /**
   * The whole animation: the frame callbacks run at `timestamps` (the first
   * one fixes the start time) until a frame no longer requests a successor.
   * Returns the texts shown, one per frame that ran.
   */
  method Animate(id: string, start: int, end: int, duration: real, timestamps: seq<real>)
    returns (texts: seq<Text>)
    requires duration > 0.0
    ensures |texts| <= |timestamps|
    ensures |timestamps| > 0 ==> |texts| > 0
    ensures forall k :: 0 <= k < |texts| ==>
      texts[k] == Step(id, start, end, duration, timestamps[k] - timestamps[0]).text
    ensures forall k :: 0 <= k < |texts| - 1 ==> timestamps[k] - timestamps[0] < duration
    ensures 0 < |texts| < |timestamps| ==> timestamps[|texts| - 1] - timestamps[0] >= duration
    ensures 0 < |texts| < |timestamps| ==> texts[|texts| - 1] == FinalText(id, end)
    ensures NonDecreasing(timestamps) && start <= end ==>
      forall j, k :: 0 <= j <= k < |texts| ==> start <= Shown(texts[j], end) <= Shown(texts[k], end) <= end
  {
    texts := [];
    if |timestamps| == 0 {
      return;
    }
    var first := timestamps[0];
    var i := 0;
    var again := true;
    while i < |timestamps| && again
      invariant 0 <= i <= |timestamps|
      invariant |texts| == i
      invariant forall k :: 0 <= k < i ==>
        texts[k] == Step(id, start, end, duration, timestamps[k] - first).text
      invariant forall k :: 0 <= k < i - 1 ==> timestamps[k] - first < duration
      invariant again <==> i == 0 || timestamps[i - 1] - first < duration
      invariant !again ==> texts[i - 1] == FinalText(id, end)
      invariant NonDecreasing(timestamps) && start <= end ==>
        forall j, k :: 0 <= j <= k < i ==> start <= Shown(texts[j], end) <= Shown(texts[k], end) <= end
    {
      var f := Step(id, start, end, duration, timestamps[i] - first);
      if !f.requestNext {
        StepAtEnd(id, start, end, duration, timestamps[i] - first);
      }
      if NonDecreasing(timestamps) && start <= end {
        forall j | 0 <= j < i
          ensures Shown(texts[j], end) <= Shown(f.text, end)
        {
          StepMonotone(id, start, end, duration, timestamps[j] - first, timestamps[i] - first);
        }
        StepMonotone(id, start, end, duration, timestamps[i] - first, timestamps[i] - first);
      }
      texts := texts + [f.text];
      again := f.requestNext;
      i := i + 1;
    }
  }

  /** The "daysTogether" counter (0 to 365 over 2 s) shows 182 half-way. */
  lemma DaysTogetherHalfway()
    ensures Step("daysTogether", 0, 365, 2000.0, 1000.0) == Frame(Number(182), true)
  {
  }

  /** The "smilesShared" counter (0 to 999 over 2.5 s) ends on '∞'. */
  lemma SmilesSharedEndsOnInfinity(elapsed: real)
    requires elapsed >= 2500.0
    ensures Step(SmilesShared, 0, 999, 2500.0, elapsed) == Frame(Infinity, false)
  {
  }
}
