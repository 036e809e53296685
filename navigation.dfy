/**
 * The navigation bar's scroll handler (`initNavigation`): past 100 pixels
 * the bar gets the `scrolled` class and hides while the page scrolls down;
 * otherwise it loses the class and shows. `lastScroll` remembers the
 * previous offset. Offsets are page pixels, possibly fractional.
 */
module Navigation {

  /** The offset beyond which the bar is in its scrolled form. */
  const Threshold: real := 100.0

  /** The handler's closure variable and the bar's class and transform. */
  datatype NavState = NavState(lastScroll: real, scrolled: bool, hidden: bool)

  /** The page as loaded: at the top, bar shown. */
  const Top: NavState := NavState(0.0, false, false)

  /** The scroll handler, for the page offset `current`. */
  function AfterScroll(s: NavState, current: real): (r: NavState)
    ensures r.lastScroll == current
    ensures r.scrolled <==> current > Threshold
    ensures r.hidden <==> current > Threshold && current > s.lastScroll
  {
    if current > Threshold then
      NavState(current, true, current > s.lastScroll)
    else
      NavState(current, false, false)
  }

  /** The state after the handler has run for each offset in turn. */
  function AfterScrolls(s: NavState, offsets: seq<real>): NavState
    decreases |offsets|
  {
    if offsets == [] then s else AfterScrolls(AfterScroll(s, offsets[0]), offsets[1..])
  }

  /** The bar is hidden only in its scrolled form. */
  predicate Valid(s: NavState)
  {
    s.hidden ==> s.scrolled
  }

  /**
   * After any non-empty run of scroll events the bar depends only on the
   * last offset and the one before it (the starting state's for a single
   * event): the handler keeps no other history.
   */
  lemma {:induction false} OnlyLastTwoOffsetsMatter(s: NavState, offsets: seq<real>)
    requires |offsets| > 0
    ensures var last := offsets[|offsets| - 1];
      var before := if |offsets| == 1 then s.lastScroll else offsets[|offsets| - 2];
      AfterScrolls(s, offsets) == AfterScroll(NavState(before, false, false), last)
    decreases |offsets|
  {
    if |offsets| > 1 {
      OnlyLastTwoOffsetsMatter(AfterScroll(s, offsets[0]), offsets[1..]);
    }
  }

  /** Every run of scroll events keeps the bar valid. */
  lemma AfterScrollsValid(s: NavState, offsets: seq<real>)
    requires |offsets| > 0
    ensures Valid(AfterScrolls(s, offsets))
  {
    OnlyLastTwoOffsetsMatter(s, offsets);
  }

  /** A page that keeps scrolling up never hides the bar. */
  lemma {:induction false} ScrollingUpShows(s: NavState, offsets: seq<real>)
    requires !s.hidden
    requires |offsets| > 0 ==> offsets[0] <= s.lastScroll
    requires forall i :: 0 < i < |offsets| ==> offsets[i] <= offsets[i - 1]
    ensures !AfterScrolls(s, offsets).hidden
    decreases |offsets|
  {
    if offsets != [] {
      var rest := offsets[1..];
      assert |rest| > 0 ==> rest[0] == offsets[1] <= offsets[0];
      assert forall i :: 0 < i < |rest| ==> rest[i] == offsets[i + 1] <= offsets[i] == rest[i - 1];
      ScrollingUpShows(AfterScroll(s, offsets[0]), rest);
    }
  }

  /** The navigation bar as the page holds it. */
  class NavBar {
    var lastScroll: real
    var scrolled: bool
    var hidden: bool

    function Model(): NavState
      reads this
    {
      NavState(lastScroll, scrolled, hidden)
    }

    constructor ()
      ensures Model() == Top
    {
      lastScroll, scrolled, hidden := 0.0, false, false;
    }

    /** The `scroll` listener; `current` is `window.pageYOffset`. */
    method OnScroll(current: real)
      modifies this
      ensures Model() == AfterScroll(old(Model()), current)
    {
      if current > Threshold {
        scrolled := true;
        if current > lastScroll {
          hidden := true;
        } else {
          hidden := false;
        }
      } else {
        scrolled := false;
        hidden := false;
      }
      lastScroll := current;
    }
  }
}
