/**
 * The theme toggle (`initTheme`): the page starts dark when the stored
 * preference says "dark", or when nothing usable is stored and the system
 * prefers a dark colour scheme; each click flips the theme, stores the new
 * one and relabels the toggle. Local storage is the `storage` field.
 */
module Theme {

  /** What `localStorage.getItem('theme')` returns. */
  datatype Stored = Null | Str(value: string)

  /** The body's theme, the stored item and the toggle's icon and label. */
  datatype ThemeState = ThemeState(dark: bool, storage: Stored, icon: string, caption: string)

  const SunIcon: string := "fas fa-sun"
  const MoonIcon: string := "fas fa-moon"

  /** JavaScript truthiness of the stored item: null and "" are false. */
  predicate Truthy(saved: Stored)
  {
    saved.Str? && saved.value != ""
  }

  /**
   * Whether the page starts with the dark theme: dark when "dark" is saved,
   * light when any other non-empty value is, and as the preference says
   * when nothing or "" is saved.
   */
  function InitialDark(saved: Stored, prefersDark: bool): (d: bool)
    ensures saved == Str("dark") ==> d
    ensures Truthy(saved) && saved != Str("dark") ==> !d
    ensures !Truthy(saved) ==> (d <==> prefersDark)
  {
    saved == Str("dark") || (!Truthy(saved) && prefersDark)
  }

  /** The icon and label that go with a theme: the toggle offers the other one. */
  function IconFor(dark: bool): string { if dark then SunIcon else MoonIcon }

  function CaptionFor(dark: bool): string { if dark then "Light" else "Dark" }

  /** The string the toggle stores for a theme. */
  function StoredFor(dark: bool): (s: Stored)
    ensures Truthy(s)
  {
    Str(if dark then "dark" else "light")
  }

  /**
   * The page as loaded. The markup shows the light-theme toggle (moon,
   * "Dark"); the start-up code rewrites it only for the dark theme.
   */
  function Initial(saved: Stored, prefersDark: bool): (r: ThemeState)
    ensures r.storage == saved
  {
    var dark := InitialDark(saved, prefersDark);
    ThemeState(dark, saved, IconFor(dark), CaptionFor(dark))
  }

  /** The toggle's click handler. */
  function AfterToggle(s: ThemeState): (r: ThemeState)
    ensures r.dark == !s.dark
  {
    var dark := !s.dark;
    ThemeState(dark, StoredFor(dark), IconFor(dark), CaptionFor(dark))
  }

  /** The toggle shows the icon and the label that match the theme. */
  predicate Matches(s: ThemeState)
  {
    s.icon == IconFor(s.dark) && s.caption == CaptionFor(s.dark)
  }

  /** A toggle leaves a matching toggle, a stored value for its theme and the label 'Light' exactly when dark. */
  lemma ToggleMatches(s: ThemeState)
    ensures var r := AfterToggle(s);
      && Matches(r)
      && r.storage == Str(if r.dark then "dark" else "light")
      && (r.caption == "Light" <==> r.dark)
      && (r.icon == SunIcon <==> r.dark)
  {
  }

  /** Every start-up state matches its toggle. */
  lemma InitialMatches(saved: Stored, prefersDark: bool)
    ensures Matches(Initial(saved, prefersDark))
  {
  }

  /**
   * What a toggle stores is what the next page load starts with, whatever
   * the system preference then.
   */
  lemma ReloadKeepsTheme(s: ThemeState, prefersDark: bool)
    ensures InitialDark(AfterToggle(s).storage, prefersDark) == AfterToggle(s).dark
  {
  }

  /** Two clicks restore the theme and the toggle of a matching state. */
  lemma ToggleTwice(s: ThemeState)
    requires Matches(s)
    ensures var r := AfterToggle(AfterToggle(s));
      r.dark == s.dark && r.icon == s.icon && r.caption == s.caption
      && r.storage == StoredFor(s.dark)
  {
  }

  /** The theme toggle and local storage as the page holds them. */
  class ThemeToggle {
    var dark: bool
    var storage: Stored
    var icon: string
    var caption: string

    function Model(): ThemeState
      reads this
    {
      ThemeState(dark, storage, icon, caption)
    }

    /** `initTheme`, with the stored item and the colour-scheme preference. */
    constructor (saved: Stored, prefersDark: bool)
      ensures Model() == Initial(saved, prefersDark)
    {
      storage := saved;
      dark := false;
      icon := MoonIcon;
      caption := "Dark";
      if saved == Str("dark") || (!Truthy(saved) && prefersDark) {
        dark := true;
        icon := SunIcon;
        caption := "Light";
      }
    }

    method OnToggleClick()
      modifies this
      ensures Model() == AfterToggle(old(Model()))
    {
      dark := !dark;
      if dark {
        storage := Str("dark");
        icon := SunIcon;
        caption := "Light";
      } else {
        storage := Str("light");
        icon := MoonIcon;
        caption := "Dark";
      }
    }
  }
}
