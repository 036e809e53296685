# Birthday greeting page: the interactive widgets, modelled in Dafny

The page's script (`script.js`) is mostly DOM wiring, timers and browser
APIs. What can be stated about it lives in a few event handlers that keep
flags in their closures, and in a few pure rules. This project models those:

- **Counter animation** (`Counter`, counter.dfy): one animation-frame step of
  `animateCounter`. Progress is `min(elapsed / duration, 1)` and the shown
  integer is `floor(progress * (end - start) + start)`. The "smilesShared"
  counter shows '∞' in place of its end value. A further frame is requested
  while progress < 1. `Animate` runs the step over a sequence of frame
  timestamps.
- **Cake** (`Cake`, cake.dfy): the light, blow and reset handlers over
  `candlesLit`, the two buttons' `disabled` flags, the per-candle `lit`
  flags (an array) and the wish message.
- **Gift** (`Gift`, gift.dfy): `openGift`, latched by `giftOpened`.
- **Music player** (`Music`, music.dfy): `isPlaying`, `audioContextUnlocked`,
  the audio source and the toggle button. The handlers are the toggle click,
  `playMusicWithFallback`, the first-interaction unlock, `ended`, `error` and
  the 5 s retry.
- **Gallery filter** (`Gallery`, gallery.dfy): the filter buttons' click
  handler over arrays of filter values, `active` flags, item categories and
  item display flags.
- **Navigation bar** (`Navigation`, navigation.dfy): the scroll handler over
  `lastScroll`.
- **Theme** (`Theme`, theme.dfy): the start-up decision from the stored value
  and the colour-scheme preference, and the toggle, with local storage as a
  field.

Cake, Gift, Music, Navigation and Theme share one shape. A datatype holds
the widget's state. Pure functions give each handler's effect on it, and
lemmas state what the handlers promise, alone and over sequences of events.
A class holds the closure variables and DOM flags as fields. Its handler
methods are proved to change them exactly as the pure function says
(`Model() == F(old(Model()))`).

The other two differ. `Counter` has no state to keep between calls: one
frame is the function `Step`, and the method `Animate` runs it over a
sequence of frame timestamps. `Gallery` keeps its filter buttons and items
in arrays. Its click handler loops over them, and its `ensures` state the
new array contents through the function `Displayed`.

Inputs the page takes from the browser are parameters: whether a `play()`
promise resolves, whether the YouTube iframe is there, the page offset, the
stored theme and the colour-scheme preference, and the frame timestamps.
Timers are collapsed. Each handler is modelled by the state it leaves once
the timers it starts have fired. The exception is the 5 s retry after load,
which is an event of its own.

Three behaviours of `script.js` are easy to misread:

- When native playback is rejected and the YouTube iframe is missing,
  nothing changes (`Music.RejectedWithoutEmbedChangesNothing`). The toggle is
  never disabled on that path.
- When the iframe is there, the fallback only installs an `onclick`. The
  toggle is not disabled then; the next click disables it
  (`Music.RejectedWithEmbedDisablesOnNextClick`).
- The stored theme is tested for JavaScript truthiness. An empty stored
  string therefore counts as "nothing saved" (`Theme.InitialDark`).

## Model

| member | source | states |
|---|---|---|
| `Counter.Progress` | script.js:359 | progress is at most 1, non-negative for non-negative elapsed time, equals 1 exactly when `duration` has elapsed, and before that is elapsed/duration |
| `Counter.Value` | script.js:360 | the shown integer is `start` at progress 0 and `end` at progress 1, and stays within [start, end] for start ≤ end |
| `Counter.InterpolationBounds` | script.js:360 | for progress in [0, 1] the interpolated real lies between start and end |
| `Counter.FinalText` | script.js:362-366 | the final text is '∞' exactly for "smilesShared" and the end number otherwise |
| `Counter.Step` | script.js:357-371 | a frame requests a successor iff elapsed < duration; it shows '∞' iff the id is "smilesShared" and the value equals `end`, and otherwise the interpolated value |
| `Counter.StepAtEnd` | script.js:359-370 | once `duration` has elapsed the frame shows the final text and requests no further frame |
| `Counter.SmilesNeverShowsEnd` | script.js:362-363 | the "smilesShared" counter never displays its end value as a number |
| `Counter.ValueMonotone` | script.js:360 | a larger progress never gives a smaller value |
| `Counter.ProgressMonotone` | script.js:359 | more elapsed time never gives less progress |
| `Counter.StepMonotone` | script.js:357-366 | for start ≤ end the shown value is non-decreasing in elapsed time and stays within [start, end] |
| `Counter.Animate` | script.js:351-374 | runs the frames at the given timestamps from the first one; every text is the step's text for its elapsed time; every frame but the last was within `duration`; when the run ends before the timestamps do, its last frame is at or past `duration` (so it requested no successor) and shows the final text; for non-decreasing timestamps the shown values never go down |
| `Counter.DaysTogetherHalfway` | script.js:347 | "daysTogether" (0 to 365 in 2000 ms) shows 182 after 1000 ms and asks for more frames |
| `Counter.SmilesSharedEndsOnInfinity` | script.js:348 | "smilesShared" (0 to 999 in 2500 ms) ends on '∞' and stops |
| `Cake.AfterLight` | script.js:655-683 | the light handler does nothing when candles are lit; otherwise it sets `candlesLit`, disables light, enables blow and lights every candle, leaving the wish alone |
| `Cake.AfterBlow` | script.js:685-721 | the blow handler does nothing unless candles are lit; otherwise it clears `candlesLit`, disables blow, puts every candle out and shows the wish, leaving the light button's flag as it was |
| `Cake.AfterReset` | script.js:723-734 | after reset, no candle is lit, the wish is hidden, `candlesLit` is false and both buttons are enabled, whatever the state before |
| `Cake.Press` | script.js:655-734 | a click on a disabled button changes nothing, since the browser does not dispatch it; a click on an enabled one runs its handler; the number of candles is kept |
| `Cake.PressConsistent` | script.js:655-734 | each click keeps the invariant: lit candles go with a disabled light button and an enabled blow button, and a clear flag means no candle is lit |
| `Cake.PressAllConsistent` | script.js:655-734 | any sequence of clicks keeps that invariant and the number of candles |
| `Cake.LightIdempotent` | script.js:656 | lighting twice is the same as lighting once |
| `Cake.BlownCakeWaitsForReset` | script.js:678-679 | after light then blow, both buttons are disabled, so no sequence of light and blow clicks changes anything until reset |
| `Cake.ResetLightBlow` | script.js:655-734 | reset, light, blow ends with every candle out, the wish shown and both buttons disabled |
| `Cake.CakeWidget.constructor` | script.js:653 | the cake starts with no candle lit, the flag clear, the wish hidden and light enabled |
| `Cake.CakeWidget.SetAllCandles` | script.js:724-726 | the `forEach` over the candles sets every candle's `lit` flag to the same value |
| `Cake.CakeWidget.OnLightClick` | script.js:655-683 | updates the fields exactly as `AfterLight` says |
| `Cake.CakeWidget.OnBlowClick` | script.js:685-721 | updates the fields exactly as `AfterBlow` says |
| `Cake.CakeWidget.OnResetClick` | script.js:723-734 | updates the fields exactly as `AfterReset` says |
| `Gift.AfterOpen` | script.js:749-782 | `openGift` always leaves `giftOpened` set; once opened it changes nothing; the first call hides box and button, reveals the surprise and celebrates once |
| `Gift.OpenedIsFinal` | script.js:750 | once the gift is opened, no click on box or button changes anything |
| `Gift.CelebratesAtMostOnce` | script.js:747-788 | after any non-empty run of box and button clicks the state is that of one `openGift`, so the celebration ran at most once |
| `Gift.GiftBox.constructor` | script.js:747 | the gift starts closed with nothing celebrated |
| `Gift.GiftBox.OpenGift` | script.js:749-783 | updates the fields exactly as `AfterOpen` says |
| `Music.ButtonFor` | script.js:808-825 | the label reads "Music On" iff playing and "Play Music" iff not; the `playing` class follows the flag |
| `Music.Contains` | script.js:933 | `includes` is true exactly when the pattern occurs at some index |
| `Music.Initial` | script.js:801-942 | the player as loaded is paused, locked and listening, with its source, an enabled "Play Music" button and no `onclick` installed |
| `Music.Update` | script.js:808-825 | `updateMusicButton` leaves a labelled button showing the playing state, changes only the button, and changes nothing once the label span is gone |
| `Music.Settle` | script.js:832-853 | the `play()` promise plays and shows "Music On" on success; on failure only the iframe check decides whether the `onclick` gets installed; nothing else changes |
| `Music.ReplaceContent` | script.js:864-867 | the YouTube `onclick` disables the toggle and replaces its content with "Enjoy the Music!", keeping class and title; nothing else changes |
| `Music.OnToggleClick` | script.js:864-888 | a disabled toggle gets no click; otherwise a click while playing pauses, a click while paused plays iff `play()` succeeds, a labelled button shows the playing state, and an `onclick` installed earlier disables and relabels the toggle; source and unlock state are untouched |
| `Music.PlayWithFallback` | script.js:828-854 | does nothing when already playing; afterwards the music plays iff it played before or `play()` succeeded; the `onclick` is installed iff it was, or `play()` failed with the iframe present; only the flag, the button and the `onclick` change |
| `Music.HandleUserInteraction` | script.js:891-908 | runs only while the context is locked, then unlocks it and drops its listeners; it starts playing iff the music was playing or the delayed `play()` succeeds; the unlock count grows by one exactly then; source and toggle flags are untouched |
| `Music.OnEnded` | script.js:916-923 | a successful replay changes nothing; a failed one stops playing; only the flag and the button change |
| `Music.OnError` | script.js:926-939 | the error handler stops playing and swaps to the alternative source iff the source contains "mixkit"; nothing but the flag, the button and the source changes |
| `Music.OnStartupRetry` | script.js:945-949 | the 5 s retry changes nothing before the unlock; after it the music plays iff it played or `play()` succeeds; only the flag, the button and the `onclick` change |
| `Music.InitialValid` | script.js:801-802 | the player as loaded satisfies the invariant |
| `Music.ApplyValid` | script.js:874-939 | every handler keeps the invariant: a labelled button shows the playing state; listeners are attached iff locked; the unlock ran once after unlocking; a disabled toggle has lost its label through the YouTube `onclick` |
| `Music.RunValid` | script.js:874-949 | any run of events keeps the invariant |
| `Music.LabelFollowsPlaying` | script.js:814-824 | after any run of events from load, a labelled button reads "Music On" iff the music plays, and the unlock ran at most once |
| `Music.UnlockRunsOnce` | script.js:891-907 | once unlocked, no later event runs the unlock again or reattaches its listeners |
| `Music.DisabledIsPermanent` | script.js:864-868 | once the toggle is disabled, it stays disabled with its content unchanged |
| `Music.RejectedWithoutEmbedChangesNothing` | script.js:843-871 | a rejected `play()` with no YouTube iframe changes nothing |
| `Music.RejectedWithEmbedDisablesOnNextClick` | script.js:857-871 | a rejected `play()` with the iframe present installs the `onclick` without disabling; the next click disables the toggle and relabels it "Enjoy the Music!" |
| `Music.SourceSwappedOnce` | script.js:932-938 | a second error does not change the source again |
| `Music.MusicPlayer.constructor` | script.js:801-942 | the player starts paused, locked, listening, with the "Play Music" button |
| `Music.MusicPlayer.UpdateMusicButton` | script.js:808-825 | updates the fields exactly as `Update` says |
| `Music.MusicPlayer.PlayMusicWithFallback` | script.js:828-854 | updates the fields exactly as `PlayWithFallback` says |
| `Music.MusicPlayer.ToggleClicked` | script.js:874-888 | updates the fields exactly as `OnToggleClick` says |
| `Music.MusicPlayer.UserInteraction` | script.js:891-908 | updates the fields exactly as `HandleUserInteraction` says |
| `Music.MusicPlayer.MusicEnded` | script.js:916-923 | updates the fields exactly as `OnEnded` says |
| `Music.MusicPlayer.MusicError` | script.js:926-939 | updates the fields exactly as `OnError` says |
| `Music.MusicPlayer.StartupRetry` | script.js:945-949 | updates the fields exactly as `OnStartupRetry` says |
| `Gallery.Displayed` | script.js:584-590 | item i is displayed iff the filter value is "all" or equals the item's category |
| `Gallery.AllShowsEverything` | script.js:585 | the "all" filter displays every item |
| `Gallery.CategoryFilterCount` | script.js:584-590 | any other filter displays exactly as many items as there are items of its category |
| `Gallery.GalleryFilters.constructor` | script.js:541-573 | the gallery starts with every item displayed |
| `Gallery.GalleryFilters.OnFilterClick` | script.js:576-591 | afterwards the clicked filter is the only active one and the display flags are `Displayed` of its value |
| `Navigation.AfterScroll` | script.js:243-262 | `lastScroll` becomes the offset; `scrolled` is set iff the offset exceeds 100; the bar is hidden iff the offset exceeds both 100 and the previous offset |
| `Navigation.OnlyLastTwoOffsetsMatter` | script.js:242-262 | after any run of scroll events the bar depends only on the last offset and the one before it |
| `Navigation.AfterScrollsValid` | script.js:246-259 | after any scroll the bar is hidden only in its scrolled form |
| `Navigation.ScrollingUpShows` | script.js:249-255 | a page that keeps scrolling up never hides the bar |
| `Navigation.NavBar.constructor` | script.js:242 | the bar starts at offset 0, shown |
| `Navigation.NavBar.OnScroll` | script.js:243-262 | updates the fields exactly as `AfterScroll` says |
| `Theme.StoredFor` | script.js:975-981 | the toggle always stores a non-empty string |
| `Theme.Initial` | script.js:963-970 | start-up leaves storage as it found it |
| `Theme.AfterToggle` | script.js:972-986 | each click flips the theme |
| `Theme.InitialDark` | script.js:966 | the page starts dark when "dark" is saved, light when any other non-empty value is saved, and as the preference says when nothing or "" is saved |
| `Theme.ToggleMatches` | script.js:972-986 | after a click the storage holds "dark" or "light" to match, the label is "Light" iff dark and the icon is the sun iff dark |
| `Theme.InitialMatches` | script.js:966-970 | the toggle matches the starting theme |
| `Theme.ReloadKeepsTheme` | script.js:964-981 | what a click stores is the theme the next page load starts with, whatever the preference |
| `Theme.ToggleTwice` | script.js:972-986 | two clicks restore the theme, icon and label, and store the original theme |
| `Theme.ThemeToggle.constructor` | script.js:963-970 | sets the fields as `Initial` says |
| `Theme.ThemeToggle.OnToggleClick` | script.js:972-986 | updates the fields exactly as `AfterToggle` says |

## Left out

- Particle canvas, snow, confetti and hearts: random positions, floating-point motion and platform animations. The model counts gift celebrations but does not draw them.
- `unlockAudio` internals and the YouTube iframe: opaque actions. Only their effect on the flags and the toggle is modelled.
- Loading screen, GSAP animations, share and clipboard, toasts, image error fallbacks, the day counter from the live clock, keyboard shortcuts and timeline styling: browser APIs, randomness, clocks or a third-party library.
- Wall-clock timing: each handler's timers are collapsed into the state they leave. Interleavings of those timers are therefore not modelled. One example: a blow click before every candle's staggered light timer has fired, which in the page can leave late candles lit.
- Counter: IEEE-754 rounding is not modelled, since progress is an exact real. The falsy-zero case of the first timestamp is left out: the first frame always fixes the start time. A missing element is also left out.
- Music: the playback position that `ended` rewinds, the volume, the music-suggestion notification and the toast messages are not modelled.
- Markup: the page's initial markup is not part of this model. The blow button's initial `disabled` flag and the audio source are constructor parameters. The theme toggle is taken to start in its light-theme form (moon, "Dark"). The null checks on missing elements (buttons, wish message, gift box, icon and label) are left out: every element is taken to be present.
- Music: a click on the toggle stops propagation, so it never reaches the first-interaction listener. Interactions are a separate event in the model.
