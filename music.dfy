/**
 * The background-music player (`initMusic`): the `isPlaying` and
 * `audioContextUnlocked` flags, the audio element's source, and the toggle
 * button (icon, text, `playing` class, title, `disabled`).
 *
 * Every promise the source waits on (`music.play()`) becomes a boolean input
 * saying whether it resolved; whether the YouTube fallback finds its iframe is
 * one too. The timers (500 ms after unlocking, 1 s before the YouTube
 * fallback, 2 s before the source swap) are collapsed into the handler that
 * starts them; the 5 s retry after load is its own event.
 */
module Music {

  /** What `updateMusicButton` writes into the toggle. */
  datatype ButtonView = ButtonView(icon: string, text: string, playingClass: bool, title: string)

  /** The player's observable state. */
  datatype MusicState = MusicState(
    isPlaying: bool,
    audioContextUnlocked: bool,
    /** the first-interaction listeners are still attached to the document */
    listening: bool,
    src: string,
    button: ButtonView,
    /** the toggle still holds its icon and its label span */
    labelled: bool,
    disabled: bool,
    /** the YouTube fallback has installed its `onclick` on the toggle */
    embedHandler: bool,
    /** how often the first-interaction handler ran the unlock */
    unlockRuns: nat)

  /** The events the page reacts to; booleans are promise outcomes. */
  datatype Event =
    | ToggleClick(playOk: bool, embedReady: bool)
    | Interaction(playOk: bool, embedReady: bool)
    | Ended(playOk: bool)
    | Error
    | StartupRetry(playOk: bool, embedReady: bool)

  /**
   * The source the error handler switches to. It is split into shorter
   * literals only so that the verifier can see, letter by letter, that it
   * contains no 'k' and hence no "mixkit"; `SourceSwappedOnce` rests on that.
   */
  const AlternativeSource: string :=
    "https://www." + "soundhelix.com/" + "examples/mp3/" + "SoundHelix-Song-1.mp3"

  /** `updateMusicButton`'s mapping from the playing flag to the button. */
  function ButtonFor(playing: bool): (b: ButtonView)
    ensures b.text == "Music On" <==> playing
    ensures b.text == "Play Music" <==> !playing
    ensures b.playingClass == playing
  {
    if playing then ButtonView("fas fa-volume-up", "Music On", true, "Click to pause music")
    else ButtonView("fas fa-volume-mute", "Play Music", false, "Click to play birthday music")
  }

  /** `t` occurs in `s` at index `i`. */
  predicate OccursAt(s: string, t: string, i: int)
  {
    0 <= i <= |s| - |t| && s[i..i + |t|] == t
  }

  /** Whether `t` occurs in `s` (JavaScript's `s.includes(t)`). */
  function Contains(s: string, t: string): (b: bool)
    ensures b <==> exists i :: OccursAt(s, t, i)
    decreases |s|
  {
    if |s| < |t| then false
    else if s[..|t|] == t then (assert OccursAt(s, t, 0); true)
    else
      var rest := Contains(s[1..], t);
      assert (exists i :: OccursAt(s, t, i)) ==> rest by {
        if i :| OccursAt(s, t, i) {
          assert i != 0;
          assert s[1..][i - 1..i - 1 + |t|] == s[i..i + |t|];
          assert OccursAt(s[1..], t, i - 1);
        }
      }
      assert rest ==> exists i :: OccursAt(s, t, i) by {
        if j :| OccursAt(s[1..], t, j) {
          assert s[j + 1..j + 1 + |t|] == s[1..][j..j + |t|];
          assert OccursAt(s, t, j + 1);
        }
      }
      rest
  }

  /**
   * A string that contains "mixkit" contains the letter 'k': the step from
   * "the alternative source has no 'k'" to "it does not contain mixkit".
   */
  lemma MixkitHasK(s: string)
    ensures Contains(s, "mixkit") ==> 'k' in s
  {
    if Contains(s, "mixkit") {
      var i :| OccursAt(s, "mixkit", i);
      assert s[i + 3] == s[i..i + 6][3];
    }
  }

  /** The page as loaded, playing from `src`. */
  function Initial(src: string): (r: MusicState)
    ensures !r.isPlaying && !r.audioContextUnlocked && r.listening && r.unlockRuns == 0
    ensures r.src == src && r.labelled && !r.disabled && !r.embedHandler
    ensures r.button.text == "Play Music" && !r.button.playingClass
  {
    MusicState(false, false, true, src, ButtonFor(false), true, false, false, 0)
  }

  /** `updateMusicButton`; it does nothing once the label span is gone. */
  function Update(s: MusicState): (r: MusicState)
    ensures r.labelled ==> r.button == ButtonFor(r.isPlaying)
    ensures !s.labelled ==> r == s
    ensures r.(button := s.button) == s
  {
    if s.labelled then s.(button := ButtonFor(s.isPlaying)) else s
  }

  /**
   * How `playMusicWithFallback`'s `play()` promise settles: playing on
   * success; on failure the YouTube fallback installs its `onclick` when
   * the iframe is there, and nothing changes otherwise.
   */
  function Settle(s: MusicState, playOk: bool, embedReady: bool): (r: MusicState)
    ensures r.isPlaying <==> s.isPlaying || playOk
    ensures playOk && r.labelled ==> r.button == ButtonFor(true)
    ensures !playOk ==> r == s.(embedHandler := s.embedHandler || embedReady)
    ensures r.(isPlaying := s.isPlaying, button := s.button, embedHandler := s.embedHandler) == s
  {
    if playOk then Update(s.(isPlaying := true))
    else if embedReady then s.(embedHandler := true)
    else s
  }

  /** `playMusicWithFallback`. */
  function PlayWithFallback(s: MusicState, playOk: bool, embedReady: bool): (r: MusicState)
    ensures s.isPlaying ==> r == s
    ensures r.isPlaying <==> s.isPlaying || playOk
    ensures r.embedHandler <==> s.embedHandler || (!s.isPlaying && !playOk && embedReady)
    ensures r.(isPlaying := s.isPlaying, button := s.button, embedHandler := s.embedHandler) == s
  {
    if s.isPlaying then s else Settle(s, playOk, embedReady)
  }

  /**
   * What the YouTube `onclick` does to the toggle: it disables it and
   * replaces its content, label span included.
   */
  function ReplaceContent(s: MusicState): (r: MusicState)
    ensures r.disabled && !r.labelled
    ensures r.button.text == "Enjoy the Music!" && r.button.icon == "fas fa-volume-up"
    ensures r.button.playingClass == s.button.playingClass && r.button.title == s.button.title
    ensures r.(disabled := s.disabled, labelled := s.labelled, button := s.button) == s
  {
    s.(disabled := true, labelled := false,
       button := s.button.(icon := "fas fa-volume-up", text := "Enjoy the Music!"))
  }

  /**
   * A click on the toggle. A disabled button gets no click. Otherwise the
   * listener pauses, or starts playing, and updates the button; then the
   * `onclick` property handler runs if it was installed before this click;
   * then the play promise settles.
   */
  function OnToggleClick(s: MusicState, playOk: bool, embedReady: bool): (r: MusicState)
    ensures s.disabled ==> r == s
    ensures !s.disabled && s.isPlaying ==> !r.isPlaying
    ensures !s.disabled && !s.isPlaying ==> (r.isPlaying <==> playOk)
    ensures !s.disabled && r.labelled ==> r.button == ButtonFor(r.isPlaying)
    ensures !s.disabled && s.embedHandler ==>
      r.disabled && !r.labelled && r.button.text == "Enjoy the Music!"
    ensures !s.embedHandler ==> r.disabled == s.disabled && r.labelled == s.labelled
    ensures r.src == s.src && r.audioContextUnlocked == s.audioContextUnlocked
    ensures r.listening == s.listening && r.unlockRuns == s.unlockRuns
  {
    if s.disabled then s
    else
      var a := if s.isPlaying then Update(s.(isPlaying := false)) else Update(s);
      var b := if s.embedHandler then ReplaceContent(a) else a;
      if s.isPlaying then b else PlayWithFallback(b, playOk, embedReady)
  }

  /** `handleUserInteraction`, with the autoplay attempt 500 ms later. */
  function HandleUserInteraction(s: MusicState, playOk: bool, embedReady: bool): (r: MusicState)
    ensures s.audioContextUnlocked ==> r == s
    ensures r.audioContextUnlocked && (!s.audioContextUnlocked ==> !r.listening)
    ensures r.isPlaying <==> s.isPlaying || (!s.audioContextUnlocked && playOk)
    ensures r.unlockRuns == s.unlockRuns + (if s.audioContextUnlocked then 0 else 1)
    ensures r.src == s.src && r.disabled == s.disabled && r.labelled == s.labelled
  {
    if s.audioContextUnlocked then s
    else
      var t := s.(audioContextUnlocked := true, listening := false, unlockRuns := s.unlockRuns + 1);
      if !t.isPlaying then PlayWithFallback(t, playOk, embedReady) else t
  }

  /** The `ended` listener: rewind and play again; on failure stop. */
  function OnEnded(s: MusicState, playOk: bool): (r: MusicState)
    ensures playOk ==> r == s
    ensures !playOk ==> !r.isPlaying
    ensures r.(isPlaying := s.isPlaying, button := s.button) == s
  {
    if playOk then s else Update(s.(isPlaying := false))
  }

  /** The `error` listener, with its source swap 2 s later. */
  function OnError(s: MusicState): (r: MusicState)
    ensures !r.isPlaying
    ensures r.src == if Contains(s.src, "mixkit") then AlternativeSource else s.src
    ensures r.(isPlaying := s.isPlaying, button := s.button, src := s.src) == s
  {
    var t := Update(s.(isPlaying := false));
    if Contains(t.src, "mixkit") then t.(src := AlternativeSource) else t
  }

  /** The one-off retry 5 s after load. */
  function OnStartupRetry(s: MusicState, playOk: bool, embedReady: bool): (r: MusicState)
    ensures !s.audioContextUnlocked ==> r == s
    ensures r.isPlaying <==> s.isPlaying || (s.audioContextUnlocked && playOk)
    ensures r.(isPlaying := s.isPlaying, button := s.button, embedHandler := s.embedHandler) == s
  {
    if s.audioContextUnlocked && !s.isPlaying then PlayWithFallback(s, playOk, embedReady) else s
  }

  /** One event; interactions reach the handler only while it is attached. */
  function Apply(s: MusicState, e: Event): MusicState
  {
    match e
    case ToggleClick(ok, embed) => OnToggleClick(s, ok, embed)
    case Interaction(ok, embed) => if s.listening then HandleUserInteraction(s, ok, embed) else s
    case Ended(ok) => OnEnded(s, ok)
    case Error => OnError(s)
    case StartupRetry(ok, embed) => OnStartupRetry(s, ok, embed)
  }

  function Run(s: MusicState, es: seq<Event>): MusicState
    decreases |es|
  {
    if es == [] then s else Run(Apply(s, es[0]), es[1..])
  }

  /**
   * What every handler keeps true: a labelled button shows the playing
   * state; the listeners are attached exactly while the context is locked,
   * and the unlock has run once after that; a disabled button has lost its
   * label and got there through the YouTube `onclick`.
   */
  predicate Valid(s: MusicState)
  {
    && (s.labelled ==> s.button == ButtonFor(s.isPlaying))
    && (s.listening <==> !s.audioContextUnlocked)
    && s.unlockRuns == (if s.audioContextUnlocked then 1 else 0)
    && (s.disabled <==> !s.labelled)
    && (s.disabled ==> s.embedHandler)
  }

  lemma InitialValid(src: string)
    ensures Valid(Initial(src))
  {
  }

  lemma ApplyValid(s: MusicState, e: Event)
    requires Valid(s)
    ensures Valid(Apply(s, e))
  {
  }

  /** Every run of events from a valid state stays valid. */
  lemma {:induction false} RunValid(s: MusicState, es: seq<Event>)
    requires Valid(s)
    ensures Valid(Run(s, es))
    decreases |es|
  {
    if es != [] {
      ApplyValid(s, es[0]);
      RunValid(Apply(s, es[0]), es[1..]);
    }
  }

  /**
   * Whatever happens after load, the label reads "Music On" exactly when the
   * music plays, for as long as the button keeps its label, and the unlock
   * has run at most once.
   */
  lemma LabelFollowsPlaying(src: string, es: seq<Event>)
    ensures var s := Run(Initial(src), es);
      && (s.labelled ==> (s.button.text == "Music On" <==> s.isPlaying))
      && s.unlockRuns <= 1
  {
    RunValid(Initial(src), es);
  }

  /** A second interaction does not run the unlock again. */
  lemma {:induction false} UnlockRunsOnce(s: MusicState, es: seq<Event>)
    requires Valid(s) && s.audioContextUnlocked
    ensures Run(s, es).audioContextUnlocked && !Run(s, es).listening
    ensures Run(s, es).unlockRuns == s.unlockRuns
    decreases |es|
  {
    if es != [] {
      ApplyValid(s, es[0]);
      UnlockRunsOnce(Apply(s, es[0]), es[1..]);
    }
  }

  /** Once disabled, the toggle stays disabled and keeps its content. */
  lemma {:induction false} DisabledIsPermanent(s: MusicState, es: seq<Event>)
    requires Valid(s) && s.disabled
    ensures Run(s, es).disabled && Run(s, es).button == s.button
    decreases |es|
  {
    if es != [] {
      ApplyValid(s, es[0]);
      DisabledIsPermanent(Apply(s, es[0]), es[1..]);
    }
  }

  /**
   * When `play()` is rejected and the YouTube iframe is missing, nothing
   * changes: the toggle is not disabled.
   */
  lemma RejectedWithoutEmbedChangesNothing(s: MusicState)
    requires !s.isPlaying
    ensures PlayWithFallback(s, false, false) == s
  {
  }

  /**
   * When `play()` is rejected and the iframe is there, the toggle is not
   * disabled at once; the next click disables it for good.
   */
  lemma RejectedWithEmbedDisablesOnNextClick(s: MusicState, ok: bool, embed: bool)
    requires Valid(s) && !s.isPlaying && !s.disabled
    ensures var t := PlayWithFallback(s, false, true);
      && t.embedHandler && !t.disabled
      && OnToggleClick(t, ok, embed).disabled
      && OnToggleClick(t, ok, embed).button.text == "Enjoy the Music!"
  {
  }

  /** The source is swapped at most once, however many errors follow. */
  lemma {:induction false} SourceSwappedOnce(s: MusicState)
    ensures OnError(OnError(s)).src == OnError(s).src
  {
    MixkitHasK(AlternativeSource);
  }

  /** The player's closure state, as fields. */
  class MusicPlayer {
    var isPlaying: bool
    var audioContextUnlocked: bool
    var listening: bool
    var src: string
    var icon: string
    var text: string
    var playingClass: bool
    var title: string
    var labelled: bool
    var disabled: bool
    var embedHandler: bool
    var unlockRuns: nat

    function Model(): MusicState
      reads this
    {
      MusicState(isPlaying, audioContextUnlocked, listening, src,
                 ButtonView(icon, text, playingClass, title),
                 labelled, disabled, embedHandler, unlockRuns)
    }

    /** `initMusic`: flags cleared, listeners attached, button updated. */
    constructor (initialSrc: string)
      ensures Model() == Initial(initialSrc) && Valid(Model())
    {
      isPlaying := false;
      audioContextUnlocked := false;
      listening := true;
      src := initialSrc;
      labelled := true;
      disabled := false;
      embedHandler := false;
      unlockRuns := 0;
      icon, text, playingClass, title := "fas fa-volume-mute", "Play Music", false, "Click to play birthday music";
    }

    method UpdateMusicButton()
      modifies this
      ensures Model() == Update(old(Model()))
    {
      if labelled {
        if isPlaying {
          icon := "fas fa-volume-up";
          text := "Music On";
          playingClass := true;
          title := "Click to pause music";
        } else {
          icon := "fas fa-volume-mute";
          text := "Play Music";
          playingClass := false;
          title := "Click to play birthday music";
        }
      }
    }

    method PlayMusicWithFallback(playOk: bool, embedReady: bool)
      modifies this
      ensures Model() == PlayWithFallback(old(Model()), playOk, embedReady)
    {
      if isPlaying {
        return;
      }
      if playOk {
        isPlaying := true;
        UpdateMusicButton();
      } else if embedReady {
        embedHandler := true;
      }
    }

    method ToggleClicked(playOk: bool, embedReady: bool)
      modifies this
      ensures Model() == OnToggleClick(old(Model()), playOk, embedReady)
    {
      if disabled {
        return;
      }
      var wasPlaying, hadOnclick := isPlaying, embedHandler;
      if isPlaying {
        isPlaying := false;
      }
      UpdateMusicButton();
      if hadOnclick {
        disabled := true;
        labelled := false;
        icon := "fas fa-volume-up";
        text := "Enjoy the Music!";
      }
      if !wasPlaying {
        PlayMusicWithFallback(playOk, embedReady);
      }
    }

    method UserInteraction(playOk: bool, embedReady: bool)
      modifies this
      ensures Model() == HandleUserInteraction(old(Model()), playOk, embedReady)
    {
      if !audioContextUnlocked {
        unlockRuns := unlockRuns + 1;
        audioContextUnlocked := true;
        listening := false;
        if !isPlaying {
          PlayMusicWithFallback(playOk, embedReady);
        }
      }
    }

    method MusicEnded(playOk: bool)
      modifies this
      ensures Model() == OnEnded(old(Model()), playOk)
    {
      if !playOk {
        isPlaying := false;
        UpdateMusicButton();
      }
    }

    method MusicError()
      modifies this
      ensures Model() == OnError(old(Model()))
    {
      isPlaying := false;
      UpdateMusicButton();
      if Contains(src, "mixkit") {
        src := AlternativeSource;
      }
    }

    method StartupRetry(playOk: bool, embedReady: bool)
      modifies this
      ensures Model() == OnStartupRetry(old(Model()), playOk, embedReady)
    {
      if audioContextUnlocked && !isPlaying {
        PlayMusicWithFallback(playOk, embedReady);
      }
    }
  }
}
