/**
 * The `src` accessibility store: theme, contrast, typography, motion,
 * reading-ruler and speech settings. Each action is a function from one
 * settings record to the next, and the store's methods apply them to its
 * fields. The dark-mode class the store also sets on the page is not part
 * of this model.
 */
module SrcAccessibilityStore {
  import opened Wrappers

  datatype Theme = Light | Dark | System
  datatype TextSpacing = Tight | Normal | Wide | ExtraWide

  /** A speech voice the browser offers. */
  datatype Voice = Voice(name: string, isDefault: bool)

  datatype Settings = Settings(theme: Theme, highContrast: bool, dyslexicFont: bool, fontSize: int,
                               textSpacing: TextSpacing, reducedMotion: bool, readingRuler: bool,
                               readingRulerPosition: int, ttsEnabled: bool, ttsSpeed: real, ttsPitch: real,
                               ttsVoice: Option<string>)

  /** The store's first state. */
  const Initial := Settings(System, false, false, 16, Normal, false, false, 0, true, 1.0, 1.0, None)

  /** `toggleTheme`: 'light' becomes 'dark', and 'dark' or 'system' becomes 'light'. */
  function ToggleTheme(s: Settings): (r: Settings)
    ensures r.theme == Dark <==> s.theme == Light
    ensures r.theme == Light <==> s.theme != Light
    ensures r == s.(theme := r.theme)
  {
    s.(theme := if s.theme == Light then Dark else Light)
  }

  /** Toggling the theme twice from 'light' or 'dark' is no change; from 'system' it ends at 'dark'. */
  lemma ToggleThemeTwice(s: Settings)
    ensures s.theme != System ==> ToggleTheme(ToggleTheme(s)) == s
    ensures s.theme == System ==> ToggleTheme(ToggleTheme(s)).theme == Dark
  {
  }

  function ToggleHighContrast(s: Settings): (r: Settings)
    ensures r.highContrast != s.highContrast && r == s.(highContrast := r.highContrast)
  {
    s.(highContrast := !s.highContrast)
  }

  function ToggleDyslexicFont(s: Settings): (r: Settings)
    ensures r.dyslexicFont != s.dyslexicFont && r == s.(dyslexicFont := r.dyslexicFont)
  {
    s.(dyslexicFont := !s.dyslexicFont)
  }

  function ToggleReducedMotion(s: Settings): (r: Settings)
    ensures r.reducedMotion != s.reducedMotion && r == s.(reducedMotion := r.reducedMotion)
  {
    s.(reducedMotion := !s.reducedMotion)
  }

  function ToggleReadingRuler(s: Settings): (r: Settings)
    ensures r.readingRuler != s.readingRuler && r == s.(readingRuler := r.readingRuler)
  {
    s.(readingRuler := !s.readingRuler)
  }

  /** Every toggle undoes itself. */
  lemma TogglesTwice(s: Settings)
    ensures ToggleHighContrast(ToggleHighContrast(s)) == s
    ensures ToggleDyslexicFont(ToggleDyslexicFont(s)) == s
    ensures ToggleReducedMotion(ToggleReducedMotion(s)) == s
    ensures ToggleReadingRuler(ToggleReadingRuler(s)) == s
  {
  }

  /** `setTTSSettings`: each of speed, pitch and voice is replaced only when supplied (`??`). */
  function SetTTSSettings(s: Settings, speed: Option<real>, pitch: Option<real>, voice: Option<string>): (r: Settings)
    ensures r.ttsSpeed == (if speed.Some? then speed.value else s.ttsSpeed)
    ensures r.ttsPitch == (if pitch.Some? then pitch.value else s.ttsPitch)
    ensures r.ttsVoice == (if voice.Some? then voice else s.ttsVoice)
    ensures r == s.(ttsSpeed := r.ttsSpeed, ttsPitch := r.ttsPitch, ttsVoice := r.ttsVoice)
  {
    s.(ttsSpeed := speed.GetOr(s.ttsSpeed), ttsPitch := pitch.GetOr(s.ttsPitch),
       ttsVoice := if voice.Some? then voice else s.ttsVoice)
  }

  /** Supplying nothing to `setTTSSettings` changes nothing. */
  lemma SetTTSNothing(s: Settings)
    ensures SetTTSSettings(s, None, None, None) == s
  {
  }

  /** Whether a voice setting counts as unset (`!state.ttsVoice`: null or empty). */
  predicate VoiceUnset(v: Option<string>) {
    v.None? || v.value == ""
  }

  /** `voices.find(voice => voice.default) || voices[0]`. */
  function DefaultVoice(voices: seq<Voice>): (v: Voice)
    requires |voices| > 0
    ensures v in voices
    ensures (exists i :: 0 <= i < |voices| && voices[i].isDefault) ==> v.isDefault
    ensures (forall i :: 0 <= i < |voices| ==> !voices[i].isDefault) ==> v == voices[0]
    ensures v.isDefault ==>
              exists i :: 0 <= i < |voices| && voices[i] == v && forall j :: 0 <= j < i ==> !voices[j].isDefault
  {
    if voices[0].isDefault || |voices| == 1 then voices[0]
    else
      var rest := DefaultVoice(voices[1..]);
      if rest.isDefault then
        var i :| 0 <= i < |voices[1..]| && voices[1..][i] == rest
                 && forall j :: 0 <= j < i ==> !voices[1..][j].isDefault;
        assert voices[i + 1] == rest && forall j :: 0 <= j < i + 1 ==> !voices[j].isDefault;
        rest
      else voices[0]
  }

  /**
   * `initialize`, given what the system reports: reduced motion is switched
   * on only when the system prefers it and it is off; a voice is chosen only
   * when speech is available, some voice exists and none is set.
   */
  function Initialize(s: Settings, prefersReducedMotion: bool, speechAvailable: bool, voices: seq<Voice>): (r: Settings)
    ensures r.reducedMotion == (s.reducedMotion || prefersReducedMotion)
    ensures r.ttsVoice != s.ttsVoice ==> speechAvailable && |voices| > 0 && VoiceUnset(s.ttsVoice)
    ensures speechAvailable && |voices| > 0 && VoiceUnset(s.ttsVoice) ==> r.ttsVoice == Some(DefaultVoice(voices).name)
    ensures r == s.(reducedMotion := r.reducedMotion, ttsVoice := r.ttsVoice)
  {
    var s1 := if !s.reducedMotion && prefersReducedMotion then s.(reducedMotion := true) else s;
    if speechAvailable && |voices| > 0 && VoiceUnset(s.ttsVoice) then s1.(ttsVoice := Some(DefaultVoice(voices).name))
    else s1
  }

  /** `useAccessibilityStore`; the constructor takes what was persisted. */
  class AccessibilityStore {
    var settings: Settings

    constructor(persisted: Option<Settings>)
      ensures settings == persisted.GetOr(Initial)
    {
      settings := persisted.GetOr(Initial);
    }

    method InitializeFromSystem(prefersReducedMotion: bool, speechAvailable: bool, voices: seq<Voice>)
      modifies this
      ensures settings == Initialize(old(settings), prefersReducedMotion, speechAvailable, voices)
    {
      settings := Initialize(settings, prefersReducedMotion, speechAvailable, voices);
    }

    method SetTheme(theme: Theme)
      modifies this
      ensures settings == old(settings).(theme := theme)
    {
      settings := settings.(theme := theme);
    }

    method ToggleThemeAction()
      modifies this
      ensures settings == ToggleTheme(old(settings))
    {
      SetTheme(if settings.theme == Light then Dark else Light);
    }

    method ToggleHighContrastAction()
      modifies this
      ensures settings == ToggleHighContrast(old(settings))
    {
      settings := settings.(highContrast := !settings.highContrast);
    }

    method ToggleDyslexicFontAction()
      modifies this
      ensures settings == ToggleDyslexicFont(old(settings))
    {
      settings := settings.(dyslexicFont := !settings.dyslexicFont);
    }

    /** `setFontSize`: only the font size changes. */
    method SetFontSize(size: int)
      modifies this
      ensures settings == old(settings).(fontSize := size)
    {
      settings := settings.(fontSize := size);
    }

    /** `setTextSpacing`: only the spacing changes. */
    method SetTextSpacing(spacing: TextSpacing)
      modifies this
      ensures settings == old(settings).(textSpacing := spacing)
    {
      settings := settings.(textSpacing := spacing);
    }

    method ToggleReducedMotionAction()
      modifies this
      ensures settings == ToggleReducedMotion(old(settings))
    {
      settings := settings.(reducedMotion := !settings.reducedMotion);
    }

    method ToggleReadingRulerAction()
      modifies this
      ensures settings == ToggleReadingRuler(old(settings))
    {
      settings := settings.(readingRuler := !settings.readingRuler);
    }

    /** `setReadingRulerPosition`: only the ruler position changes. */
    method SetReadingRulerPosition(position: int)
      modifies this
      ensures settings == old(settings).(readingRulerPosition := position)
    {
      settings := settings.(readingRulerPosition := position);
    }

    method SetTTSSettingsAction(speed: Option<real>, pitch: Option<real>, voice: Option<string>)
      modifies this
      ensures settings == SetTTSSettings(old(settings), speed, pitch, voice)
    {
      settings := settings.(ttsSpeed := speed.GetOr(settings.ttsSpeed), ttsPitch := pitch.GetOr(settings.ttsPitch),
                            ttsVoice := if voice.Some? then voice else settings.ttsVoice);
    }
  }
}
