/**
 * The Hackathon header's buttons: theme cycle, language switch, speech toggle
 * and high-contrast toggle, each acting on the interface or preference store.
 */
module HackathonHeader {
  import opened Wrappers
  import opened HackathonTypes
  import opened HackathonStore

  const Themes: seq<Theme> := [Light, Dark, System]

  /** `themes.indexOf(theme)`; every theme is in the list. */
  function ThemeIndex(t: Theme): (i: nat)
    ensures i < |Themes| && Themes[i] == t
  {
    match t
    case Light => 0
    case Dark => 1
    case System => 2
  }

  /** The theme after `t` in the list, wrapping around. */
  function NextTheme(t: Theme): (r: Theme)
    ensures r != t
  {
    Themes[(ThemeIndex(t) + 1) % |Themes|]
  }

  /** Three presses of the theme button come back to the starting theme. */
  lemma ThemeCycle(t: Theme)
    ensures NextTheme(NextTheme(NextTheme(t))) == t
    ensures NextTheme(NextTheme(t)) != t
  {
  }

  /** 'en' becomes 'hi'; every other language becomes 'en'. */
  function NextLanguage(l: string): (r: string)
    ensures r == "hi" <==> l == "en"
    ensures r == "en" <==> l != "en"
  {
    if l == "en" then "hi" else "en"
  }

  /** Two presses from 'en' or 'hi' come back. */
  lemma LanguageToggleTwice(l: string)
    requires l == "en" || l == "hi"
    ensures NextLanguage(NextLanguage(l)) == l
  {
  }

  datatype Icon = Sun | Moon | Monitor

  function ThemeIcon(t: Theme): (r: Icon)
    ensures r == Monitor <==> t == System
  {
    match t
    case Light => Sun
    case Dark => Moon
    case System => Monitor
  }

  /** Different themes show different icons. */
  lemma ThemeIconInjective(a: Theme, b: Theme)
    ensures ThemeIcon(a) == ThemeIcon(b) ==> a == b
  {
  }

  method HandleThemeChange(ui: UIStore)
    modifies ui
    ensures ui.theme == NextTheme(old(ui.theme)) && ui.Others() == old(ui.Others())
  {
    ui.SetTheme(NextTheme(ui.theme));
  }

  /** The i18n library's language switch is outside this model. */
  method HandleLanguageChange(ui: UIStore)
    modifies ui
    ensures ui.language == NextLanguage(old(ui.language))
    ensures ui.theme == old(ui.theme) && ui.sidebarOpen == old(ui.sidebarOpen)
    ensures ui.readingRuler == old(ui.readingRuler)
    ensures ui.ttsActive == old(ui.ttsActive) && ui.sttActive == old(ui.sttActive)
  {
    ui.SetLanguage(NextLanguage(ui.language));
  }

  /** Flips speech on or off; `stopSpeech` says whether speech output is cancelled. */
  method HandleTTSToggle(ui: UIStore) returns (stopSpeech: bool)
    modifies ui
    ensures stopSpeech == old(ui.ttsActive) && ui.ttsActive == !old(ui.ttsActive)
    ensures ui.theme == old(ui.theme) && ui.language == old(ui.language)
    ensures ui.sidebarOpen == old(ui.sidebarOpen) && ui.readingRuler == old(ui.readingRuler)
    ensures ui.sttActive == old(ui.sttActive)
  {
    if ui.ttsActive {
      stopSpeech := true;
      ui.SetTTSActive(false);
    } else {
      stopSpeech := false;
      ui.SetTTSActive(true);
    }
  }

  /** The update the high-contrast button sends. */
  function ContrastPatch(p: Preferences): PreferencesPatch {
    NoChanges.(highContrast := Some(!p.highContrast))
  }

  /** The high-contrast button flips that one preference and nothing else. */
  lemma ContrastFlipsOne(p: Preferences)
    ensures MergePreferences(p, ContrastPatch(p)) == p.(highContrast := !p.highContrast)
  {
  }

  method HandleContrastToggle(store: AccessibilityStore)
    modifies store
    ensures store.preferences == old(store.preferences).(highContrast := !old(store.preferences).highContrast)
  {
    ContrastFlipsOne(store.preferences);
    store.UpdatePreferences(ContrastPatch(store.preferences));
  }
}
