/**
 * The three persisted Hackathon stores: who is signed in, the reader's
 * accessibility preferences and the interface switches. Each store is an
 * object whose setters replace some of its fields; persistence to the
 * browser is not part of this model.
 */
module HackathonStore {
  import opened Wrappers
  import opened HackathonTypes

  /** A `Partial<User>`: `None` for a field the update does not mention. */
  datatype UserPatch = UserPatch(
    id: Option<string>, email: Option<string>, name: Option<string>,
    role: Option<Role>, avatar: Option<Option<string>>,
    createdAt: Option<string>, updatedAt: Option<string>)

  /** `{ ...user, ...updates }`. */
  function MergeUser(u: User, p: UserPatch): User {
    User(p.id.GetOr(u.id), p.email.GetOr(u.email), p.name.GetOr(u.name),
         p.role.GetOr(u.role), p.avatar.GetOr(u.avatar),
         p.createdAt.GetOr(u.createdAt), p.updatedAt.GetOr(u.updatedAt))
  }

  /** A `Partial<AccessibilityPreferences>`. */
  datatype PreferencesPatch = PreferencesPatch(
    fontSize: Option<FontSize>, fontFamily: Option<FontFamily>,
    highContrast: Option<bool>, darkMode: Option<bool>,
    reducedMotion: Option<bool>, screenReader: Option<bool>,
    ttsEnabled: Option<bool>, ttsSpeed: Option<real>,
    ttsVoice: Option<Option<string>>, colorOverlay: Option<Option<string>>,
    lineSpacing: Option<real>, letterSpacing: Option<real>)

  const NoChanges := PreferencesPatch(None, None, None, None, None, None,
                                      None, None, None, None, None, None)

  /** `{ ...preferences, ...updates }`. */
  function MergePreferences(p: Preferences, u: PreferencesPatch): (r: Preferences)
    ensures u.fontSize.None? ==> r.fontSize == p.fontSize
    ensures u.fontSize.Some? ==> r.fontSize == u.fontSize.value
    ensures u.fontFamily.None? ==> r.fontFamily == p.fontFamily
    ensures u.fontFamily.Some? ==> r.fontFamily == u.fontFamily.value
    ensures u.highContrast.None? ==> r.highContrast == p.highContrast
    ensures u.highContrast.Some? ==> r.highContrast == u.highContrast.value
    ensures u.darkMode.None? ==> r.darkMode == p.darkMode
    ensures u.darkMode.Some? ==> r.darkMode == u.darkMode.value
    ensures u.reducedMotion.None? ==> r.reducedMotion == p.reducedMotion
    ensures u.reducedMotion.Some? ==> r.reducedMotion == u.reducedMotion.value
    ensures u.screenReader.None? ==> r.screenReader == p.screenReader
    ensures u.screenReader.Some? ==> r.screenReader == u.screenReader.value
    ensures u.ttsEnabled.None? ==> r.ttsEnabled == p.ttsEnabled
    ensures u.ttsEnabled.Some? ==> r.ttsEnabled == u.ttsEnabled.value
    ensures u.ttsSpeed.None? ==> r.ttsSpeed == p.ttsSpeed
    ensures u.ttsSpeed.Some? ==> r.ttsSpeed == u.ttsSpeed.value
    ensures u.ttsVoice.None? ==> r.ttsVoice == p.ttsVoice
    ensures u.ttsVoice.Some? ==> r.ttsVoice == u.ttsVoice.value
    ensures u.colorOverlay.None? ==> r.colorOverlay == p.colorOverlay
    ensures u.colorOverlay.Some? ==> r.colorOverlay == u.colorOverlay.value
    ensures u.lineSpacing.None? ==> r.lineSpacing == p.lineSpacing
    ensures u.lineSpacing.Some? ==> r.lineSpacing == u.lineSpacing.value
    ensures u.letterSpacing.None? ==> r.letterSpacing == p.letterSpacing
    ensures u.letterSpacing.Some? ==> r.letterSpacing == u.letterSpacing.value
  {
    Preferences(
      u.fontSize.GetOr(p.fontSize), u.fontFamily.GetOr(p.fontFamily),
      u.highContrast.GetOr(p.highContrast), u.darkMode.GetOr(p.darkMode),
      u.reducedMotion.GetOr(p.reducedMotion), u.screenReader.GetOr(p.screenReader),
      u.ttsEnabled.GetOr(p.ttsEnabled), u.ttsSpeed.GetOr(p.ttsSpeed),
      u.ttsVoice.GetOr(p.ttsVoice), u.colorOverlay.GetOr(p.colorOverlay),
      u.lineSpacing.GetOr(p.lineSpacing), u.letterSpacing.GetOr(p.letterSpacing))
  }

  /** The update that applies `u` and then `v`: a field `v` names wins. */
  function Then(u: PreferencesPatch, v: PreferencesPatch): PreferencesPatch {
    PreferencesPatch(
      Later(u.fontSize, v.fontSize), Later(u.fontFamily, v.fontFamily),
      Later(u.highContrast, v.highContrast), Later(u.darkMode, v.darkMode),
      Later(u.reducedMotion, v.reducedMotion), Later(u.screenReader, v.screenReader),
      Later(u.ttsEnabled, v.ttsEnabled), Later(u.ttsSpeed, v.ttsSpeed),
      Later(u.ttsVoice, v.ttsVoice), Later(u.colorOverlay, v.colorOverlay),
      Later(u.lineSpacing, v.lineSpacing), Later(u.letterSpacing, v.letterSpacing))
  }

  function Later<T>(a: Option<T>, b: Option<T>): Option<T> {
    if b.Some? then b else a
  }

  /** An empty update changes nothing. */
  lemma MergeNothing(p: Preferences)
    ensures MergePreferences(p, NoChanges) == p
  {
  }

  /** Applying the same update twice is applying it once. */
  lemma MergeIdempotent(p: Preferences, u: PreferencesPatch)
    ensures MergePreferences(MergePreferences(p, u), u) == MergePreferences(p, u)
  {
  }

  /** Two updates in a row are one update in which the later one wins. */
  lemma MergeThen(p: Preferences, u: PreferencesPatch, v: PreferencesPatch)
    ensures MergePreferences(MergePreferences(p, u), v) == MergePreferences(p, Then(u, v))
  {
  }

  /** Supplying every field gives exactly the supplied record. */
  lemma MergeEverything(p: Preferences, q: Preferences)
    ensures MergePreferences(p, Full(q)) == q
  {
  }

  function Full(q: Preferences): PreferencesPatch {
    PreferencesPatch(Some(q.fontSize), Some(q.fontFamily), Some(q.highContrast),
                     Some(q.darkMode), Some(q.reducedMotion), Some(q.screenReader),
                     Some(q.ttsEnabled), Some(q.ttsSpeed), Some(q.ttsVoice),
                     Some(q.colorOverlay), Some(q.lineSpacing), Some(q.letterSpacing))
  }

  const DefaultPreferences := Preferences(
    Medium, DefaultFamily, false, false, false, false, true,
    1.0, None, None, 1.5, 0.0)

  class AuthStore {
    var user: Option<User>
    var isAuthenticated: bool

    constructor()
      ensures user == None && !isAuthenticated
    {
      user := None;
      isAuthenticated := false;
    }

    method Login(u: User)
      modifies this
      ensures user == Some(u) && isAuthenticated
    {
      user := Some(u);
      isAuthenticated := true;
    }

    method Logout()
      modifies this
      ensures user == None && !isAuthenticated
    {
      user := None;
      isAuthenticated := false;
    }

    /** Merges into the current user; with nobody signed in nothing changes. */
    method UpdateUser(updates: UserPatch)
      modifies this
      ensures old(user).None? ==> user == None
      ensures old(user).Some? ==> user == Some(MergeUser(old(user).value, updates))
      ensures isAuthenticated == old(isAuthenticated)
    {
      if user.Some? {
        user := Some(MergeUser(user.value, updates));
      }
    }
  }

  class AccessibilityStore {
    var preferences: Preferences

    constructor()
      ensures preferences == DefaultPreferences
    {
      preferences := DefaultPreferences;
    }

    method UpdatePreferences(updates: PreferencesPatch)
      modifies this
      ensures preferences == MergePreferences(old(preferences), updates)
    {
      preferences := MergePreferences(preferences, updates);
    }

    method ResetPreferences()
      modifies this
      ensures preferences == DefaultPreferences
    {
      preferences := DefaultPreferences;
    }
  }

  datatype Theme = Light | Dark | System

  class UIStore {
    var theme: Theme
    var language: string
    var sidebarOpen: bool
    var readingRuler: bool
    var ttsActive: bool
    var sttActive: bool

    /** Everything but `theme`, for stating that a setter touches one field. */
    function Others(): (string, bool, bool, bool, bool)
      reads this
    {
      (language, sidebarOpen, readingRuler, ttsActive, sttActive)
    }

    constructor()
      ensures theme == System && language == "en" && sidebarOpen
      ensures !readingRuler && !ttsActive && !sttActive
    {
      theme := System;
      language := "en";
      sidebarOpen := true;
      readingRuler := false;
      ttsActive := false;
      sttActive := false;
    }

    method SetTheme(t: Theme)
      modifies this
      ensures theme == t && Others() == old(Others())
    {
      theme := t;
    }

    method SetLanguage(l: string)
      modifies this
      ensures language == l && theme == old(theme)
      ensures sidebarOpen == old(sidebarOpen) && readingRuler == old(readingRuler)
      ensures ttsActive == old(ttsActive) && sttActive == old(sttActive)
    {
      language := l;
    }

    method ToggleSidebar()
      modifies this
      ensures sidebarOpen == !old(sidebarOpen)
      ensures theme == old(theme) && language == old(language) && readingRuler == old(readingRuler)
      ensures ttsActive == old(ttsActive) && sttActive == old(sttActive)
    {
      sidebarOpen := !sidebarOpen;
    }

    method ToggleReadingRuler()
      modifies this
      ensures readingRuler == !old(readingRuler)
      ensures theme == old(theme) && language == old(language) && sidebarOpen == old(sidebarOpen)
      ensures ttsActive == old(ttsActive) && sttActive == old(sttActive)
    {
      readingRuler := !readingRuler;
    }

    method SetTTSActive(active: bool)
      modifies this
      ensures ttsActive == active
      ensures theme == old(theme) && language == old(language) && sidebarOpen == old(sidebarOpen)
      ensures readingRuler == old(readingRuler) && sttActive == old(sttActive)
    {
      ttsActive := active;
    }

    method SetSTTActive(active: bool)
      modifies this
      ensures sttActive == active
      ensures theme == old(theme) && language == old(language) && sidebarOpen == old(sidebarOpen)
      ensures readingRuler == old(readingRuler) && ttsActive == old(ttsActive)
    {
      sttActive := active;
    }
  }

  /** Either toggle applied twice leaves the store as it was. */
  method ToggleTwice(ui: UIStore)
    modifies ui
    ensures ui.sidebarOpen == old(ui.sidebarOpen) && ui.readingRuler == old(ui.readingRuler)
    ensures ui.theme == old(ui.theme) && ui.Others() == old(ui.Others())
  {
    ui.ToggleSidebar();
    ui.ToggleSidebar();
    ui.ToggleReadingRuler();
    ui.ToggleReadingRuler();
  }
}
