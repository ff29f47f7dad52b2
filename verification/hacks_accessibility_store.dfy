/**
 * The `Hacks` accessibility store: the reader's display and speech
 * preferences, whether reading mode is on, and the reading position. Each
 * action yields a new state record.
 */
module HacksAccessibilityStore {
  import opened Wrappers

  datatype Theme = Light | Dark | HighContrast
  datatype FontSize = Small | Medium | Large | ExtraLarge
  datatype FontFamily = DefaultFamily | DyslexiaFriendly

  datatype Preferences = Preferences(theme: Theme, fontSize: FontSize, fontFamily: FontFamily,
                                     lineHeight: real, letterSpacing: real, ttsSpeed: real,
                                     ttsVoice: Option<string>, colorOverlay: Option<string>,
                                     readingRuler: bool)

  datatype AccessibilityState = AccessibilityState(preferences: Preferences, isReadingMode: bool,
                                                   currentReadingPosition: int)

  /** `defaultPreferences`. */
  const DefaultPreferences := Preferences(Light, Medium, DefaultFamily, 1.5, 0.0, 1.0, None, None, false)

  /** The store's first state. */
  const InitialState := AccessibilityState(DefaultPreferences, false, 0)

  /**
   * `Partial<AccessibilityPreferences>`: `None` leaves a field alone; for the
   * two optional fields, `Some(None)` sets them to undefined.
   */
  datatype PreferencesPatch = PreferencesPatch(theme: Option<Theme>, fontSize: Option<FontSize>,
                                               fontFamily: Option<FontFamily>, lineHeight: Option<real>,
                                               letterSpacing: Option<real>, ttsSpeed: Option<real>,
                                               ttsVoice: Option<Option<string>>, colorOverlay: Option<Option<string>>,
                                               readingRuler: Option<bool>)

  const NoChanges := PreferencesPatch(None, None, None, None, None, None, None, None, None)

  /** `{ ...preferences, ...patch }`: each supplied field replaces the old value, every other stays. */
  function Merge(p: Preferences, patch: PreferencesPatch): (r: Preferences)
    ensures patch.theme.None? ==> r.theme == p.theme
    ensures patch.theme.Some? ==> r.theme == patch.theme.value
    ensures patch.fontSize.None? ==> r.fontSize == p.fontSize
    ensures patch.fontSize.Some? ==> r.fontSize == patch.fontSize.value
    ensures patch.fontFamily.None? ==> r.fontFamily == p.fontFamily
    ensures patch.fontFamily.Some? ==> r.fontFamily == patch.fontFamily.value
    ensures patch.lineHeight.None? ==> r.lineHeight == p.lineHeight
    ensures patch.lineHeight.Some? ==> r.lineHeight == patch.lineHeight.value
    ensures patch.letterSpacing.None? ==> r.letterSpacing == p.letterSpacing
    ensures patch.letterSpacing.Some? ==> r.letterSpacing == patch.letterSpacing.value
    ensures patch.ttsSpeed.None? ==> r.ttsSpeed == p.ttsSpeed
    ensures patch.ttsSpeed.Some? ==> r.ttsSpeed == patch.ttsSpeed.value
    ensures patch.ttsVoice.None? ==> r.ttsVoice == p.ttsVoice
    ensures patch.ttsVoice.Some? ==> r.ttsVoice == patch.ttsVoice.value
    ensures patch.colorOverlay.None? ==> r.colorOverlay == p.colorOverlay
    ensures patch.colorOverlay.Some? ==> r.colorOverlay == patch.colorOverlay.value
    ensures patch.readingRuler.None? ==> r.readingRuler == p.readingRuler
    ensures patch.readingRuler.Some? ==> r.readingRuler == patch.readingRuler.value
  {
    Preferences(patch.theme.GetOr(p.theme), patch.fontSize.GetOr(p.fontSize), patch.fontFamily.GetOr(p.fontFamily),
                patch.lineHeight.GetOr(p.lineHeight), patch.letterSpacing.GetOr(p.letterSpacing),
                patch.ttsSpeed.GetOr(p.ttsSpeed), patch.ttsVoice.GetOr(p.ttsVoice),
                patch.colorOverlay.GetOr(p.colorOverlay), patch.readingRuler.GetOr(p.readingRuler))
  }

  /** An empty patch changes nothing. */
  lemma MergeNoChanges(p: Preferences)
    ensures Merge(p, NoChanges) == p
  {
  }

  /** Applying the same patch again changes nothing more. */
  lemma MergeIdempotent(p: Preferences, patch: PreferencesPatch)
    ensures Merge(Merge(p, patch), patch) == Merge(p, patch)
  {
  }

  /** `updatePreferences`: only the preferences change, and only in the supplied fields. */
  function UpdatePreferences(s: AccessibilityState, patch: PreferencesPatch): (r: AccessibilityState)
    ensures r.preferences == Merge(s.preferences, patch)
    ensures r.isReadingMode == s.isReadingMode && r.currentReadingPosition == s.currentReadingPosition
  {
    s.(preferences := Merge(s.preferences, patch))
  }

  /** `toggleReadingMode`: flips reading mode and nothing else. */
  function ToggleReadingMode(s: AccessibilityState): (r: AccessibilityState)
    ensures r.isReadingMode != s.isReadingMode
    ensures r.preferences == s.preferences && r.currentReadingPosition == s.currentReadingPosition
  {
    s.(isReadingMode := !s.isReadingMode)
  }

  /** Toggling reading mode twice is no change at all. */
  lemma ToggleTwice(s: AccessibilityState)
    ensures ToggleReadingMode(ToggleReadingMode(s)) == s
  {
  }

  /** `setReadingPosition`: sets the position and nothing else. */
  function SetReadingPosition(s: AccessibilityState, position: int): (r: AccessibilityState)
    ensures r.currentReadingPosition == position
    ensures r.preferences == s.preferences && r.isReadingMode == s.isReadingMode
  {
    s.(currentReadingPosition := position)
  }

  /** `resetPreferences`: the default preferences come back; reading mode and position stay. */
  function ResetPreferences(s: AccessibilityState): (r: AccessibilityState)
    ensures r.preferences == DefaultPreferences
    ensures r.isReadingMode == s.isReadingMode && r.currentReadingPosition == s.currentReadingPosition
  {
    s.(preferences := DefaultPreferences)
  }

  /** Whatever was changed before, a reset undoes it. */
  lemma ResetUndoesUpdate(s: AccessibilityState, patch: PreferencesPatch)
    ensures ResetPreferences(UpdatePreferences(s, patch)) == ResetPreferences(s)
  {
  }
}
