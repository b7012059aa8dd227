/** The quicktile QuickSettingsTile base class: haptic-feedback settings, the click handler,
    the settings-activity overloads and the setup order. */
module QuickTile {
  import opened Wrappers
  import opened SettingsStore
  import opened TileCommon

  /** mHapticFeedback and the two vibration patterns (null is None). */
  datatype Haptics = Haptics(enabled: bool, clickPattern: Option<seq<int>>, longClickPattern: Option<seq<int>>)

  /** The base fields that change after construction. */
  datatype Tile = Tile(layout: Layout, haptics: Haptics, service: Option<nat>)

  /** The constructor: the generic layout, no haptics read yet, no service cached. */
  const Fresh: Tile := Tile(GenericLayout, Haptics(false, None, None), None)

  /** updateHapticFeedbackSetting. The pattern lookups are commented out in the source, so both
      patterns stay null. */
  function HapticSetting(settings: Settings): (h: Haptics)
    ensures h.clickPattern.None? && h.longClickPattern.None?
  {
    var expanded := GetInt(settings, ExpandedHapticFeedback, 2);
    var enabled := if expanded == 2 then GetInt(settings, HapticFeedbackEnabled, 1) == 1 else expanded == 1;
    Haptics(enabled, None, None)
  }

  /** When the panel's haptics are on, stated as one rule: EXPANDED_HAPTIC_FEEDBACK 1 forces
      them on, 2 (the default) follows HAPTIC_FEEDBACK_ENABLED (default 1), and any other value
      turns them off. */
  predicate HapticsOn(settings: Settings) {
    var expanded := GetInt(settings, ExpandedHapticFeedback, 2);
    expanded == 1 || (expanded == 2 && GetInt(settings, HapticFeedbackEnabled, 1) == 1)
  }

  /** Haptics are on exactly when EXPANDED_HAPTIC_FEEDBACK (default 2) is 1, or is 2 and
      HAPTIC_FEEDBACK_ENABLED (default 1) is 1; with nothing stored they are on. */
  lemma HapticEnablement(settings: Settings)
    ensures HapticSetting(settings).enabled <==>
      GetInt(settings, ExpandedHapticFeedback, 2) == 1
      || (GetInt(settings, ExpandedHapticFeedback, 2) == 2 && GetInt(settings, HapticFeedbackEnabled, 1) == 1)
    ensures ExpandedHapticFeedback !in settings && HapticFeedbackEnabled !in settings ==> HapticSetting(settings).enabled
  {
  }

  /** provideHapticFeedback: a one-element pattern is a single pulse, a longer one plays once. */
  function ProvideHaptic(enabled: bool, pattern: Option<seq<int>>): (es: seq<Effect>)
    ensures |es| <= 1
    ensures |es| == 1 <==> enabled && pattern.Some?
    ensures |es| == 1 && |pattern.value| == 1 ==> es[0] == Vibrate(pattern.value[0])
    ensures |es| == 1 && |pattern.value| != 1 ==> es[0] == VibratePattern(pattern.value, -1)
  {
    if enabled && pattern.Some? then
      if |pattern.value| == 1 then [Vibrate(pattern.value[0])] else [VibratePattern(pattern.value, -1)]
    else []
  }

  predicate Vibrates(e: Effect) {
    e.Vibrate? || e.VibratePattern?
  }

  /** setupQuickSettingsTile: create (inflate, add the view), onPostCreate, updateQuickSettings,
      the listeners, then the haptic settings. */
  function Setup(t: Tile, settings: Settings): (r: (Tile, seq<Effect>))
    ensures r.1 == [AddView(t.layout), PostCreate, UpdateView, InstallListeners, RefreshHaptics]
    ensures r.0 == t.(haptics := HapticSetting(settings))
    ensures r.0.layout == t.layout && r.0.service == t.service
    ensures r.0.haptics.enabled <==> HapticsOn(settings)
    ensures forall i :: 0 <= i < |r.1| ==> !Vibrates(r.1[i])
  {
    (t.(haptics := HapticSetting(settings)),
     [AddView(t.layout), PostCreate, UpdateView, InstallListeners, RefreshHaptics])
  }

  /** onClick: refresh the haptic settings, run the tile's action, collapse when
      QS_COLLAPSE_PANEL is 1, then give click feedback. */
  function OnClick(t: Tile, settings: Settings): (r: (Tile, seq<Effect>))
    ensures r.0 == t.(haptics := HapticSetting(settings))
    ensures r.0.layout == t.layout && r.0.service == t.service
    ensures r.0.haptics.enabled <==> HapticsOn(settings)
    ensures |r.1| >= 2 && r.1[..2] == [RefreshHaptics, RunAction]
  {
    var h := HapticSetting(settings);
    (t.(haptics := h),
     [RefreshHaptics, RunAction] + CollapseAfterClick(settings) + ProvideHaptic(h.enabled, h.clickPattern))
  }

  /** A click always runs the tile's action once, collapses exactly when QS_COLLAPSE_PANEL is 1,
      and never vibrates, whatever the settings: the patterns are always null. */
  lemma ClickEffects(t: Tile, settings: Settings)
    ensures var es := OnClick(t, settings).1;
      es[..2] == [RefreshHaptics, RunAction]
      && (PostCollapse in es <==> GetInt(settings, QsCollapsePanel, 0) == 1)
      && forall i :: 0 <= i < |es| ==> !Vibrates(es[i])
  {
    var es := OnClick(t, settings).1;
    var c := CollapseAfterClick(settings);
    assert es == [RefreshHaptics, RunAction] + c;
    forall i | 0 <= i < |es|
      ensures !Vibrates(es[i])
    {
      if i >= 2 {
        assert es[i] == c[i - 2];
      }
    }
  }

  /** startSettingsActivity(intent, onlyProvisioned): with onlyProvisioned it returns at once;
      otherwise it dismisses the keyguard, refreshes haptics, launches, gives long-click
      feedback and collapses. */
  function StartSettingsActivity(t: Tile, intent: Intent, onlyProvisioned: bool, settings: Settings): (r: (Tile, seq<Effect>))
    ensures onlyProvisioned ==> r == (t, [])
    ensures !onlyProvisioned ==> StartActivity(Launchable(intent)) in r.1 && PostCollapse in r.1
  {
    if onlyProvisioned then (t, [])
    else
      var h := HapticSetting(settings);
      (t.(haptics := h),
       [DismissKeyguard, RefreshHaptics, StartActivity(Launchable(intent))]
       + ProvideHaptic(h.enabled, h.longClickPattern) + [PostCollapse])
  }

  /** startSettingsActivity(Intent): passes onlyProvisioned = true. */
  function StartSettingsIntent(t: Tile, intent: Intent, settings: Settings): (r: (Tile, seq<Effect>))
    ensures r == (t, [])
  {
    StartSettingsActivity(t, intent, true, settings)
  }

  /** startSettingsActivity(String): wraps the action in an intent and goes through the
      Intent overload. */
  function StartSettingsAction(t: Tile, action: string, settings: Settings): (r: (Tile, seq<Effect>))
    ensures r == (t, [])
  {
    StartSettingsIntent(t, Intent(action, {}), settings)
  }
}
