/** The quicksettings QuickSettingsTile base class: constructors, setup order, the
    updateResources guard, the click handler and settings activities. */
module QsTile {
  import opened Wrappers
  import opened SettingsStore
  import opened TileCommon
  import Q = QuickTile

  /** The base fields: the layout, whether the view (mTile) exists, the cached service. */
  datatype Tile = Tile(layout: Layout, hasView: bool, service: Option<nat>)

  /** QuickSettingsTile(context, qsc, layout). */
  function NewWithLayout(layout: Layout): (t: Tile)
    ensures t.layout == layout && !t.hasView && t.service.None?
  {
    Tile(layout, false, None)
  }

  /** QuickSettingsTile(context, qsc): the generic layout. */
  function New(): (t: Tile)
    ensures t.layout == GenericLayout && !t.hasView && t.service.None?
  {
    NewWithLayout(GenericLayout)
  }

  /** setupQuickSettingsTile: inflate and add the view, onPostCreate, updateQuickSettings,
      then the listeners. */
  function Setup(t: Tile): (r: (Tile, seq<Effect>))
    ensures r.0 == t.(hasView := true)
  {
    (t.(hasView := true), [AddView(t.layout), PostCreate, UpdateView, InstallListeners])
  }

  /** The two bases set a tile up in the same order; the quicktile one then reads the haptic
      settings, which this one does not have. */
  lemma SetupOrdersAgree(t: Tile, settings: Settings)
    ensures var q := Q.Fresh.(layout := t.layout);
      Q.Setup(q, settings).1 == Setup(t).1 + [RefreshHaptics]
  {
  }

  /** The view exists before anything is drawn: the view is added first, and the view is
      updated only after onPostCreate. */
  lemma SetupAddsViewFirst(t: Tile)
    ensures var es := Setup(t).1;
      |es| == 4 && es[0] == AddView(t.layout)
      && forall i :: 0 <= i < |es| && es[i] == UpdateView ==> exists j :: 0 <= j < i && es[j] == PostCreate
  {
    var es := Setup(t).1;
    assert es[1] == PostCreate;
  }

  /** updateResources: redraws only once the view exists. */
  function UpdateResources(t: Tile): (es: seq<Effect>)
    ensures es == [] || es == [UpdateView]
    ensures UpdateView in es <==> t.hasView
  {
    if t.hasView then [UpdateView] else []
  }

  /** After setup, updateResources always redraws; before it, never. */
  lemma UpdateResourcesAfterSetup(t: Tile)
    ensures UpdateResources(Setup(t).0) == [UpdateView]
    ensures UpdateResources(New()) == []
  {
  }

  /** onClick: the tile's action, then a collapse when QS_COLLAPSE_PANEL is 1. */
  function OnClick(settings: Settings): (es: seq<Effect>)
    ensures |es| >= 1 && es[0] == RunAction
    ensures PostCollapse in es <==> GetInt(settings, QsCollapsePanel, 0) == 1
  {
    [RunAction] + CollapseAfterClick(settings)
  }

  /** The clicks of the two bases do the same, but for the haptic refresh the quicktile one
      does first (its feedback never vibrates). */
  lemma ClicksAgree(q: Q.Tile, settings: Settings)
    ensures Q.OnClick(q, settings).1 == [RefreshHaptics] + OnClick(settings)
  {
    var h := Q.HapticSetting(settings);
    assert Q.ProvideHaptic(h.enabled, h.clickPattern) == [];
  }

  /** startSettingsActivity(Intent): dismiss the keyguard, launch with NEW_TASK and CLEAR_TOP,
      then collapse. */
  function StartSettingsActivity(intent: Intent): (es: seq<Effect>)
    ensures StartActivity(Launchable(intent)) in es && PostCollapse in es
    ensures forall i :: 0 <= i < |es| && es[i].StartActivity? ==> es[i].intent.flags == {NewTask, ClearTop}
  {
    [DismissKeyguard, StartActivity(Launchable(intent)), PostCollapse]
  }

  /** startSettingsActivity(String): the same for an intent with that action. */
  function StartSettingsAction(action: string): (es: seq<Effect>)
    ensures StartActivity(Intent(action, {NewTask, ClearTop})) in es && PostCollapse in es
  {
    StartSettingsActivity(Intent(action, {}))
  }

  /** Unlike the quicktile base, this base really launches: its settings activities always
      start and collapse, where the quicktile overloads do nothing. */
  lemma LaunchesDiffer(q: Q.Tile, action: string, settings: Settings)
    ensures Q.StartSettingsAction(q, action, settings).1 == []
    ensures |StartSettingsAction(action)| == 3
  {
  }
}
