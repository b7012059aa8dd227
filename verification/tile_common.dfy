/** What the two QuickSettingsTile base classes (the quicktile one and the quicksettings one)
    have in common: the effects a tile has on the world, the collapse-on-click rule, settings
    intents, and the cached status-bar service that the posted collapse runs against. */
module TileCommon {
  import opened Wrappers
  import opened SettingsStore

  /** The layout a tile's view is inflated with. */
  datatype Layout = GenericLayout | UserLayout

  datatype Flag = NewTask | ClearTop

  /** An activity intent: the action or component it names, and its flags. */
  datatype Intent = Intent(target: string, flags: set<Flag>)

  /** The effects of a tile callback, in the order they happen. */
  datatype Effect =
    | AddView(layout: Layout)          // inflate the tile and add it to the container
    | PostCreate                       // onPostCreate
    | UpdateView                       // updateQuickSettings
    | InstallListeners                 // the click and long-click listeners
    | RefreshHaptics                   // updateHapticFeedbackSetting
    | RunAction                        // the tile's own click listener
    | PostCollapse                     // startCollapseActivity posts the collapse
    | DismissKeyguard                  // dismissKeyguardOnNextActivity
    | StartActivity(intent: Intent)
    | Vibrate(ms: int)
    | VibratePattern(pattern: seq<int>, repeat: int)

  /** QS_COLLAPSE_PANEL, default 0: a click collapses the panel only when it is 1. */
  predicate ShouldCollapse(settings: Settings) {
    GetInt(settings, QsCollapsePanel, 0) == 1
  }

  /** The collapse that follows a click, if any. */
  function CollapseAfterClick(settings: Settings): (es: seq<Effect>)
    ensures PostCollapse in es <==> GetInt(settings, QsCollapsePanel, 0) == 1
    ensures |es| <= 1 && forall i :: 0 <= i < |es| ==> es[i] == PostCollapse
  {
    if ShouldCollapse(settings) then [PostCollapse] else []
  }

  /** An intent as startSettingsActivity launches it: a new task, clearing the top. */
  function Launchable(intent: Intent): (i: Intent)
    ensures i.target == intent.target && i.flags == {NewTask, ClearTop}
  {
    intent.(flags := {NewTask, ClearTop})
  }

  /** What the status bar's collapse call does, when a service is at hand. */
  datatype Binder = Collapses | ThrowsRemote

  /** The collapse runnable: getStatusBarService looks the service up only when none is cached;
      a RemoteException from collapse drops the cached one. The result is the new cache,
      whether the service manager was asked, and whether the panel collapsed. */
  datatype CollapseRun = CollapseRun(cache: Option<nat>, lookedUp: bool, collapsed: bool)

  function RunCollapse(cache: Option<nat>, registered: Option<nat>, binder: Binder): (r: CollapseRun)
    ensures r.lookedUp <==> cache.None?
    ensures r.collapsed <==> (cache.Some? || registered.Some?) && binder.Collapses?
    ensures r.cache == (if binder.ThrowsRemote? then None else if cache.Some? then cache else registered)
  {
    var service := if cache.Some? then cache else registered;
    if service.None? then CollapseRun(None, cache.None?, false)
    else if binder.ThrowsRemote? then CollapseRun(None, cache.None?, false)
    else CollapseRun(service, cache.None?, true)
  }

  /** Once a service has been found and works, later collapses never ask for it again. */
  lemma {:induction false} CacheAvoidsLookups(cache: Option<nat>, registered: Option<nat>, binders: seq<Binder>)
    requires forall i :: 0 <= i < |binders| ==> binders[i] == Collapses
    requires cache.Some? || registered.Some?
    ensures var r := RunCollapses(cache, registered, binders);
      r.lookups <= 1 && (cache.Some? ==> r.lookups == 0) && r.collapses == |binders|
    decreases |binders|
  {
    if |binders| > 0 {
      var first := RunCollapse(cache, registered, binders[0]);
      assert first.cache.Some?;
      CacheAvoidsLookups(first.cache, registered, binders[1..]);
    }
  }

  datatype Tally = Tally(cache: Option<nat>, lookups: nat, collapses: nat)

  /** Several collapses in a row, counting service lookups and collapses. */
  function RunCollapses(cache: Option<nat>, registered: Option<nat>, binders: seq<Binder>): (t: Tally)
    ensures t.lookups <= |binders| && t.collapses <= |binders|
    decreases |binders|
  {
    if |binders| == 0 then Tally(cache, 0, 0)
    else
      var first := RunCollapse(cache, registered, binders[0]);
      var rest := RunCollapses(first.cache, registered, binders[1..]);
      Tally(rest.cache, rest.lookups + (if first.lookedUp then 1 else 0),
            rest.collapses + (if first.collapsed then 1 else 0))
  }

  /** A failing call forgets the service, so the next collapse asks for it again. */
  lemma RemoteFailureForcesLookup(cache: Option<nat>, registered: Option<nat>, next: Binder)
    ensures var r := RunCollapse(cache, registered, ThrowsRemote);
      !r.collapsed && r.cache.None? && RunCollapse(r.cache, registered, next).lookedUp
  {
  }
}
