/** What holds of the controller between reloads, and the routing of content changes and
    broadcasts (QuickSettingsObserver.onChange, QSBroadcastReceiver.onReceive) built on it. */
module QsDispatch {
  import opened Wrappers
  import opened SettingsStore
  import opened TileNames
  import opened QsController
  import R = TileRegistry

  function Ids(ts: seq<Tile>): (ids: seq<nat>)
    ensures |ids| == |ts| && forall i :: 0 <= i < |ts| ==> ids[i] == ts[i].id
  {
    seq(|ts|, i requires 0 <= i < |ts| => ts[i].id)
  }

  /** The broadcast actions each tile's constructor registers for. */
  function ActionsOf(ts: seq<Tile>, wiring: Wiring): (a: seq<seq<string>>)
    ensures |a| == |ts| && forall i :: 0 <= i < |ts| ==> a[i] == RegistrationsOf(ts[i].kind, wiring).actions
  {
    seq(|ts|, i requires 0 <= i < |ts| => RegistrationsOf(ts[i].kind, wiring).actions)
  }

  /** The content URIs each tile's constructor registers for. */
  function UrisOf(ts: seq<Tile>, wiring: Wiring): (u: seq<seq<Uri>>)
    ensures |u| == |ts| && forall i :: 0 <= i < |ts| ==> u[i] == RegistrationsOf(ts[i].kind, wiring).uris
  {
    seq(|ts|, i requires 0 <= i < |ts| => RegistrationsOf(ts[i].kind, wiring).uris)
  }

  /** Tiles are numbered in creation order, below the next number to hand out. */
  predicate Numbered(c: Controller) {
    (forall i, j :: 0 <= i < j < |c.tiles| ==> c.tiles[i].id < c.tiles[j].id)
    && forall i :: 0 <= i < |c.tiles| ==> c.tiles[i].id < c.nextId
  }

  /** The two registries hold exactly what the tiles' constructors registered, each list in
      creation order. */
  ghost predicate Registered(c: Controller, wiring: Wiring) {
    R.Ordered(c.receivers, c.nextId) && R.Ordered(c.observers, c.nextId)
    && R.Tracks(c.receivers, Ids(c.tiles), ActionsOf(c.tiles, wiring))
    && R.Tracks(c.observers, Ids(c.tiles), UrisOf(c.tiles, wiring))
  }

  /** mIMETile, when set, is one of the tiles. */
  predicate ImeKnown(c: Controller) {
    c.imeTile.Some? ==> exists i :: 0 <= i < |c.tiles| && c.tiles[i] == Tile(c.imeTile.value, Ime)
  }

  ghost predicate WellFormed(c: Controller, wiring: Wiring) {
    Numbered(c) && Registered(c, wiring) && ImeKnown(c) && c.statusUris <= {ProfilesUri}
  }

  lemma AppendTile(ts: seq<Tile>, t: Tile, wiring: Wiring)
    ensures Ids(ts + [t]) == Ids(ts) + [t.id]
    ensures ActionsOf(ts + [t], wiring) == ActionsOf(ts, wiring) + [RegistrationsOf(t.kind, wiring).actions]
    ensures UrisOf(ts + [t], wiring) == UrisOf(ts, wiring) + [RegistrationsOf(t.kind, wiring).uris]
  {
    assert forall i :: 0 <= i < |ts| ==> (ts + [t])[i] == ts[i];
  }

  /** Creating a tile keeps the registries exact and in creation order. */
  lemma AddTileRegistered(c: Controller, k: TileKind, wiring: Wiring)
    requires Registered(c, wiring)
    ensures Registered(AddTile(c, k, wiring), wiring)
  {
    var reg := RegistrationsOf(k, wiring);
    AppendTile(c.tiles, Tile(c.nextId, k), wiring);
    R.RegisterAllTracks(c.receivers, Ids(c.tiles), ActionsOf(c.tiles, wiring), c.nextId, reg.actions);
    R.RegisterAllTracks(c.observers, Ids(c.tiles), UrisOf(c.tiles, wiring), c.nextId, reg.uris);
    R.OrderedRaise(c.receivers, c.nextId, c.nextId + 1);
    R.OrderedRaise(c.observers, c.nextId, c.nextId + 1);
    R.RegisterAllKeepsOrder(c.receivers, reg.actions, c.nextId);
    R.RegisterAllKeepsOrder(c.observers, reg.uris, c.nextId);
  }

  /** Creating a tile keeps the controller well formed. */
  lemma AddTileWellFormed(c: Controller, k: TileKind, wiring: Wiring)
    requires WellFormed(c, wiring)
    ensures WellFormed(AddTile(c, k, wiring), wiring)
  {
    AddTileRegistered(c, k, wiring);
    AppendKeepsNumbered(c, Tile(c.nextId, k));
    AppendKeepsIme(c, Tile(c.nextId, k));
  }

  lemma AppendKeepsNumbered(c: Controller, t: Tile)
    requires Numbered(c) && t.id == c.nextId
    ensures Numbered(c.(tiles := c.tiles + [t], nextId := c.nextId + 1))
  {
  }

  lemma AppendKeepsIme(c: Controller, t: Tile)
    requires ImeKnown(c)
    ensures ImeKnown(c.(tiles := c.tiles + [t]))
  {
    if c.imeTile.Some? {
      var i :| 0 <= i < |c.tiles| && c.tiles[i] == Tile(c.imeTile.value, Ime);
      assert (c.tiles + [t])[i] == c.tiles[i];
    }
  }

  /** Creating a tile, the IME tile included, keeps the controller well formed. */
  lemma CreateWellFormed(c: Controller, k: TileKind, wiring: Wiring)
    requires WellFormed(c, wiring)
    ensures WellFormed(Create(c, k, wiring), wiring)
  {
    var a := AddTile(c, k, wiring);
    AddTileWellFormed(c, k, wiring);
    assert a.tiles[|c.tiles|] == Tile(c.nextId, k);
  }

  lemma {:induction false} CreateAllWellFormed(c: Controller, ks: seq<TileKind>, wiring: Wiring)
    requires WellFormed(c, wiring)
    ensures WellFormed(CreateAll(c, ks, wiring), wiring)
    decreases |ks|
  {
    if |ks| > 0 {
      CreateWellFormed(c, ks[0], wiring);
      CreateAllWellFormed(Create(c, ks[0], wiring), ks[1..], wiring);
    }
  }

  /** Whatever state it starts from, a reload leaves the controller well formed. */
  lemma SetupWellFormed(c: Controller, caps: Capabilities, settings: Settings, wiring: Wiring)
    ensures WellFormed(Setup(c, caps, settings, wiring), wiring)
  {
    LoadWellFormed(Cleared(c).(defaults := FilterDefaults(c.defaults, caps)), caps, LoadedNames(c.defaults, caps, settings), settings, wiring);
  }

  /** Loading any list of names into a cleared controller leaves it well formed. */
  lemma LoadWellFormed(l: Controller, caps: Capabilities, names: seq<string>, settings: Settings, wiring: Wiring)
    requires l.tiles == [] && l.receivers == map[] && l.observers == map[] && l.statusUris == {}
    ensures WellFormed(Load(l, caps, names, settings, wiring), wiring)
  {
    var e := Prepared(l, names);
    assert R.Tracks(e.receivers, Ids(e.tiles), ActionsOf(e.tiles, wiring));
    assert R.Tracks(e.observers, Ids(e.tiles), UrisOf(e.tiles, wiring));
    assert WellFormed(e, wiring);
    CreateAllWellFormed(e, ToCreate(names, caps, settings), wiring);
  }

  // ---------------------------------------------------------------- routing

  /** What a content change or a broadcast leads to: a reload posted to the handler, the
      tiles (by number, in list order) whose callback runs, or a NullPointerException from
      iterating over a missing list. */
  datatype Dispatch = Reload | Deliver(ids: seq<nat>) | NullPointer

  /** The URIs setupContentObserver registers the observer for. */
  function Observed(c: Controller): (us: set<Uri>)
    ensures forall u :: u in us <==> u in c.observers || u in c.statusUris
  {
    c.observers.Keys + c.statusUris
  }

  /** QuickSettingsObserver.onChange: a status URI posts a reload, any other URI runs the
      callbacks of the tiles listed for it, and a URI with no list fails. */
  function OnChange(c: Controller, uri: Uri): (r: Dispatch)
    ensures r.Reload? <==> uri in c.statusUris
    ensures r.NullPointer? <==> uri !in Observed(c)
    ensures r.Deliver? ==> uri in c.observers && r.ids == c.observers[uri]
  {
    if uri in c.statusUris then Reload
    else if uri in c.observers then Deliver(c.observers[uri])
    else NullPointer
  }

  /** The actions setupBroadcastReceiver puts in the intent filter. */
  function Filter(c: Controller): (actions: set<string>)
    ensures forall a :: a in actions <==> a in c.receivers
  {
    c.receivers.Keys
  }

  /** QSBroadcastReceiver.onReceive: an intent without an action is ignored; an action with no
      list fails. A broadcast never reloads. */
  function OnReceive(c: Controller, action: Option<string>): (r: Dispatch)
    ensures !r.Reload?
    ensures r.NullPointer? <==> action.Some? && action.value !in Filter(c)
    ensures r.Deliver? && action.Some? ==> r.ids == c.receivers[action.value]
  {
    match action
    case None => Deliver([])
    case Some(a) => if a in c.receivers then Deliver(c.receivers[a]) else NullPointer
  }

  predicate Increasing(ids: seq<nat>) {
    forall i, j :: 0 <= i < j < |ids| ==> ids[i] < ids[j]
  }

  /** The tiles whose constructors registered for some URI. */
  predicate WatchesUri(c: Controller, wiring: Wiring, uri: Uri, t: nat) {
    exists i :: 0 <= i < |c.tiles| && c.tiles[i].id == t && uri in RegistrationsOf(c.tiles[i].kind, wiring).uris
  }

  /** The tiles whose constructors registered for some broadcast action. */
  predicate HearsAction(c: Controller, wiring: Wiring, action: string, t: nat) {
    exists i :: 0 <= i < |c.tiles| && c.tiles[i].id == t && action in RegistrationsOf(c.tiles[i].kind, wiring).actions
  }

  lemma MadeIsWatched(c: Controller, wiring: Wiring, uri: Uri, t: nat)
    ensures R.Made(Ids(c.tiles), UrisOf(c.tiles, wiring), uri, t) <==> WatchesUri(c, wiring, uri, t)
  {
    if WatchesUri(c, wiring, uri, t) {
      var i :| 0 <= i < |c.tiles| && c.tiles[i].id == t && uri in RegistrationsOf(c.tiles[i].kind, wiring).uris;
      assert Ids(c.tiles)[i] == t && uri in UrisOf(c.tiles, wiring)[i];
    }
  }

  lemma MadeIsHeard(c: Controller, wiring: Wiring, action: string, t: nat)
    ensures R.Made(Ids(c.tiles), ActionsOf(c.tiles, wiring), action, t) <==> HearsAction(c, wiring, action, t)
  {
    if HearsAction(c, wiring, action, t) {
      var i :| 0 <= i < |c.tiles| && c.tiles[i].id == t && action in RegistrationsOf(c.tiles[i].kind, wiring).actions;
      assert Ids(c.tiles)[i] == t && action in ActionsOf(c.tiles, wiring)[i];
    }
  }

  /** A change on a status URI posts a reload and reaches no tile; a change on any other
      observed URI reaches exactly the tiles registered for it, each once, in creation order;
      no observed URI makes the observer fail. */
  lemma ChangeRouting(c: Controller, wiring: Wiring, uri: Uri)
    requires WellFormed(c, wiring)
    ensures var r := OnChange(c, uri);
      (r.Reload? <==> uri in c.statusUris)
      && (uri in Observed(c) ==> !r.NullPointer?)
      && (r.Deliver? ==> Increasing(r.ids) && forall t :: t in r.ids <==> WatchesUri(c, wiring, uri, t))
  {
    var r := OnChange(c, uri);
    if r.Deliver? {
      forall t
        ensures t in r.ids <==> WatchesUri(c, wiring, uri, t)
      {
        assert t in r.ids <==> R.Listed(c.observers, uri, t);
        MadeIsWatched(c, wiring, uri, t);
      }
    }
  }

  /** An intent without an action reaches no tile; one whose action is in the filter reaches
      exactly the tiles registered for it, each once, in creation order. */
  lemma ReceiveRouting(c: Controller, wiring: Wiring, action: Option<string>)
    requires WellFormed(c, wiring)
    ensures var r := OnReceive(c, action);
      (action.None? ==> r == Deliver([]))
      && (action.Some? && action.value in Filter(c) ==>
            r.Deliver? && Increasing(r.ids) && forall t :: t in r.ids <==> HearsAction(c, wiring, action.value, t))
  {
    var r := OnReceive(c, action);
    if action.Some? && action.value in Filter(c) {
      forall t
        ensures t in r.ids <==> HearsAction(c, wiring, action.value, t)
      {
        assert t in r.ids <==> R.Listed(c.receivers, action.value, t);
        MadeIsHeard(c, wiring, action.value, t);
      }
    }
  }

  /** Every quiet-hours tile hears a change of QUIET_HOURS_ENABLED: it is never a status URI. */
  lemma QuietHoursChangeReachesTiles(c: Controller, wiring: Wiring, i: nat)
    requires WellFormed(c, wiring)
    requires i < |c.tiles| && c.tiles[i].kind == QuietHours
    ensures var r := OnChange(c, SettingUri(QuietHoursEnabled));
      r.Deliver? && c.tiles[i].id in r.ids
  {
    var uri := SettingUri(QuietHoursEnabled);
    assert uri in RegistrationsOf(QuietHours, wiring).uris;
    assert WatchesUri(c, wiring, uri, c.tiles[i].id);
    MadeIsWatched(c, wiring, uri, c.tiles[i].id);
    assert uri !in c.statusUris;
    assert R.Listed(c.observers, uri, c.tiles[i].id);
    ChangeRouting(c, wiring, uri);
  }

  /** Every user tile hears CONFIGURATION_CHANGED and a change of USER_MY_NUMBERS. */
  lemma UserTileRefreshes(c: Controller, wiring: Wiring, i: nat)
    requires WellFormed(c, wiring)
    requires i < |c.tiles| && c.tiles[i].kind == User
    ensures var r := OnReceive(c, Some(ConfigurationChanged));
      r.Deliver? && c.tiles[i].id in r.ids
    ensures var r := OnChange(c, SettingUri(UserMyNumbers));
      r.Deliver? && c.tiles[i].id in r.ids
  {
    var t := c.tiles[i].id;
    var uri := SettingUri(UserMyNumbers);
    assert uri in RegistrationsOf(User, wiring).uris;
    assert ConfigurationChanged in RegistrationsOf(User, wiring).actions;
    assert WatchesUri(c, wiring, uri, t);
    assert HearsAction(c, wiring, ConfigurationChanged, t);
    MadeIsWatched(c, wiring, uri, t);
    MadeIsHeard(c, wiring, ConfigurationChanged, t);
    assert R.Listed(c.observers, uri, t);
    assert R.Listed(c.receivers, ConfigurationChanged, t);
    assert uri !in c.statusUris;
  }

  /** MSG_UPDATE_TILES messages waiting in the handler after a dispatch: a reload removes
      any waiting one before posting its own. */
  function Pending(waiting: nat, r: Dispatch): (n: nat)
    ensures r.Reload? ==> n == 1
    ensures !r.Reload? ==> n == waiting
    ensures waiting <= 1 ==> waiting <= n <= 1
    ensures n == 0 <==> waiting == 0 && !r.Reload?
  {
    if r.Reload? then 1 else waiting
  }

  /** A burst of status changes leaves at most one reload waiting, whatever came before. */
  lemma {:induction false} ReloadsCoalesce(c: Controller, waiting: nat, uris: seq<Uri>)
    requires waiting <= 1
    ensures waiting <= PendingAfter(c, waiting, uris) <= 1
    ensures (exists i :: 0 <= i < |uris| && uris[i] in c.statusUris) ==> PendingAfter(c, waiting, uris) == 1
    decreases |uris|
  {
    if |uris| > 0 {
      ReloadsCoalesce(c, Pending(waiting, OnChange(c, uris[0])), uris[1..]);
      if exists i :: 0 <= i < |uris| && uris[i] in c.statusUris {
        var i :| 0 <= i < |uris| && uris[i] in c.statusUris;
        if i > 0 {
          assert uris[1..][i - 1] in c.statusUris;
        }
      }
    }
  }

  /** The waiting reloads after a run of changes, none of them handled yet. */
  function PendingAfter(c: Controller, waiting: nat, uris: seq<Uri>): nat
    decreases |uris|
  {
    if |uris| == 0 then waiting else PendingAfter(c, Pending(waiting, OnChange(c, uris[0])), uris[1..])
  }

  // ---------------------------------------------------------------- IME and resources

  datatype ImeEffect = NoImeTile | ToggleVisibility(tile: nat, visible: bool)

  /** setImeWindowStatus: the visibility goes to mIMETile when there is one. */
  function SetImeWindowStatus(c: Controller, visible: bool): (e: ImeEffect)
    ensures e.ToggleVisibility? ==> e.visible == visible
    ensures e.ToggleVisibility? <==> c.imeTile.Some?
    ensures c.imeTile.Some? ==> e == ToggleVisibility(c.imeTile.value, visible)
  {
    match c.imeTile
    case Some(t) => ToggleVisibility(t, visible)
    case None => NoImeTile
  }

  /** After a reload the IME tile hears the window status exactly when it was created, and
      the tile that hears it is an IME tile of the list. */
  lemma SetupImeStatus(c: Controller, caps: Capabilities, settings: Settings, wiring: Wiring, visible: bool)
    ensures var c' := Setup(c, caps, settings, wiring);
      var e := SetImeWindowStatus(c', visible);
      (e.ToggleVisibility? <==> caps.imeSwitcher && GetInt(settings, QsDynamicIme, 1) == 1)
      && (e.ToggleVisibility? ==> exists i :: 0 <= i < |c'.tiles| && c'.tiles[i] == Tile(e.tile, Ime))
  {
    SetupWellFormed(c, caps, settings, wiring);
    LoadIme(Cleared(c).(defaults := FilterDefaults(c.defaults, caps)), caps, LoadedNames(c.defaults, caps, settings), settings, wiring);
  }

  /** Loading sets mIMETile exactly when the IME tile is among the dynamic tiles. */
  lemma LoadIme(c: Controller, caps: Capabilities, names: seq<string>, settings: Settings, wiring: Wiring)
    ensures Load(c, caps, names, settings, wiring).imeTile.Some? <==> Ime in Dynamic(caps, settings)
  {
    CreateAllIme(Prepared(c, names), ToCreate(names, caps, settings), wiring);
    assert Ime !in Wanted(names, caps, settings);
  }

  datatype Refresh = ContainerResources | TileResources(tile: nat)

  /** updateResources: the container first, then every tile in list order. */
  function UpdateResources(c: Controller): (rs: seq<Refresh>)
    ensures |rs| == |c.tiles| + 1 && rs[0] == ContainerResources
    ensures forall i :: 0 <= i < |c.tiles| ==> rs[i + 1] == TileResources(c.tiles[i].id)
    ensures forall i :: 1 <= i < |rs| ==> rs[i].TileResources?
    ensures forall t :: TileResources(t) in rs <==> t in Ids(c.tiles)
  {
    [ContainerResources] + seq(|c.tiles|, i requires 0 <= i < |c.tiles| => TileResources(c.tiles[i].id))
  }

  /** On a well-formed controller every tile is refreshed exactly once, in creation order. */
  lemma UpdateResourcesOnce(c: Controller, wiring: Wiring)
    requires WellFormed(c, wiring)
    ensures var rs := UpdateResources(c);
      (forall i, j :: 1 <= i < j < |rs| ==> rs[i].TileResources? && rs[j].TileResources? && rs[i].tile < rs[j].tile)
      && forall t :: TileResources(t) in rs <==> t in Ids(c.tiles)
  {
  }
}
