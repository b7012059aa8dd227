/** QuickSettingsController: building the tile list from the stored tile string or the
    default list, the registries of broadcast actions and content URIs the tiles listen to,
    full reloads, and the routing of broadcasts and content changes to tiles. */
module QsController {
  import opened Wrappers
  import opened SettingsStore
  import opened TileNames
  import R = TileRegistry

  /** The platform capability queries loadTiles makes (QSUtils and friends). */
  datatype Capabilities = Capabilities(
    bluetooth: bool, mobileData: bool, lte: bool, imeSwitcher: bool, usbTether: bool)

  /** A created tile: its creation number (its identity) and its kind. */
  datatype Tile = Tile(id: nat, kind: TileKind)

  /** The broadcast actions and content URIs a tile's constructor registers for. */
  datatype Registrations = Registrations(actions: seq<string>, uris: seq<Uri>)

  /** What the constructors of tile classes outside this model register. */
  type Wiring = map<TileKind, Registrations>

  const ConfigurationChanged: string := "android.intent.action.CONFIGURATION_CHANGED"

  /** UserTile and QuietHoursTile register what their constructors say; every other kind
      registers what the wiring says (nothing when it says nothing). */
  function RegistrationsOf(k: TileKind, wiring: Wiring): (r: Registrations)
    ensures k == User ==> r.actions == [ConfigurationChanged] && r.uris == [SettingUri(UserMyNumbers)]
    ensures k == QuietHours ==> r.actions == [] && r.uris == [SettingUri(QuietHoursEnabled)]
  {
    if k == User then Registrations([ConfigurationChanged], [SettingUri(UserMyNumbers)])
    else if k == QuietHours then Registrations([], [SettingUri(QuietHoursEnabled)])
    else if k in wiring then wiring[k]
    else Registrations([], [])
  }

  /** The controller's fields; defaults is the static TILES_DEFAULT list, which loadTiles
      edits in place and which therefore survives reloads. */
  datatype Controller = Controller(
    tiles: seq<Tile>,
    receivers: R.Registry<string>,
    observers: R.Registry<Uri>,
    statusUris: set<Uri>,
    imeTile: Option<nat>,
    defaults: seq<string>,
    nextId: nat)

  function Kinds(ts: seq<Tile>): (ks: seq<TileKind>)
    ensures |ks| == |ts| && forall i :: 0 <= i < |ts| ==> ks[i] == ts[i].kind
  {
    seq(|ts|, i requires 0 <= i < |ts| => ts[i].kind)
  }

  predicate Distinct<T(==)>(s: seq<T>) {
    forall i, j :: 0 <= i < j < |s| ==> s[i] != s[j]
  }

  // ---------------------------------------------------------------- the default list

  /** ArrayList.remove(Object): drops the first occurrence only. */
  function RemoveFirst(s: seq<string>, x: string): (r: seq<string>)
    ensures x !in s ==> r == s
    ensures multiset(r) == multiset(s) - multiset{x}
    decreases |s|
  {
    if |s| == 0 then s
    else if s[0] == x then
      assert s == [s[0]] + s[1..];
      s[1..]
    else
      assert s == [s[0]] + s[1..];
      [s[0]] + RemoveFirst(s[1..], x)
  }

  /** A list without repeats: every name occurs at most once. */
  ghost predicate NoRepeats(s: seq<string>) {
    forall x :: multiset(s)[x] <= 1
  }

  /** The names loadTiles drops from the default list for missing hardware, in the order it
      drops them. */
  function Unsupported(caps: Capabilities): seq<string> {
    (if !caps.bluetooth then [NameOf(Bluetooth)] else [])
    + (if !caps.mobileData then [NameOf(WifiAp), NameOf(MobileData), NameOf(NetworkMode)] else [])
    + (if !caps.lte then [NameOf(Lte)] else [])
  }

  /** Removes the first occurrence of each name of a list, in order. */
  function RemoveEach(s: seq<string>, xs: seq<string>): (r: seq<string>)
    ensures multiset(r) == multiset(s) - multiset(xs)
    decreases |xs|
  {
    if |xs| == 0 then s
    else
      var r := RemoveEach(RemoveFirst(s, xs[0]), xs[1..]);
      MultisetRemoveTwice(multiset(s), xs[0], xs[1..], xs);
      r
  }

  lemma MultisetRemoveTwice(m: multiset<string>, x: string, rest: seq<string>, xs: seq<string>)
    requires xs == [x] + rest
    ensures m - multiset{x} - multiset(rest) == m - multiset(xs)
  {
    assert multiset(xs) == multiset{x} + multiset(rest);
    forall y
      ensures (m - multiset{x} - multiset(rest))[y] == (m - multiset(xs))[y]
    {
    }
  }

  /** The first half of loadTiles: bluetooth, then wifiAP, mobile data and network mode, then
      LTE are removed from the static default list when unsupported. */
  function FilterDefaults(d: seq<string>, caps: Capabilities): (r: seq<string>)
    ensures multiset(r) == multiset(d) - multiset(Unsupported(caps))
  {
    RemoveEach(d, Unsupported(caps))
  }

  /** What removing a list of names does to a list without repeats: exactly those names go,
      and it stays free of repeats. */
  lemma RemoveEachMembers(d: seq<string>, xs: seq<string>, x: string)
    requires NoRepeats(d)
    ensures NoRepeats(RemoveEach(d, xs))
    ensures x in RemoveEach(d, xs) <==> x in d && x !in xs
  {
    var r := RemoveEach(d, xs);
    var u := multiset(xs);
    forall y
      ensures multiset(r)[y] <= multiset(d)[y]
      ensures multiset(r)[y] == if u[y] > 0 then 0 else multiset(d)[y]
    {
      assert multiset(r)[y] == (multiset(d) - u)[y];
    }
    assert x in r <==> multiset(r)[x] > 0;
    assert x in d <==> multiset(d)[x] > 0;
    assert x in xs <==> u[x] > 0;
  }

  /** What filtering does to a list without repeats: exactly the unsupported names go, and
      it stays free of repeats. */
  lemma FilterDefaultsMembers(d: seq<string>, caps: Capabilities, x: string)
    requires NoRepeats(d)
    ensures NoRepeats(FilterDefaults(d, caps))
    ensures x in FilterDefaults(d, caps) <==> x in d && x !in Unsupported(caps)
  {
    RemoveEachMembers(d, Unsupported(caps), x);
  }

  /** Removing names that are absent changes nothing. */
  lemma {:induction false} RemoveEachAbsent(s: seq<string>, xs: seq<string>)
    requires forall i :: 0 <= i < |xs| ==> xs[i] !in s
    ensures RemoveEach(s, xs) == s
    decreases |xs|
  {
    if |xs| > 0 {
      RemoveEachAbsent(s, xs[1..]);
    }
  }

  /** On a list without repeats, filtering is done after one reload: the next reload finds
      nothing left to remove. */
  lemma FilterDefaultsIdempotent(d: seq<string>, caps: Capabilities)
    requires NoRepeats(d)
    ensures FilterDefaults(FilterDefaults(d, caps), caps) == FilterDefaults(d, caps)
  {
    var f := FilterDefaults(d, caps);
    var u := Unsupported(caps);
    forall i | 0 <= i < |u|
      ensures u[i] !in f
    {
      FilterDefaultsMembers(d, caps, u[i]);
    }
    RemoveEachAbsent(f, u);
  }

  /** On a list with a repeat, each reload removes one more copy: the static list is edited
      in place. */
  lemma FilterDefaultsRemovesOneCopy()
    ensures var d := [NameOf(Bluetooth), NameOf(Bluetooth)];
      var caps := Capabilities(false, true, true, true, true);
      FilterDefaults(d, caps) == [NameOf(Bluetooth)] && FilterDefaults(FilterDefaults(d, caps), caps) == []
  {
  }

  // ---------------------------------------------------------------- listed tiles

  /** Whether a listed kind is created when named: bluetooth needs bluetooth, wifiAP, mobile
      data and network mode need mobile data, the profile tile needs SYSTEM_PROFILES_ENABLED
      (default 1) to be 1; everything else, LTE and NFC included, is always created. */
  predicate Allowed(k: TileKind, caps: Capabilities, settings: Settings) {
    match k
    case Bluetooth => caps.bluetooth
    case WifiAp => caps.mobileData
    case MobileData => caps.mobileData
    case NetworkMode => caps.mobileData
    case Profile => GetInt(settings, SystemProfilesEnabled, 1) == 1
    case _ => !IsDynamic(k)
  }

  /** The tile one name of the split string creates, if any. */
  function TileFor(name: string, caps: Capabilities, settings: Settings): (r: Option<TileKind>)
    ensures r.Some? ==> !IsDynamic(r.value) && NameOf(r.value) == name && Allowed(r.value, caps, settings)
  {
    match KindNamed(name)
    case Some(k) => if Allowed(k, caps, settings) then Some(k) else None
    case None => None
  }

  /** A name creates exactly the allowed kind it names. */
  lemma TileForExact(name: string, caps: Capabilities, settings: Settings, k: TileKind)
    ensures TileFor(name, caps, settings) == Some(k)
      <==> !IsDynamic(k) && NameOf(k) == name && Allowed(k, caps, settings)
  {
    if !IsDynamic(k) && NameOf(k) == name {
      NamesIdentifyKinds(k);
    }
  }

  /** The reference: the kinds the names ask for, in order, dropping unknown or unsupported ones. */
  function Wanted(names: seq<string>, caps: Capabilities, settings: Settings): (ks: seq<TileKind>)
    ensures |ks| <= |names|
    ensures forall i :: 0 <= i < |ks| ==> !IsDynamic(ks[i]) && Allowed(ks[i], caps, settings)
    decreases |names|
  {
    if |names| == 0 then []
    else
      var rest := Wanted(names[1..], caps, settings);
      match TileFor(names[0], caps, settings)
      case Some(k) => [k] + rest
      case None => rest
  }

  /** A kind is wanted exactly when it is allowed and one of the names names it. */
  lemma {:induction false} WantedMembers(names: seq<string>, caps: Capabilities, settings: Settings, k: TileKind)
    ensures k in Wanted(names, caps, settings)
      <==> !IsDynamic(k) && Allowed(k, caps, settings) && NameOf(k) in names
    decreases |names|
  {
    if |names| > 0 {
      WantedMembers(names[1..], caps, settings, k);
      TileForExact(names[0], caps, settings, k);
      assert names == [names[0]] + names[1..];
      if !IsDynamic(k) && NameOf(k) in names && NameOf(k) != names[0] {
        assert NameOf(k) in names[1..];
      }
    }
  }

  const ProfilesUri: Uri := SettingUri(SystemProfilesEnabled)

  /** A tile's constructor registers it, then it joins the list. */
  function AddTile(c: Controller, k: TileKind, wiring: Wiring): (c': Controller)
    ensures c'.tiles == c.tiles + [Tile(c.nextId, k)] && c'.nextId == c.nextId + 1
    ensures c'.statusUris == c.statusUris && c'.imeTile == c.imeTile && c'.defaults == c.defaults
  {
    var reg := RegistrationsOf(k, wiring);
    c.(tiles := c.tiles + [Tile(c.nextId, k)],
       receivers := R.RegisterAll(c.receivers, reg.actions, c.nextId),
       observers := R.RegisterAll(c.observers, reg.uris, c.nextId),
       nextId := c.nextId + 1)
  }

  lemma KindsAppend(ts: seq<Tile>, t: Tile)
    ensures Kinds(ts + [t]) == Kinds(ts) + [t.kind]
  {
    assert forall i :: 0 <= i < |ts| ==> (ts + [t])[i] == ts[i];
  }

  /** Creating one tile; the IME tile is also remembered as mIMETile. */
  function Create(c: Controller, k: TileKind, wiring: Wiring): (c': Controller)
    ensures c'.tiles == c.tiles + [Tile(c.nextId, k)] && c'.nextId == c.nextId + 1
    ensures c'.imeTile == (if k == Ime then Some(c.nextId) else c.imeTile)
    ensures c'.statusUris == c.statusUris && c'.defaults == c.defaults
  {
    if k == Ime then AddTile(c, k, wiring).(imeTile := Some(c.nextId)) else AddTile(c, k, wiring)
  }

  /** Creating tiles of the given kinds, one after the other. */
  function CreateAll(c: Controller, ks: seq<TileKind>, wiring: Wiring): (c': Controller)
    ensures c'.statusUris == c.statusUris && c'.defaults == c.defaults
    decreases |ks|
  {
    if |ks| == 0 then c else CreateAll(Create(c, ks[0], wiring), ks[1..], wiring)
  }

  /** The tiles created are exactly of the kinds asked for, in that order, after the ones
      already there. */
  lemma {:induction false} CreateAllKinds(c: Controller, ks: seq<TileKind>, wiring: Wiring)
    ensures Kinds(CreateAll(c, ks, wiring).tiles) == Kinds(c.tiles) + ks
    decreases |ks|
  {
    if |ks| > 0 {
      var c1 := Create(c, ks[0], wiring);
      CreateAllKinds(c1, ks[1..], wiring);
      KindsAppend(c.tiles, Tile(c.nextId, ks[0]));
      assert [ks[0]] + ks[1..] == ks;
    }
  }

  /** mIMETile is set exactly when an IME tile is among those created (or was set before). */
  lemma {:induction false} CreateAllIme(c: Controller, ks: seq<TileKind>, wiring: Wiring)
    ensures CreateAll(c, ks, wiring).imeTile.Some? <==> c.imeTile.Some? || Ime in ks
    decreases |ks|
  {
    if |ks| > 0 {
      CreateAllIme(Create(c, ks[0], wiring), ks[1..], wiring);
      assert Ime in ks <==> ks[0] == Ime || Ime in ks[1..];
    }
  }

  /** The dynamic tiles loadTiles appends, in order: alarm, IME, USB tether. */
  function Dynamic(caps: Capabilities, settings: Settings): (ks: seq<TileKind>)
    ensures forall i :: 0 <= i < |ks| ==> IsDynamic(ks[i])
    ensures Alarm in ks <==> GetInt(settings, QsDynamicAlarm, 1) == 1
    ensures Ime in ks <==> caps.imeSwitcher && GetInt(settings, QsDynamicIme, 1) == 1
    ensures UsbTether in ks <==> caps.usbTether && GetInt(settings, QsDynamicUsbTether, 1) == 1
    ensures Distinct(ks)
  {
    (if GetInt(settings, QsDynamicAlarm, 1) == 1 then [Alarm] else [])
    + (if caps.imeSwitcher && GetInt(settings, QsDynamicIme, 1) == 1 then [Ime] else [])
    + (if caps.usbTether && GetInt(settings, QsDynamicUsbTether, 1) == 1 then [UsbTether] else [])
  }

  /** The tile string loadTiles splits: the stored one, or the filtered defaults joined. */
  function TileString(defaults: seq<string>, settings: Settings): string {
    match GetString(settings, QuickSettingsTiles)
    case Some(s) => s
    case None => Join(defaults)
  }

  /** The names loadTiles creates tiles for. */
  function LoadedNames(defaults: seq<string>, caps: Capabilities, settings: Settings): seq<string> {
    JavaSplit(TileString(FilterDefaults(defaults, caps), settings))
  }

  /** What loadTiles does before creating any tile: filter mDefaultTiles in place, forget
      mIMETile, and watch SYSTEM_PROFILES_ENABLED when the profile tile is named (even when
      no profile tile is made). */
  function Prepared(c: Controller, names: seq<string>): (c0: Controller)
    ensures c0.tiles == c.tiles && c0.nextId == c.nextId && c0.imeTile == None
    ensures c0.receivers == c.receivers && c0.observers == c.observers && c0.defaults == c.defaults
    ensures c0.statusUris - c.statusUris <= {ProfilesUri}
  {
    var profile: set<Uri> := if NameOf(Profile) in names then {ProfilesUri} else {};
    c.(imeTile := None, statusUris := c.statusUris + profile)
  }

  /** The kinds loadTiles creates, in order: the tile each allowed name asks for (if any),
      then the dynamic tiles. */
  function ToCreate(names: seq<string>, caps: Capabilities, settings: Settings): (ks: seq<TileKind>)
    ensures forall k :: k in ks <==> k in Wanted(names, caps, settings) || k in Dynamic(caps, settings)
  {
    Wanted(names, caps, settings) + Dynamic(caps, settings)
  }

  /** The loop of loadTiles over a list of names, then the dynamic tiles. */
  function Load(c: Controller, caps: Capabilities, names: seq<string>, settings: Settings, wiring: Wiring): (c': Controller)
    ensures c'.defaults == c.defaults
  {
    CreateAll(Prepared(c, names), ToCreate(names, caps, settings), wiring)
  }

  /** Loading into an empty tile list creates exactly the kinds to create, in order. */
  lemma LoadKinds(c: Controller, caps: Capabilities, names: seq<string>, settings: Settings, wiring: Wiring)
    requires c.tiles == []
    ensures Kinds(Load(c, caps, names, settings, wiring).tiles) == ToCreate(names, caps, settings)
  {
    var ks := ToCreate(names, caps, settings);
    CreateAllKinds(Prepared(c, names), ks, wiring);
    EmptyPrefix(ks);
  }

  /** loadTiles: the names of the tile string are taken in order, each creating the tile it
      asks for (if any); then the dynamic tiles. */
  function LoadTiles(c: Controller, caps: Capabilities, settings: Settings, wiring: Wiring): (c': Controller)
    ensures c'.defaults == FilterDefaults(c.defaults, caps)
  {
    Load(c.(defaults := FilterDefaults(c.defaults, caps)), caps, LoadedNames(c.defaults, caps, settings), settings, wiring)
  }

  /** setupQuickSettings: clear the tile list and every registry, then load. */
  function Setup(c: Controller, caps: Capabilities, settings: Settings, wiring: Wiring): (c': Controller)
    ensures c'.defaults == FilterDefaults(c.defaults, caps)
  {
    LoadTiles(Cleared(c), caps, settings, wiring)
  }

  /** The controller setup hands to loadTiles: nothing built, nothing registered. */
  function Cleared(c: Controller): (l: Controller)
    ensures l.tiles == [] && l.receivers == map[] && l.observers == map[] && l.statusUris == {}
    ensures l.defaults == c.defaults && l.nextId == c.nextId && l.imeTile == c.imeTile
  {
    c.(tiles := [], receivers := map[], observers := map[], statusUris := {})
  }

  /** What setup builds: the wanted kinds of the loaded names, then the dynamic tiles. */
  lemma SetupBuilds(c: Controller, caps: Capabilities, settings: Settings, wiring: Wiring)
    ensures Kinds(Setup(c, caps, settings, wiring).tiles) == ToCreate(LoadedNames(c.defaults, caps, settings), caps, settings)
  {
    var x := Cleared(c).(defaults := FilterDefaults(c.defaults, caps));
    SetupLoads(c, caps, settings, wiring);
    LoadKinds(x, caps, LoadedNames(c.defaults, caps, settings), settings, wiring);
  }

  lemma EmptyPrefix(s: seq<TileKind>)
    ensures Kinds([]) + s == s
  {
  }

  /** A reload loads the loaded names into a cleared controller holding the filtered
      defaults. */
  lemma SetupLoads(c: Controller, caps: Capabilities, settings: Settings, wiring: Wiring)
    ensures var x := Cleared(c).(defaults := FilterDefaults(c.defaults, caps));
      x.tiles == [] && Setup(c, caps, settings, wiring) == Load(x, caps, LoadedNames(c.defaults, caps, settings), settings, wiring)
  {
  }

  /** The only status URI a reload watches is SYSTEM_PROFILES_ENABLED, exactly when the
      profile tile is named, whether or not a profile tile is created. */
  lemma SetupStatusUris(c: Controller, caps: Capabilities, settings: Settings, wiring: Wiring)
    ensures Setup(c, caps, settings, wiring).statusUris
      == if NameOf(Profile) in LoadedNames(c.defaults, caps, settings) then {ProfilesUri} else {}
  {
  }

  /** Reloads are not cumulative: what setup builds depends on the default list and the
      creation counter only, never on the tiles or registrations it replaces. */
  lemma SetupForgetsPrevious(c1: Controller, c2: Controller, caps: Capabilities, settings: Settings, wiring: Wiring)
    requires c1.defaults == c2.defaults && c1.nextId == c2.nextId
    ensures Setup(c1, caps, settings, wiring) == Setup(c2, caps, settings, wiring)
  {
    assert Cleared(c1).(imeTile := None) == Cleared(c2).(imeTile := None);
  }

  /** With a default list free of repeats, reloading again builds the same kinds of tiles. */
  lemma SetupTwiceSameKinds(c: Controller, caps: Capabilities, settings: Settings, wiring: Wiring)
    requires NoRepeats(c.defaults)
    ensures var once := Setup(c, caps, settings, wiring);
      Kinds(Setup(once, caps, settings, wiring).tiles) == Kinds(once.tiles)
  {
    var once := Setup(c, caps, settings, wiring);
    FilterDefaultsIdempotent(c.defaults, caps);
    SetupBuilds(c, caps, settings, wiring);
    SetupBuilds(once, caps, settings, wiring);
    assert LoadedNames(once.defaults, caps, settings) == LoadedNames(c.defaults, caps, settings);
  }

  /** Which kinds setup builds: every allowed kind the loaded names name, and the dynamic
      tiles, which come after all the others. */
  lemma SetupKinds(c: Controller, caps: Capabilities, settings: Settings, wiring: Wiring, k: TileKind)
    ensures var c' := Setup(c, caps, settings, wiring);
      var names := LoadedNames(c.defaults, caps, settings);
      (k in Kinds(c'.tiles) <==>
         (!IsDynamic(k) && Allowed(k, caps, settings) && NameOf(k) in names) || k in Dynamic(caps, settings))
      && forall i, j :: 0 <= i < j < |c'.tiles| && IsDynamic(c'.tiles[i].kind) ==> IsDynamic(c'.tiles[j].kind)
  {
    var c' := Setup(c, caps, settings, wiring);
    var names := LoadedNames(c.defaults, caps, settings);
    WantedMembers(names, caps, settings, k);
    SetupBuilds(c, caps, settings, wiring);
    var w := Wanted(names, caps, settings);
    var dyn := Dynamic(caps, settings);
    var ks := Kinds(c'.tiles);
    assert ks == w + dyn;
    forall i | 0 <= i < |c'.tiles|
      ensures IsDynamic(c'.tiles[i].kind) <==> i >= |w|
    {
      assert c'.tiles[i].kind == ks[i];
      if i < |w| {
        assert ks[i] == w[i];
      } else {
        assert ks[i] == dyn[i - |w|];
      }
    }
  }

  /** A stored string holding just the name of an allowed kind loads a tile of that kind,
      whatever the default list holds. */
  lemma StoredNameLoads(c: Controller, caps: Capabilities, settings: Settings, wiring: Wiring, k: TileKind)
    requires !IsDynamic(k) && Allowed(k, caps, settings)
    requires GetString(settings, QuickSettingsTiles) == Some(NameOf(k))
    ensures k in Kinds(Setup(c, caps, settings, wiring).tiles)
  {
    StoredNamesLoaded(c.defaults, caps, settings, NameOf(k));
    SetupKinds(c, caps, settings, wiring, k);
  }

  /** Filtering the defaults for LTE does not stop a stored string from naming LTE: the tile
      is created whether or not the device supports LTE. */
  lemma StoredLteStillLoads(c: Controller, caps: Capabilities, settings: Settings, wiring: Wiring)
    requires GetString(settings, QuickSettingsTiles) == Some(NameOf(Lte))
    ensures Lte in Kinds(Setup(c, caps, settings, wiring).tiles)
  {
    StoredNameLoads(c, caps, settings, wiring, Lte);
  }

  /** With nothing stored, the default list (once filtered) is what gets loaded, in order. */
  lemma DefaultsLoadedWhenNothingStored(c: Controller, caps: Capabilities, settings: Settings, wiring: Wiring)
    requires GetString(settings, QuickSettingsTiles).None?
    requires var d := FilterDefaults(c.defaults, caps);
      |d| >= 1 && NoDelimiter(d) && d[|d| - 1] != ""
    ensures var c' := Setup(c, caps, settings, wiring);
      Kinds(c'.tiles) == Wanted(c'.defaults, caps, settings) + Dynamic(caps, settings)
  {
    DefaultNamesLoaded(c.defaults, caps, settings);
    SetupBuilds(c, caps, settings, wiring);
  }

  /** A stored string without a delimiter is loaded as that one name. */
  lemma StoredNamesLoaded(defaults: seq<string>, caps: Capabilities, settings: Settings, name: string)
    requires GetString(settings, QuickSettingsTiles) == Some(name) && Delimiter !in name
    ensures LoadedNames(defaults, caps, settings) == [name]
  {
  }

  /** With nothing stored, the names loaded are the filtered defaults, provided they survive
      the join and split. */
  lemma DefaultNamesLoaded(defaults: seq<string>, caps: Capabilities, settings: Settings)
    requires GetString(settings, QuickSettingsTiles).None?
    requires var d := FilterDefaults(defaults, caps);
      |d| >= 1 && NoDelimiter(d) && d[|d| - 1] != ""
    ensures LoadedNames(defaults, caps, settings) == FilterDefaults(defaults, caps)
  {
    JavaSplitJoin(FilterDefaults(defaults, caps));
  }
}
