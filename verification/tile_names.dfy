/** Quick-settings tile kinds, their stored names, and the '|'-separated tile string:
    TextUtils.join(TILE_DELIMITER, list) and String.split("\\|") with Java's semantics. */
module TileNames {
  import opened Wrappers

  /** Every tile the controller can create: the 25 that can be listed in the tile string,
      then the three dynamic ones (AlarmTile, InputMethodTile, UsbTetherTile). */
  datatype TileKind =
    | User | Battery | Settings | Wifi | Gps | Bluetooth | Brightness | Ringer | Sync | WifiAp
    | ScreenTimeout | MobileData | Lockscreen | NetworkMode | AutoRotate | Airplane | Torch
    | Sleep | Profile | Nfc | Lte | Time | QuietHours | Volume | ExpandedDesktop
    | Alarm | Ime | UsbTether

  predicate IsDynamic(k: TileKind) {
    k == Alarm || k == Ime || k == UsbTether
  }

  /** TILE_DELIMITER. */
  const Delimiter: char := '|'

  /** The QSConstants.TILE_* names (the dynamic kinds have no name: they are never listed). */
  function NameOf(k: TileKind): (name: string)
    requires !IsDynamic(k)
    ensures Delimiter !in name
  {
    match k
    case User => "toggleUser"
    case Battery => "toggleBattery"
    case Settings => "toggleSettings"
    case Wifi => "toggleWifi"
    case Gps => "toggleGPS"
    case Bluetooth => "toggleBluetooth"
    case Brightness => "toggleBrightness"
    case Ringer => "toggleSound"
    case Sync => "toggleSync"
    case WifiAp => "toggleWifiAp"
    case ScreenTimeout => "toggleScreenTimeout"
    case MobileData => "toggleMobileData"
    case Lockscreen => "toggleLockScreen"
    case NetworkMode => "toggleNetworkMode"
    case AutoRotate => "toggleAutoRotate"
    case Airplane => "toggleAirplane"
    case Torch => "toggleFlashlight"
    case Sleep => "toggleSleepMode"
    case Profile => "toggleProfile"
    case Nfc => "toggleNfc"
    case Lte => "toggleLte"
    case Time => "toggleTime"
    case QuietHours => "toggleQuietHours"
    case Volume => "toggleVolume"
    case ExpandedDesktop => "toggleExpandedDesktop"
  }

  /** The inverse lookup, in the order loadTiles tests the names: which listed kind a
      stored name denotes, if any. The chain is cut into four functions only to keep each
      proof small. */
  function KindNamed(name: string): (k: Option<TileKind>)
    ensures k.Some? ==> !IsDynamic(k.value) && NameOf(k.value) == name
  {
    if name == "toggleUser" then Some(User)
    else if name == "toggleBattery" then Some(Battery)
    else if name == "toggleSettings" then Some(Settings)
    else if name == "toggleWifi" then Some(Wifi)
    else if name == "toggleGPS" then Some(Gps)
    else if name == "toggleBluetooth" then Some(Bluetooth)
    else if name == "toggleBrightness" then Some(Brightness)
    else KindNamedFromRinger(name)
  }

  /** The chain of KindNamed, from the sound name on. */
  function KindNamedFromRinger(name: string): (k: Option<TileKind>)
    ensures k.Some? ==> !IsDynamic(k.value) && NameOf(k.value) == name
  {
    if name == "toggleSound" then Some(Ringer)
    else if name == "toggleSync" then Some(Sync)
    else if name == "toggleWifiAp" then Some(WifiAp)
    else if name == "toggleScreenTimeout" then Some(ScreenTimeout)
    else if name == "toggleMobileData" then Some(MobileData)
    else if name == "toggleLockScreen" then Some(Lockscreen)
    else KindNamedFromNetworkMode(name)
  }

  /** The chain of KindNamed, from the network-mode name on. */
  function KindNamedFromNetworkMode(name: string): (k: Option<TileKind>)
    ensures k.Some? ==> !IsDynamic(k.value) && NameOf(k.value) == name
  {
    if name == "toggleNetworkMode" then Some(NetworkMode)
    else if name == "toggleAutoRotate" then Some(AutoRotate)
    else if name == "toggleAirplane" then Some(Airplane)
    else if name == "toggleFlashlight" then Some(Torch)
    else if name == "toggleSleepMode" then Some(Sleep)
    else if name == "toggleProfile" then Some(Profile)
    else KindNamedFromNfc(name)
  }

  /** The chain of KindNamed, from the NFC name on. */
  function KindNamedFromNfc(name: string): (k: Option<TileKind>)
    ensures k.Some? ==> !IsDynamic(k.value) && NameOf(k.value) == name
  {
    if name == "toggleNfc" then Some(Nfc)
    else if name == "toggleLte" then Some(Lte)
    else if name == "toggleTime" then Some(Time)
    else if name == "toggleQuietHours" then Some(QuietHours)
    else if name == "toggleVolume" then Some(Volume)
    else if name == "toggleExpandedDesktop" then Some(ExpandedDesktop)
    else None
  }

  /** Which of the four functions of the lookup chain tests the name of a kind. */
  function Quarter(k: TileKind): (q: nat)
    requires !IsDynamic(k)
    ensures q < 4
  {
    match k
    case User | Battery | Settings | Wifi | Gps | Bluetooth | Brightness => 0
    case Ringer | Sync | WifiAp | ScreenTimeout | MobileData | Lockscreen => 1
    case NetworkMode | AutoRotate | Airplane | Torch | Sleep | Profile => 2
    case Nfc | Lte | Time | QuietHours | Volume | ExpandedDesktop => 3
  }

  /** The names of the later kinds fail every test of KindNamed before it hands on. */
  lemma {:induction false} PassesFirst(k: TileKind)
    requires !IsDynamic(k) && Quarter(k) > 0
    ensures KindNamed(NameOf(k)) == KindNamedFromRinger(NameOf(k))
  {
    match k
    case Ringer =>
    case Sync =>
    case WifiAp =>
    case ScreenTimeout =>
    case MobileData =>
    case Lockscreen =>
    case NetworkMode =>
    case AutoRotate =>
    case Airplane =>
    case Torch =>
    case Sleep =>
    case Profile =>
    case Nfc =>
    case Lte =>
    case Time =>
    case QuietHours =>
    case Volume =>
    case ExpandedDesktop =>
  }

  /** The names of the later kinds fail every test of KindNamedFromRinger before it hands on. */
  lemma {:induction false} PassesFromRinger(k: TileKind)
    requires !IsDynamic(k) && Quarter(k) > 1
    ensures KindNamedFromRinger(NameOf(k)) == KindNamedFromNetworkMode(NameOf(k))
  {
    match k
    case NetworkMode =>
    case AutoRotate =>
    case Airplane =>
    case Torch =>
    case Sleep =>
    case Profile =>
    case Nfc =>
    case Lte =>
    case Time =>
    case QuietHours =>
    case Volume =>
    case ExpandedDesktop =>
  }

  /** The names of the later kinds fail every test of KindNamedFromNetworkMode before it hands on. */
  lemma {:induction false} PassesFromNetworkMode(k: TileKind)
    requires !IsDynamic(k) && Quarter(k) > 2
    ensures KindNamedFromNetworkMode(NameOf(k)) == KindNamedFromNfc(NameOf(k))
  {
    match k
    case Nfc =>
    case Lte =>
    case Time =>
    case QuietHours =>
    case Volume =>
    case ExpandedDesktop =>
  }

  /** KindNamed finds the kinds of its own quarter of the chain. */
  lemma {:induction false} FindsFirst(k: TileKind)
    requires !IsDynamic(k) && Quarter(k) == 0
    ensures KindNamed(NameOf(k)) == Some(k)
  {
    match k
    case User =>
    case Battery =>
    case Settings =>
    case Wifi =>
    case Gps =>
    case Bluetooth =>
    case Brightness =>
  }

  /** KindNamedFromRinger finds the kinds of its own quarter of the chain. */
  lemma {:induction false} FindsFromRinger(k: TileKind)
    requires !IsDynamic(k) && Quarter(k) == 1
    ensures KindNamedFromRinger(NameOf(k)) == Some(k)
  {
    match k
    case Ringer =>
    case Sync =>
    case WifiAp =>
    case ScreenTimeout =>
    case MobileData =>
    case Lockscreen =>
  }

  /** KindNamedFromNetworkMode finds the kinds of its own quarter of the chain. */
  lemma {:induction false} FindsFromNetworkMode(k: TileKind)
    requires !IsDynamic(k) && Quarter(k) == 2
    ensures KindNamedFromNetworkMode(NameOf(k)) == Some(k)
  {
    match k
    case NetworkMode =>
    case AutoRotate =>
    case Airplane =>
    case Torch =>
    case Sleep =>
    case Profile =>
  }

  /** KindNamedFromNfc finds the kinds of its own quarter of the chain. */
  lemma {:induction false} FindsFromNfc(k: TileKind)
    requires !IsDynamic(k) && Quarter(k) == 3
    ensures KindNamedFromNfc(NameOf(k)) == Some(k)
  {
    match k
    case Nfc =>
    case Lte =>
    case Time =>
    case QuietHours =>
    case Volume =>
    case ExpandedDesktop =>
  }

  /** Distinct kinds have distinct names, so a name denotes at most one kind. */
  lemma NamesIdentifyKinds(k: TileKind)
    requires !IsDynamic(k)
    ensures KindNamed(NameOf(k)) == Some(k)
  {
    var q := Quarter(k);
    if q == 0 {
      FindsFirst(k);
    } else {
      PassesFirst(k);
      if q == 1 {
        FindsFromRinger(k);
      } else {
        PassesFromRinger(k);
        if q == 2 {
          FindsFromNetworkMode(k);
        } else {
          PassesFromNetworkMode(k);
          FindsFromNfc(k);
        }
      }
    }
  }

  lemma NameOfInjective(a: TileKind, b: TileKind)
    requires !IsDynamic(a) && !IsDynamic(b)
    ensures NameOf(a) == NameOf(b) <==> a == b
  {
    NamesIdentifyKinds(a);
    NamesIdentifyKinds(b);
  }

  /** TextUtils.join(TILE_DELIMITER, names). */
  predicate NoDelimiter(names: seq<string>) {
    forall i :: 0 <= i < |names| ==> Delimiter !in names[i]
  }

  /** TextUtils.join(TILE_DELIMITER, names): the names in order, one delimiter between each
      two. */
  function Join(names: seq<string>): (s: string)
    ensures |names| >= 1 ==> names[0] <= s
    decreases |names|
  {
    if |names| == 0 then ""
    else if |names| == 1 then names[0]
    else names[0] + [Delimiter] + Join(names[1..])
  }

  /** Joining delimiter-free names puts exactly one delimiter between each two: |names| - 1 in
      all, and none for an empty list. */
  lemma {:induction false} JoinCountsDelimiters(names: seq<string>)
    requires NoDelimiter(names)
    ensures multiset(Join(names))[Delimiter] == if |names| == 0 then 0 else |names| - 1
    decreases |names|
  {
    if |names| >= 2 {
      var rest := Join(names[1..]);
      assert names[1..][0] == names[1];
      forall i | 0 <= i < |names[1..]|
        ensures Delimiter !in names[1..][i]
      {
        assert names[1..][i] == names[i + 1];
      }
      JoinCountsDelimiters(names[1..]);
      assert Delimiter !in names[0];
      assert multiset(names[0] + [Delimiter] + rest) == multiset(names[0]) + multiset([Delimiter]) + multiset(rest);
    } else if |names| == 1 {
      assert Delimiter !in names[0];
    }
  }

  lemma {:induction false} JoinConsChar(c: char, x: string, ys: seq<string>)
    ensures Join([[c] + x] + ys) == [c] + Join([x] + ys)
  {
    var l := [[c] + x] + ys;
    var r := [x] + ys;
    assert l[1..] == ys && r[1..] == ys;
  }

  /** The pieces between delimiters, every one kept (the regex split before Java drops the
      trailing empty pieces); joining them gives the string back. */
  function SplitAll(s: string): (pieces: seq<string>)
    ensures |pieces| >= 1 && NoDelimiter(pieces)
    ensures Join(pieces) == s
    ensures |pieces| == 1 <==> Delimiter !in s
    decreases |s|
  {
    if |s| == 0 then [""]
    else if s[0] == Delimiter then
      var rest := SplitAll(s[1..]);
      assert s == [s[0]] + s[1..];
      [""] + rest
    else
      var rest := SplitAll(s[1..]);
      JoinConsChar(s[0], rest[0], rest[1..]);
      assert [rest[0]] + rest[1..] == rest;
      assert s == [s[0]] + s[1..];
      [[s[0]] + rest[0]] + rest[1..]
  }

  /** The longest prefix whose last element is not empty. */
  function DropTrailingEmpty(pieces: seq<string>): (r: seq<string>)
    ensures |r| <= |pieces| && r == pieces[..|r|]
    ensures |r| == 0 || r[|r| - 1] != ""
    ensures forall i :: |r| <= i < |pieces| ==> pieces[i] == ""
    decreases |pieces|
  {
    if |pieces| > 0 && pieces[|pieces| - 1] == "" then DropTrailingEmpty(pieces[..|pieces| - 1])
    else pieces
  }

  /** String.split("\\|"): with no delimiter the string itself is the only piece; otherwise
      the pieces, with trailing empty ones removed. */
  function JavaSplit(s: string): (names: seq<string>)
    ensures NoDelimiter(names)
    ensures Delimiter !in s ==> names == [s]
  {
    var pieces := SplitAll(s);
    if |pieces| == 1 then pieces else DropTrailingEmpty(pieces)
  }

  /** Splitting a string that starts with a delimiter-free piece and a delimiter. */
  lemma {:induction false} SplitAfterPiece(a: string, b: string)
    requires Delimiter !in a
    ensures SplitAll(a + [Delimiter] + b) == [a] + SplitAll(b)
    decreases |a|
  {
    if |a| == 0 {
      assert a + [Delimiter] + b == [Delimiter] + b;
      assert ([Delimiter] + b)[1..] == b;
    } else {
      var s := a + [Delimiter] + b;
      assert s[0] == a[0];
      assert s[1..] == a[1..] + [Delimiter] + b;
      SplitAfterPiece(a[1..], b);
      assert [a[0]] + a[1..] == a;
    }
  }

  /** Splitting undoes joining for delimiter-free names. */
  lemma {:induction false} SplitAllJoin(names: seq<string>)
    requires |names| >= 1 && NoDelimiter(names)
    ensures SplitAll(Join(names)) == names
    decreases |names|
  {
    if |names| == 1 {
      assert Delimiter !in names[0];
      assert SplitAll(names[0]) == [Join(SplitAll(names[0]))];
    } else {
      SplitAfterPiece(names[0], Join(names[1..]));
      SplitAllJoin(names[1..]);
      assert [names[0]] + names[1..] == names;
    }
  }

  /** The stored tile string round-trips through Java's split, provided no name holds the
      delimiter and the list does not end in an empty name. */
  lemma JavaSplitJoin(names: seq<string>)
    requires |names| >= 1 && NoDelimiter(names) && names[|names| - 1] != ""
    ensures JavaSplit(Join(names)) == names
  {
    SplitAllJoin(names);
  }

  /** An empty list joins to the empty string, which splits into one empty name. */
  lemma JavaSplitEmpty()
    ensures Join([]) == "" && JavaSplit("") == [""]
  {
  }

  /** A string of delimiters only splits into no names at all. */
  lemma JavaSplitOnlyDelimiters()
    ensures JavaSplit("||") == []
  {
    assert "||"[1..] == "|";
    assert "|"[1..] == "";
    assert SplitAll("||") == ["", "", ""];
  }
}
