/** WiFiTile: the icon and label chosen on each Wi-Fi signal callback, and the click toggle. */
module WifiTile {
  import opened Wrappers

  /** WifiManager.getWifiState(). */
  datatype WifiState = Disabling | Disabled | Enabling | Enabled | Unknown

  /** WifiManager.isWifiEnabled(): the state is WIFI_STATE_ENABLED. */
  predicate IsWifiEnabled(s: WifiState) {
    s == Enabled
  }

  datatype Icon = SignalIcon(id: int) | Wifi4 | Wifi0

  datatype Label =
    | Description(text: string)  // the network description
    | ConnectedLabel             // quick_settings_wifi_label_connected
    | WifiLabel                  // quick_settings_wifi_label
    | TurningOnLabel             // quick_settings_wifi_label_turnon
    | TurningOffLabel            // quick_settings_wifi_label_turnoff
    | ErrorLabel                 // quick_settings_wifi_label_error
    | OffLabel                   // quick_settings_wifi_off_label

  datatype Face = Face(icon: Icon, caption: Label)

  /** onWifiSignalChanged(enabled, iconId, description), in the order the source tests:
      connected, then Wi-Fi enabled, then the transitional and unknown states. */
  function OnWifiSignalChanged(connected: bool, iconId: int, description: Option<string>, state: WifiState): (f: Face)
    ensures connected ==> f.icon == SignalIcon(iconId)
    ensures !connected ==> !f.icon.SignalIcon?
    ensures f.caption.Description? ==> connected && description == Some(f.caption.text)
  {
    if connected then
      Face(SignalIcon(iconId), match description case Some(d) => Description(d) case None => ConnectedLabel)
    else if IsWifiEnabled(state) then Face(Wifi4, WifiLabel)
    else if state == Enabling then Face(Wifi4, TurningOnLabel)
    else if state == Disabling then Face(Wifi0, TurningOffLabel)
    else if state == Unknown then Face(Wifi0, ErrorLabel)
    else Face(Wifi0, OffLabel)
  }

  /** The same choice as a table over the manager's state, for a tile not connected. */
  function Disconnected(state: WifiState): Face {
    match state
    case Enabled => Face(Wifi4, WifiLabel)
    case Enabling => Face(Wifi4, TurningOnLabel)
    case Disabling => Face(Wifi0, TurningOffLabel)
    case Unknown => Face(Wifi0, ErrorLabel)
    case Disabled => Face(Wifi0, OffLabel)
  }

  /** The callback picks exactly one row of the table: the signal when connected, otherwise the
      state's row; every state has its own label, so the label tells the state. */
  lemma MatchesTable(connected: bool, iconId: int, description: Option<string>, state: WifiState)
    ensures OnWifiSignalChanged(connected, iconId, description, state)
      == if connected then Face(SignalIcon(iconId), if description.Some? then Description(description.value) else ConnectedLabel)
         else Disconnected(state)
    ensures forall s1, s2 :: Disconnected(s1).caption == Disconnected(s2).caption ==> s1 == s2
  {
  }

  /** The wifi_4 icon shows when not connected exactly while Wi-Fi is on or turning on. */
  lemma Wifi4WhileOn(iconId: int, description: Option<string>, state: WifiState)
    ensures OnWifiSignalChanged(false, iconId, description, state).icon == Wifi4
      <==> state == Enabled || state == Enabling
  {
  }

  /** The effect of a click: setWifiEnabled(!isWifiEnabled()). */
  function OnClick(state: WifiState): (enable: bool)
    ensures enable <==> state != Enabled
    ensures enable <==> Disconnected(state).caption != WifiLabel
  {
    !IsWifiEnabled(state)
  }

  /** A click while Wi-Fi is still turning on asks to turn it on again, since the manager does
      not count it as enabled yet; a click while it is turning off asks to turn it on. */
  lemma ClickDuringTransitions()
    ensures OnClick(Enabling) && OnClick(Disabling) && !OnClick(Enabled)
  {
  }

  /** What a click does, read off what a disconnected tile shows: it asks to turn Wi-Fi off
      exactly when the tile shows the plain Wi-Fi label, so after the callback has reported
      the enabled state a click disables, and after any other state it enables, even while the
      wifi_4 icon already shows. */
  lemma ClickFollowsFace(iconId: int, description: Option<string>, state: WifiState)
    ensures var f := OnWifiSignalChanged(false, iconId, description, state);
      (OnClick(state) <==> f.caption != WifiLabel)
      && (f.icon == Wifi4 && OnClick(state) <==> state == Enabling)
  {
  }

  /** onMobileDataSignalChanged: the face is left as it was. */
  function OnMobileDataSignalChanged(f: Face, enabled: bool, iconId: int, description: Option<string>): (f': Face)
    ensures f' == f
  {
    f
  }
}
