/** QuietHoursTile: the cached enabled flag, its icon, the click that writes the opposite value,
    and the observer that re-reads it. */
module QuietHoursTile {
  import opened Wrappers
  import opened SettingsStore
  import opened TileCommon

  datatype Icon = QuietOn | QuietOff | BaseIcon
  datatype Label = QuietHoursLabel | EnabledLabel

  /** mEnabled, mDrawable and mLabel. */
  datatype State = State(enabled: bool, icon: Icon, caption: Label)

  /** updateTileState: QUIET_HOURS_ENABLED, default 0, read afresh; every field is replaced. */
  function UpdateTileState(prior: State, settings: Settings): (s: State)
    ensures s.enabled <==> GetInt(settings, QuietHoursEnabled, 0) == 1
    ensures s.icon == (if s.enabled then QuietOn else QuietOff)
    ensures s.caption == QuietHoursLabel
    ensures s.icon != BaseIcon && s.caption != EnabledLabel
    ensures s.enabled <==> QuietHoursEnabled in settings && ParseInt(settings[QuietHoursEnabled]) == Some(1)
  {
    var enabled := GetInt(settings, QuietHoursEnabled, 0) == 1;
    State(enabled, if enabled then QuietOn else QuietOff, QuietHoursLabel)
  }

  /** The constructor: the base sets its own icon and label, then updateTileState replaces all
      of them before any click listener exists. */
  function New(settings: Settings): (s: State)
    ensures s.icon != BaseIcon && s.caption != EnabledLabel
    ensures s.enabled <==> GetInt(settings, QuietHoursEnabled, 0) == 1
  {
    UpdateTileState(Base, settings)
  }

  /** What the base constructor leaves in the fields. */
  const Base: State := State(false, BaseIcon, EnabledLabel)

  /** The click: write 0 when the cached state is on, 1 otherwise; the cache is left alone
      until the observer fires. */
  function OnClick(s: State, settings: Settings): (settings': Settings)
    ensures GetInt(settings', QuietHoursEnabled, 0) == (if s.enabled then 0 else 1)
    ensures forall k :: k != QuietHoursEnabled ==> GetInt(settings', k, 0) == GetInt(settings, k, 0)
  {
    PutInt(settings, QuietHoursEnabled, if s.enabled then 0 else 1)
  }

  /** onChangeUri: re-read the state, then redraw. */
  function OnChangeUri(s: State, settings: Settings): (r: (State, seq<Effect>))
    ensures r.0.enabled <==> GetInt(settings, QuietHoursEnabled, 0) == 1
    ensures r.1 == [UpdateView]
  {
    (UpdateTileState(s, settings), [UpdateView])
  }

  /** A click followed by the change notification toggles the tile, as long as the cache
      matched the setting. */
  lemma ClickThenObserverToggles(settings: Settings)
    ensures var s := New(settings);
      var s' := OnChangeUri(s, OnClick(s, settings)).0;
      s'.enabled == !s.enabled && s'.icon != s.icon
  {
  }

  /** Two clicks before the notification arrives write the same value twice: the second click
      does not undo the first. */
  lemma DoubleClickBeforeObserver(settings: Settings)
    ensures var s := New(settings);
      var once := OnClick(s, settings);
      OnChangeUri(s, OnClick(s, once)).0 == OnChangeUri(s, once).0
      && OnChangeUri(s, once).0.enabled != s.enabled
  {
  }

  /** A stored value other than 0 and 1 counts as off, and a click then stores 1. */
  lemma OddValueCountsAsOff(settings: Settings)
    requires GetInt(settings, QuietHoursEnabled, 0) !in {0, 1}
    ensures !New(settings).enabled
    ensures GetInt(OnClick(New(settings), settings), QuietHoursEnabled, 0) == 1
  {
  }
}
