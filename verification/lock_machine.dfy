/** The unlock state machine shared by the four lock skins, with touch handling, the per-frame
    update (waveUpdateFrame, run from onDraw), the lock timer, Eluga's add-wave callback and
    reset(). Drawing and animation are not modelled; what a frame tells the outside world
    (trigger, grabbed-state change, vibration, Acer's shade scale, Eluga's waves) is an Output. */
module LockMachine {
  import opened Wrappers
  import opened LockSkins
  import W = ElugaWaves

  /** OnTriggerListener.NO_HANDLE and CENTER_HANDLE. */
  datatype Handle = NoHandle | CenterHandle

  function HandleCode(h: Handle): int {
    match h
    case NoHandle => 0
    case CenterHandle => 10
  }

  /** A touch sample, with its geometry already evaluated: the y coordinate, the rounded-up
      distance to the lock centre, and the distance to the halo drawable. */
  datatype Touch = Touch(y: real, dragDistance: nat, haloDistance: real)

  datatype Action = Down | Move | Up | Cancel | OtherAction

  /** What is fixed once a view is built: its skin, density parameters and halo width. */
  datatype Config = Config(skin: Skin, metrics: Metrics, haloWidth: nat)

  predicate ValidConfig(cfg: Config) {
    SkinOf(cfg.metrics) == cfg.skin && WellShaped(cfg.metrics)
  }

  function ConfigFor(skin: Skin, dpi: int, haloWidth: nat): (cfg: Config)
    ensures ValidConfig(cfg) && cfg.skin == skin
  {
    Config(skin, MetricsFor(skin, dpi), haloWidth)
  }

  /** The view's mutable fields: mLockState, mFingerDown, mGrabbedState, the last touch
      (mMouseX/mMouseY), mLockCenterY, the number of posted lock-timer callbacks, whether a
      trigger listener is set, and Eluga's wave loop. */
  datatype View = View(
    lock: LockState,
    fingerDown: bool,
    grabbed: Handle,
    mouse: Touch,
    centerY: real,
    lockTimers: nat,
    listener: bool,
    waves: W.Waves)

  const NewView: View :=
    View(ResetLock, false, NoHandle, Touch(0.0, 0, 0.0), 0.0, 0, false, W.Initial)

  datatype Output =
    | Trigger                              // onTrigger(view, CENTER_HANDLE)
    | GrabbedStateChange(handle: Handle)   // onGrabbedStateChange(view, handle)
    | Vibrate(ms: int)
    | HaloSentHome(y: real)                // RESET_LOCK: the halo animates back to its rest position
    | ShadesScaled(scaleX: real)           // Acer: scaleX given to its three shades
    | FinalWaves(delays: seq<int>)         // Eluga: start delays of the closing wave animations
    | WaveLaunched(index: int)             // Eluga: the add-wave callback launched mLightWaves[index]

  datatype Reaction = Reaction(view: View, out: seq<Output>)

  /** Number of onTrigger calls in an output sequence. */
  function Triggers(out: seq<Output>): nat {
    multiset(out)[Trigger]
  }

  /** The skin's unlock test on the last touch. */
  predicate Past(cfg: Config, v: View) {
    PastThreshold(cfg.metrics, v.mouse.y, v.centerY, v.mouse.dragDistance)
  }

  /** Java long division (truncates toward zero). */
  function JavaDiv(a: int, b: int): int
    requires b > 0
  {
    if a >= 0 then a / b else -((-a) / b)
  }

  /** Eluga's closing waves: mLightWaves[n] starts after 1000 * (6 + n - mCurrentWave) / 10 ms. */
  function FinalWaveDelays(current: int): (d: seq<int>)
    requires 0 <= current < W.WaveCount
    ensures |d| == W.WaveCount
    ensures forall n :: 0 <= n < |d| ==> d[n] == 100 * (6 + n - current) && d[n] > 0
  {
    seq(W.WaveCount, n requires 0 <= n < W.WaveCount => JavaDiv(1000 * (6 + n - current), 10))
  }

  /** The components a frame never touches. */
  predicate SameInputs(v: View, v': View) {
    v'.fingerDown == v.fingerDown && v'.grabbed == v.grabbed && v'.mouse == v.mouse
    && v'.centerY == v.centerY && v'.listener == v.listener
  }

  /** waveUpdateFrame, run on every draw with the last touch and finger state. */
  function Frame(cfg: Config, v: View): (r: Reaction)
    requires ValidConfig(cfg) && W.Valid(v.waves)
    ensures SameInputs(v, r.view) && W.Valid(r.view.waves)
    ensures v.lock == ResetLock ==>
      r.view.lock == Ready && r.view.lockTimers == 0
      && r.out == [HaloSentHome(HaloRestY(cfg.metrics, v.centerY))]
    ensures v.lock == Ready || v.lock == UnlockSuccess ==> r.view.lock == v.lock && r.out == []
    ensures (v.lock == Ready || v.lock == UnlockSuccess) && cfg.skin != Eluga ==> r.view == v
    ensures v.lock == StartAttempt ==> r == Reaction(v.(lock := Attempting), [])
    ensures v.lock == Attempting ==>
      (r.view.lock == UnlockAttempt <==> Past(cfg, v) && !v.fingerDown)
      && (r.view.lock == Attempting || r.view.lock == UnlockAttempt)
      && Triggers(r.out) == 0 && r.view.lockTimers == v.lockTimers
    ensures v.lock == UnlockAttempt && Past(cfg, v) ==>
      r.view.lock == UnlockSuccess && r.view.lockTimers == 1
      && Triggers(r.out) == (if v.listener then 1 else 0)
      && Vibrate(VibrateLong(cfg.skin)) in r.out
    ensures v.lock == UnlockAttempt && !Past(cfg, v) ==> r == Reaction(v.(lock := ResetLock), [])
  {
    var eluga := cfg.skin == Eluga;
    match v.lock
    case ResetLock =>
      Reaction(v.(lock := Ready, lockTimers := 0,
                  waves := if eluga then W.RestoreDelay(v.waves) else v.waves),
               [HaloSentHome(HaloRestY(cfg.metrics, v.centerY))])
    case Ready =>
      Reaction(v.(waves := if eluga then W.RestoreDelay(v.waves) else v.waves), [])
    case StartAttempt =>
      Reaction(v.(lock := Attempting), [])
    case Attempting =>
      var past := Past(cfg, v);
      var next := if past && !v.fingerDown then UnlockAttempt else Attempting;
      var waves :=
        if !eluga then v.waves
        else if past then W.FinishLoop(v.waves)
        else W.StartLoop(v.waves);
      var shades :=
        if cfg.skin != Acer || next == UnlockAttempt then []
        else if past then [ShadesScaled(1.0)]
        else [ShadesScaled(ShadeScale(v.mouse.dragDistance, cfg.metrics.ringRadius))];
      Reaction(v.(lock := next, waves := waves), shades)
    case UnlockAttempt =>
      if Past(cfg, v) then
        var finals := if eluga then [FinalWaves(FinalWaveDelays(v.waves.current))] else [];
        var trigger := if v.listener then [Trigger] else [];
        Reaction(v.(lock := UnlockSuccess, lockTimers := 1),
                 finals + [Vibrate(VibrateLong(cfg.skin))] + trigger)
      else
        Reaction(v.(lock := ResetLock), [])
    case UnlockSuccess =>
      Reaction(v.(waves := if eluga then W.CancelLoop(v.waves) else v.waves), [])
  }

  /** The frame as ElugaView writes it: UNLOCK_SUCCESS cancels the wave loop with
      removeCallbacks alone. It differs from Frame only in the wave record, which it can leave
      stuck; the lock state and every output are Frame's. */
  function FrameAsWritten(cfg: Config, v: View): (r: Reaction)
    requires ValidConfig(cfg) && W.Valid(v.waves)
    ensures r.out == Frame(cfg, v).out
    ensures r.view.(waves := Frame(cfg, v).view.waves) == Frame(cfg, v).view
    ensures cfg.skin == Eluga && v.lock == UnlockSuccess && v.waves.running ==> W.Stuck(r.view.waves)
  {
    if cfg.skin == Eluga && v.lock == UnlockSuccess then
      Reaction(v.(waves := W.CancelLoopAsWritten(v.waves)), [])
    else
      Frame(cfg, v)
  }

  /** setGrabbedState: the listener hears only real changes. */
  function SetGrabbed(v: View, h: Handle): (r: Reaction)
    ensures r.view == v.(grabbed := h)
    ensures r.out == (if h != v.grabbed && v.listener then [GrabbedStateChange(h)] else [])
  {
    if h != v.grabbed then
      Reaction(v.(grabbed := h), if v.listener then [GrabbedStateChange(h)] else [])
    else
      Reaction(v, [])
  }

  /** Whether a touch lands on the halo (getScaledGrabHandleRadius). */
  predicate OnHalo(cfg: Config, t: Touch, accessibility: bool) {
    t.haloDistance <= GrabRadius(cfg.skin, accessibility, cfg.haloWidth)
  }

  /** tryTransitionToStartAttemptState: a touch on the halo grabs it, and only READY moves on. */
  function TryStartAttempt(cfg: Config, v: View, t: Touch, accessibility: bool): (r: Reaction)
    ensures r.view.lock != v.lock <==> v.lock == Ready && OnHalo(cfg, t, accessibility)
    ensures r.view.lock != v.lock ==> r.view.lock == StartAttempt
    ensures OnHalo(cfg, t, accessibility) ==> r.view.grabbed == CenterHandle
    ensures !OnHalo(cfg, t, accessibility) ==> r == Reaction(v, [])
    ensures r.view.(lock := v.lock, grabbed := v.grabbed) == v
    ensures Triggers(r.out) == 0
  {
    if OnHalo(cfg, t, accessibility) then
      var g := SetGrabbed(v, CenterHandle);
      Reaction(g.view.(lock := if v.lock == Ready then StartAttempt else v.lock), g.out)
    else
      Reaction(v, [])
  }

  /** ACTION_UP: the finger lifts, the lock timer is posted, the grab is dropped and one
      frame runs at once. */
  function Release(cfg: Config, v: View): (r: Reaction)
    requires ValidConfig(cfg) && W.Valid(v.waves)
    ensures W.Valid(r.view.waves) && !r.view.fingerDown && r.view.grabbed == NoHandle
    ensures r.view.mouse == v.mouse
  {
    var g := SetGrabbed(v.(fingerDown := false, lockTimers := v.lockTimers + 1), NoHandle);
    var f := Frame(cfg, g.view);
    Reaction(f.view, g.out + f.out)
  }

  datatype TouchReply = TouchReply(reaction: Reaction, handled: bool)

  /** onTouchEvent. */
  function OnTouch(cfg: Config, v: View, a: Action, t: Touch, accessibility: bool): (r: TouchReply)
    requires ValidConfig(cfg) && W.Valid(v.waves)
    ensures r.handled <==> a != OtherAction
    ensures r.reaction.view.mouse == t && W.Valid(r.reaction.view.waves)
    ensures a == Down ==> r.reaction.view.fingerDown && r.reaction.view.lockTimers == 0
    ensures a == Up ==> !r.reaction.view.fingerDown && r.reaction.view.grabbed == NoHandle
    ensures a == Cancel ==> r.reaction == Reaction(v.(mouse := t, fingerDown := false), [])
    ensures a == OtherAction ==> r.reaction == Reaction(v.(mouse := t), [])
    ensures a == Down || a == Move ==> r.reaction == TryStartAttempt(cfg, r.reaction.view.(lock := v.lock, grabbed := v.grabbed), t, accessibility)
  {
    var v0 := v.(mouse := t);
    match a
    case Down =>
      TouchReply(TryStartAttempt(cfg, v0.(lockTimers := 0, fingerDown := true), t, accessibility), true)
    case Move =>
      TouchReply(TryStartAttempt(cfg, v0, t, accessibility), true)
    case Up =>
      TouchReply(Release(cfg, v0), true)
    case Cancel =>
      TouchReply(Reaction(v0.(fingerDown := false), []), true)
    case OtherAction =>
      TouchReply(Reaction(v0, []), false)
  }

  /** One posted mLockTimerActions callback runs (nothing happens when none is posted). */
  function LockTimerFires(cfg: Config, v: View): (r: Reaction)
    ensures r.out == []
    ensures v.lockTimers > 0 ==> r.view.lockTimers == v.lockTimers - 1
    ensures r.view.lock != v.lock ==> v.lockTimers > 0 && TimerResets(cfg.skin, v.lock) && r.view.lock == ResetLock
    ensures v.lockTimers > 0 && TimerResets(cfg.skin, v.lock) ==> r.view.lock == ResetLock
    ensures r.view.(lock := v.lock, lockTimers := v.lockTimers) == v
  {
    if v.lockTimers == 0 then Reaction(v, [])
    else
      var v1 := v.(lockTimers := v.lockTimers - 1);
      Reaction(if TimerResets(cfg.skin, v.lock) then v1.(lock := ResetLock) else v1, [])
  }

  /** One posted mAddWaveAction callback runs (Eluga only). */
  function AddWaveFires(cfg: Config, v: View): (r: Reaction)
    requires W.Valid(v.waves)
    ensures W.Valid(r.view.waves) && r.view.(waves := v.waves) == v
    ensures Triggers(r.out) == 0
    ensures forall o :: o in r.out ==> o == WaveLaunched(v.waves.current)
    ensures r.out != [] ==>
      cfg.skin == Eluga && cfg.metrics.ElugaMetrics? && v.lock == Attempting
      && v.mouse.dragDistance < cfg.metrics.snapRadius && v.waves.delay >= W.WaveDelay
  {
    if cfg.metrics.ElugaMetrics? && cfg.skin == Eluga then
      var t := W.AddWave(v.waves, v.lock == Attempting, v.mouse.dragDistance, cfg.metrics.snapRadius);
      W.StepsKeepValid(v.waves, v.lock == Attempting, v.mouse.dragDistance, cfg.metrics.snapRadius);
      Reaction(v.(waves := t.waves), if t.emitted.Some? then [WaveLaunched(t.emitted.value)] else [])
    else
      Reaction(v, [])
  }

  datatype Event =
    | TouchEvent(action: Action, touch: Touch, accessibility: bool)
    | Draw
    | LockTimer
    | AddWaveTimer
    | ResetCalled
    | SizeChanged(height: real, dragDistance: nat)  // the last touch's distance to the new centre
    | ListenerSet(present: bool)

  /** The edges of the unlock diagram: staying put, falling back to RESET_LOCK, or one step
      forward along RESET_LOCK, READY, START_ATTEMPT, ATTEMPTING, UNLOCK_ATTEMPT, UNLOCK_SUCCESS. */
  predicate Edge(s: LockState, s': LockState) {
    || s' == s
    || s' == ResetLock
    || (s == ResetLock && s' == Ready)
    || (s == Ready && s' == StartAttempt)
    || (s == StartAttempt && s' == Attempting)
    || (s == Attempting && s' == UnlockAttempt)
    || (s == UnlockAttempt && s' == UnlockSuccess)
  }

  /** Whether an event is a grab: a down or move touching the halo. */
  predicate IsGrab(cfg: Config, e: Event) {
    e.TouchEvent? && (e.action == Down || e.action == Move) && OnHalo(cfg, e.touch, e.accessibility)
  }

  /** The view's reaction to one event. onSizeChanged moves the lock centre; the next frame
      measures the last touch against the new centre, so the event carries that distance. */
  function Step(cfg: Config, v: View, e: Event): (r: Reaction)
    requires ValidConfig(cfg) && W.Valid(v.waves)
    ensures W.Valid(r.view.waves)
  {
    match e
    case TouchEvent(a, t, acc) => OnTouch(cfg, v, a, t, acc).reaction
    case Draw => Frame(cfg, v)
    case LockTimer => LockTimerFires(cfg, v)
    case AddWaveTimer => AddWaveFires(cfg, v)
    case ResetCalled => Reaction(v.(lock := ResetLock), [])
    case SizeChanged(h, d) => Reaction(v.(centerY := 0.5 * h, mouse := v.mouse.(dragDistance := d)), [])
    case ListenerSet(p) => Reaction(v.(listener := p), [])
  }

  /** What each kind of event does to the view: a draw runs a frame, a touch records its
      sample, reset() only forces RESET_LOCK, setOnTriggerListener only sets the listener, and
      onSizeChanged moves the centre and re-measures the last touch, emitting nothing. */
  lemma StepEffects(cfg: Config, v: View, e: Event)
    requires ValidConfig(cfg) && W.Valid(v.waves)
    ensures var r := Step(cfg, v, e);
      (e.Draw? ==> r == Frame(cfg, v))
      && (e.TouchEvent? ==> r.view.mouse == e.touch)
      && (e.ResetCalled? ==> r == Reaction(v.(lock := ResetLock), []))
      && (e.SizeChanged? ==>
            r.out == [] && r.view.centerY == 0.5 * e.height && r.view.mouse.dragDistance == e.dragDistance
            && r.view.lock == v.lock && r.view.listener == v.listener)
      && (e.ListenerSet? ==> r == Reaction(v.(listener := e.present), []))
  {
  }

  /** Safety of one frame, in the form the step lemma needs. */
  lemma FrameSafety(cfg: Config, v: View)
    requires ValidConfig(cfg) && W.Valid(v.waves)
    ensures var r := Frame(cfg, v);
      Edge(v.lock, r.view.lock) && r.view.lock != StartAttempt
      && Triggers(r.out) == if v.lock == UnlockAttempt && r.view.lock == UnlockSuccess && v.listener then 1 else 0
  {
  }

  /** Safety of one touch event. */
  lemma TouchSafety(cfg: Config, v: View, a: Action, t: Touch, acc: bool)
    requires ValidConfig(cfg) && W.Valid(v.waves)
    ensures var r := OnTouch(cfg, v, a, t, acc).reaction;
      Edge(v.lock, r.view.lock)
      && (r.view.lock == StartAttempt && v.lock != StartAttempt ==>
            v.lock == Ready && (a == Down || a == Move) && OnHalo(cfg, t, acc))
      && Triggers(r.out) == if v.lock == UnlockAttempt && r.view.lock == UnlockSuccess && v.listener then 1 else 0
  {
    match a
    case Up =>
      assert OnTouch(cfg, v, a, t, acc).reaction == Release(cfg, v.(mouse := t));
      ReleaseSafety(cfg, v.(mouse := t));
    case Down =>
      assert OnTouch(cfg, v, a, t, acc).reaction
        == TryStartAttempt(cfg, v.(mouse := t, lockTimers := 0, fingerDown := true), t, acc);
    case Move =>
      assert OnTouch(cfg, v, a, t, acc).reaction == TryStartAttempt(cfg, v.(mouse := t), t, acc);
    case Cancel =>
    case OtherAction =>
  }

  /** Finger up runs a frame after dropping the grab; the grab change never triggers. */
  lemma ReleaseSafety(cfg: Config, v: View)
    requires ValidConfig(cfg) && W.Valid(v.waves)
    ensures var r := Release(cfg, v);
      Edge(v.lock, r.view.lock) && r.view.lock != StartAttempt
      && Triggers(r.out) == if v.lock == UnlockAttempt && r.view.lock == UnlockSuccess && v.listener then 1 else 0
  {
    var g := SetGrabbed(v.(fingerDown := false, lockTimers := v.lockTimers + 1), NoHandle);
    var f := Frame(cfg, g.view);
    assert Release(cfg, v) == Reaction(f.view, g.out + f.out);
    assert g.view.lock == v.lock && g.view.listener == v.listener;
    FrameSafety(cfg, g.view);
    GrabChangeQuiet(g.view.grabbed == v.grabbed, v.listener, NoHandle, f.out);
  }

  /** The grabbed-state report never counts as a trigger. */
  lemma GrabChangeQuiet(same: bool, listener: bool, h: Handle, rest: seq<Output>)
    ensures var report := if !same && listener then [GrabbedStateChange(h)] else [];
      Triggers(report + rest) == Triggers(rest)
  {
    var report := if !same && listener then [GrabbedStateChange(h)] else [];
    assert multiset(report + rest) == multiset(report) + multiset(rest);
  }

  /** The safety properties of one step: every lock change follows the diagram; START_ATTEMPT
      is entered only from READY by a grab; a trigger is dispatched only on
      UNLOCK_ATTEMPT -> UNLOCK_SUCCESS, exactly once when a listener is set. */
  lemma StepSafety(cfg: Config, v: View, e: Event)
    requires ValidConfig(cfg) && W.Valid(v.waves)
    ensures var r := Step(cfg, v, e);
      Edge(v.lock, r.view.lock)
      && (r.view.lock == StartAttempt && v.lock != StartAttempt ==> v.lock == Ready && IsGrab(cfg, e))
      && Triggers(r.out) == if v.lock == UnlockAttempt && r.view.lock == UnlockSuccess && v.listener then 1 else 0
  {
    match e
    case TouchEvent(a, t, acc) => TouchSafety(cfg, v, a, t, acc);
    case Draw => FrameSafety(cfg, v);
    case LockTimer =>
    case AddWaveTimer =>
    case ResetCalled =>
    case SizeChanged(h, d) =>
    case ListenerSet(p) =>
  }

  /** reset() forces RESET_LOCK from any state, and the next frame makes the view READY. */
  lemma ResetThenFrameIsReady(cfg: Config, v: View)
    requires ValidConfig(cfg) && W.Valid(v.waves)
    ensures var r := Step(cfg, v, ResetCalled);
      r.view.lock == ResetLock && Step(cfg, r.view, Draw).view.lock == Ready
  {
  }
}
