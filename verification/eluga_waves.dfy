/** ElugaView's light-wave loop: the mAddWaveAction callback that re-posts itself while the
    finger stays inside the snap radius, with its delay and wave-index bookkeeping. */
module ElugaWaves {
  import opened Wrappers

  const WaveCount: int := 1
  const WaveDuration: int := 2000
  /** WAVE_DELAY = WAVE_DURATION / WAVE_COUNT (Java long division of positive values). */
  const WaveDelay: int := WaveDuration / WaveCount
  const DelayIncrement: int := 15
  const DelayIncrement2: int := 12

  /** mWavesRunning, mFinishWaves, the number of posted mAddWaveAction callbacks not yet run,
      mWaveTimerDelay and mCurrentWave. */
  datatype Waves = Waves(running: bool, finish: bool, pending: nat, delay: int, current: int)

  /** The field initialisers. */
  const Initial: Waves := Waves(false, false, 0, WaveDelay, 0)

  /** A callback is posted exactly while the loop is marked running. */
  predicate LoopConsistent(w: Waves) {
    w.pending == if w.running then 1 else 0
  }

  /** The loop's invariant: consistent bookkeeping, a wave index inside [0, mWaveCount)
      and a delay never below WAVE_DELAY. */
  predicate Valid(w: Waves) {
    LoopConsistent(w) && 0 <= w.current < WaveCount && w.delay >= WaveDelay
  }

  lemma InitialValid()
    ensures Valid(Initial)
  {
  }

  /** RESET_LOCK and READY frames restore the delay to WAVE_DELAY. */
  function RestoreDelay(w: Waves): (r: Waves)
    ensures r.delay == WaveDelay
    ensures r.(delay := w.delay) == w
  {
    w.(delay := WaveDelay)
  }

  /** ATTEMPTING beyond the snap radius asks the loop to stop at its next tick. */
  function FinishLoop(w: Waves): (r: Waves)
    ensures r.finish && r.(finish := w.finish) == w
  {
    w.(finish := true)
  }

  /** ATTEMPTING inside the snap radius starts a loop only when none is running. */
  function StartLoop(w: Waves): (r: Waves)
    ensures w.running ==> r == w
    ensures !w.running ==> r.running && !r.finish && r.pending == w.pending + 1
    ensures r.delay == w.delay && r.current == w.current
  {
    if !w.running then w.(running := true, finish := false, pending := w.pending + 1) else w
  }

  /** The UNLOCK_SUCCESS frame as written: removeCallbacks(mAddWaveAction) drops the posted
      callback but leaves mWavesRunning as it was. */
  function CancelLoopAsWritten(w: Waves): (r: Waves)
    ensures r.pending == 0 && r.running == w.running
  {
    w.(pending := 0)
  }

  /** The UNLOCK_SUCCESS frame as evidently intended: dropping the callback also ends the
      loop, so the next attempt can start a new one. */
  function CancelLoop(w: Waves): (r: Waves)
    ensures r.pending == 0 && !r.running
    ensures r.delay == w.delay && r.current == w.current
  {
    w.(pending := 0, running := false)
  }

  /** What one run of mAddWaveAction does: the new bookkeeping and the index of the wave it
      launched, if any. */
  datatype Tick = Tick(waves: Waves, emitted: Option<int>)

  /** The wave emission guard: state ATTEMPTING, drag distance strictly inside the snap
      radius and the delay at least WAVE_DELAY. */
  predicate CanEmit(w: Waves, attempting: bool, dragDistance: int, snapRadius: int) {
    attempting && dragDistance < snapRadius && w.delay >= WaveDelay
  }

  /** One run of mAddWaveAction (nothing runs when no callback is posted). */
  function AddWave(w: Waves, attempting: bool, dragDistance: int, snapRadius: int): (t: Tick)
    ensures w.pending == 0 ==> t == Tick(w, None)
    ensures t.emitted.Some? <==> w.pending > 0 && CanEmit(w, attempting, dragDistance, snapRadius)
    ensures t.emitted.Some? ==> t.emitted.value == w.current
    ensures w.pending > 0 && CanEmit(w, attempting, dragDistance, snapRadius) ==>
      t.waves.delay == (if w.delay + DelayIncrement < WaveDuration then w.delay + DelayIncrement else WaveDuration)
    ensures w.pending > 0 && !CanEmit(w, attempting, dragDistance, snapRadius) ==>
      t.waves.delay == w.delay + DelayIncrement2 && t.waves.current == w.current
    ensures w.pending > 0 && w.finish ==> !t.waves.running && t.waves.pending == w.pending - 1
    ensures w.pending > 0 && !w.finish ==> t.waves.running == w.running && t.waves.pending == w.pending
  {
    if w.pending == 0 then Tick(w, None)
    else
      var emit := CanEmit(w, attempting, dragDistance, snapRadius);
      var w1 :=
        if emit then
          w.(delay := Min(WaveDuration, w.delay + DelayIncrement), current := (w.current + 1) % WaveCount)
        else
          w.(delay := w.delay + DelayIncrement2);
      var w2 := w1.(pending := w.pending - 1);
      var w3 := if w.finish then w2.(running := false) else w2.(pending := w2.pending + 1);
      Tick(w3, if emit then Some(w.current) else None)
  }

  function Min(a: int, b: int): int {
    if a < b then a else b
  }

  /** Every step of the loop, with the intended UNLOCK_SUCCESS handling, keeps the invariant. */
  lemma StepsKeepValid(w: Waves, attempting: bool, dragDistance: int, snapRadius: int)
    requires Valid(w)
    ensures Valid(RestoreDelay(w))
    ensures Valid(FinishLoop(w))
    ensures Valid(StartLoop(w))
    ensures Valid(CancelLoop(w))
    ensures Valid(AddWave(w, attempting, dragDistance, snapRadius).waves)
  {
  }

  /** With the intended cancellation, the attempt after a success starts a fresh loop. */
  lemma LoopRestartsAfterSuccess(w: Waves)
    ensures StartLoop(CancelLoop(w)).pending == 1
  {
  }

  /** The loop is stuck when it is marked running but no callback is posted. */
  predicate Stuck(w: Waves) {
    w.running && w.pending == 0
  }

  /** As written, an UNLOCK_SUCCESS frame that arrives while the loop runs (the usual case:
      the callback waits up to WAVE_DURATION ms) leaves the loop stuck. */
  lemma CancelAsWrittenStrandsLoop(w: Waves)
    requires Valid(w) && w.running
    ensures Stuck(CancelLoopAsWritten(w))
    ensures !LoopConsistent(CancelLoopAsWritten(w))
    ensures !Valid(CancelLoopAsWritten(w))
  {
  }

  /** Such a state exists: a loop that has just posted its callback and been asked to finish. */
  lemma StrandedExample()
    ensures Valid(Waves(true, true, 1, WaveDelay, 0))
    ensures Stuck(CancelLoopAsWritten(Waves(true, true, 1, WaveDelay, 0)))
  {
  }

  /** Once stuck, no operation of the as-written view ever un-sticks the loop or launches
      another wave: ElugaView shows no waves again until it is recreated. */
  lemma StuckIsPermanent(w: Waves, attempting: bool, dragDistance: int, snapRadius: int)
    requires Stuck(w)
    ensures Stuck(RestoreDelay(w)) && Stuck(FinishLoop(w)) && Stuck(StartLoop(w))
    ensures Stuck(CancelLoopAsWritten(w))
    ensures AddWave(w, attempting, dragDistance, snapRadius) == Tick(w, None)
  {
  }
}
