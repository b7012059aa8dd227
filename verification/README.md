# Lock-screen unlock machine and Quick Settings controller, modelled in Dafny

This project models the sequential logic of two parts of the JBMiniProject
Android framework customisations.

**The lock-screen unlock widgets.** `AcerView`, `BB10View`, `ElugaView` and
`SenseView` share one unlock state machine with six states: RESET_LOCK, READY,
START_ATTEMPT, ATTEMPTING, UNLOCK_ATTEMPT and UNLOCK_SUCCESS. Four things drive it:

- touch events;
- the per-frame update `waveUpdateFrame`, run on every draw;
- the delayed reset timer `mLockTimerActions`;
- `reset()`.

The skins differ in their density tables, their unlock threshold, which states
the timer resets, their grab radius, the vibration length, Acer's shades and
Eluga's light-wave loop. The model builds these pieces:

- `LockSkins`: one parameter record per skin.
- `LockMachine`: one parameterised machine over a configuration.
- `ElugaWaves`: Eluga's `mAddWaveAction` loop.
- `LockRuns`: runs of events.
- `Measure`: `onMeasure`, which all four skins share.

**The Quick Settings panel** (`QuickSettingsController` and its tiles) is modelled in these modules:

- `TileRegistry`: the deduplicating multimaps `registerInMap` fills.
- `TileNames`: the tile names, `TextUtils.join` and Java's `String.split("\\|")`.
- `QsController`:
  - `loadTiles`, which edits the static default list in place, splits the stored or default tile string, creates the listed tiles and then the dynamic ones;
  - `setupQuickSettings`, which clears everything and reloads.
- `QsDispatch`:
  - the invariant that holds between reloads: the registries hold exactly what the tiles registered, in creation order;
  - the routing of content changes and broadcasts to tiles;
  - the coalescing of reload messages;
  - `setImeWindowStatus` and `updateResources`.
- The tile modules:
  - `TileCommon`, `QuickTile` and `QsTile`: the two `QuickSettingsTile` base classes;
  - `WifiTile`, `QuietHoursTile`, `UserTile` and `UserHelper`: the concrete tiles.
- `SettingsStore`: `Settings.System` as a map from key to stored text, with `Integer.parseInt` and `Integer.toString` for the int readers and writers.

The controller creates tiles through the `systemui.quicksettings` constructor
signatures, but it imports the `quicktile` classes. The model therefore treats
a tile as a kind plus a creation number (its identity). Each tile class's
behaviour is modelled in its own module.

`loadTiles` creates each tile as it walks the split names, and then the dynamic tiles.
The model first computes the list of kinds to create (`QsController.ToCreate`) and
then creates them in that order (`QsController.CreateAll`). This gives the same
tiles, in the same order, with the same registrations.

Platform queries become parameters:

- device capabilities (the `QSUtils` queries), as `Capabilities`;
- the Wi-Fi manager's state;
- contacts-provider cursors and photo streams;
- whether accessibility is on;
- touch geometry, given as already-evaluated distances;
- what the constructors of tile classes outside this model register, as `Wiring`.

Timers and handler messages are explicit events or counters.

## Model

| member | source | states |
|---|---|---|
| `LockSkins.TierOf` | core/java/com/android/internal/widget/jbminiproject/BB10View.java:143-157 | A density is low exactly when it is at most 120 dpi, high exactly when it is above 180 dpi, and medium otherwise. |
| `LockSkins.BB10Table` | core/java/com/android/internal/widget/jbminiproject/BB10View.java:143-157 | Every BB10 row has a positive snap radius and 0 < pos4 < pos3 < pos2 < pos1 < ring. Above 180 dpi the field initialisers stay, so the ring is 1280. |
| `LockSkins.ElugaTable` | core/java/com/android/internal/widget/jbminiproject/ElugaView.java:149-155 | Every Eluga row has its snap radius strictly inside the ring. Above 180 dpi the ring is 320 and the snap radius 180. |
| `LockSkins.SenseTable` | core/java/com/android/internal/widget/jbminiproject/SenseView.java:142-150 | Every Sense row has 0 < unlockpos < plusY < ring. Above 180 dpi the row is 1280/580/100. |
| `LockSkins.AcerTable` | core/java/com/android/internal/widget/jbminiproject/AcerView.java:140-148 | Every Acer row has 0 < unlockpos < snap < ring. Above 180 dpi the row is 520/255/240. |
| `LockSkins.MetricsFor` | core/java/com/android/internal/widget/jbminiproject/BB10View.java:142-157 | Each skin reads a well-shaped parameter record of its own kind. |
| `LockSkins.MetricsGrowWithDensity` | core/java/com/android/internal/widget/jbminiproject/BB10View.java:142-157 | On every skin, a denser screen never gets a smaller ring, snap radius or offset. |
| `LockSkins.HaloRestY` | core/java/com/android/internal/widget/jbminiproject/SenseView.java:194-242 | The halo's home, where a RESET_LOCK frame sends it, is never above the centre, and a halo at rest is never past the unlock threshold. |
| `LockSkins.GrabRadius` | core/java/com/android/internal/widget/jbminiproject/BB10View.java:437-443 | The grab radius is between 0 and the halo width. It is the full width with accessibility on, and half the width with it off (except on Acer). |
| `LockSkins.AcerGrabRadiusIgnoresAccessibility` | core/java/com/android/internal/widget/jbminiproject/AcerView.java:395-401 | On Acer both scales are 1.0, so the grab radius is the halo width either way. |
| `LockSkins.ShadeScale` | core/java/com/android/internal/widget/jbminiproject/AcerView.java:190-193 | Acer's shade scale lies in [0, 1]. It is exactly 1 when 2·drag ≥ ring; otherwise it is exactly drag·2/ring. |
| `LockSkins.PastThresholdMonotone` | core/java/com/android/internal/widget/jbminiproject/BB10View.java:259-260 | The unlock test of every skin is monotone: a finger further up the screen and further from the centre is past the threshold whenever the original touch was. |
| `LockSkins.GrabScale` | core/java/com/android/internal/widget/jbminiproject/BB10View.java:62-63 | The grab scale lies in (0, 1]. It is 1 with accessibility on. It is below 1 exactly when accessibility is off and the skin is not Acer, whose two constants are both 1.0. |
| `LockSkins.TimerResets` | core/java/com/android/internal/widget/jbminiproject/ElugaView.java:320-330 | The lock timer resets only ATTEMPTING and UNLOCK_SUCCESS. It resets ATTEMPTING on every skin, and UNLOCK_SUCCESS exactly on Eluga. |
| `LockSkins.VibrateLong` | core/java/com/android/internal/widget/jbminiproject/BB10View.java:54 | VIBRATE_LONG lies between 0 and 40 ms, and it is 0 exactly on BB10. |
| `Measure.Dimension` | core/java/com/android/internal/widget/jbminiproject/BB10View.java:123-129 | AT_MOST gives the smaller of the bound and the minimum. EXACTLY gives the spec size. UNSPECIFIED gives the minimum. |
| `Measure.OnMeasureAsWritten` | core/java/com/android/internal/widget/jbminiproject/BB10View.java:115-140 | As written, the width is measured against the minimum width. So is an AT_MOST height; other heights use the minimum height. |
| `Measure.OnMeasure` | core/java/com/android/internal/widget/jbminiproject/SenseView.java:114-139 | Corrected: each dimension is measured against its own minimum. It agrees with the code as written on the width always, and on the whole size unless the height is AT_MOST. Each dimension is its spec size or its own minimum, and never exceeds an AT_MOST bound. |
| `Measure.OnMeasureTransposes` | core/java/com/android/internal/widget/jbminiproject/BB10View.java:123-137 | The corrected measurement treats width and height alike: swapping the specs and minimums swaps the result. |
| `Measure.OnMeasureHonoursMinimum` | core/java/com/android/internal/widget/jbminiproject/BB10View.java:123-137 | Under AT_MOST, a dimension falls below its minimum exactly when the bound does, and then it takes the whole bound. |
| `Measure.AsWrittenCutsHeight` | core/java/com/android/internal/widget/jbminiproject/BB10View.java:131-132 | Counterexample: an AT_MOST 2000 height with a 300×500 minimum is measured 300 high as written, and 500 corrected. |
| `Measure.AsWrittenAgreesWhen` | core/java/com/android/internal/widget/jbminiproject/BB10View.java:131-137 | Both versions agree exactly when the height is not AT_MOST, or when both minimums clamp the bound alike. |
| `ElugaWaves.InitialValid` | core/java/com/android/internal/widget/jbminiproject/ElugaView.java:77-79 | The field initialisers satisfy the loop invariant: no loop, wave 0, delay WAVE_DELAY. |
| `ElugaWaves.RestoreDelay` | core/java/com/android/internal/widget/jbminiproject/ElugaView.java:198-233 | RESET_LOCK and READY frames set the delay back to WAVE_DELAY and change nothing else. |
| `ElugaWaves.FinishLoop` | core/java/com/android/internal/widget/jbminiproject/ElugaView.java:246-247 | Beyond the snap radius, ATTEMPTING only sets mFinishWaves. |
| `ElugaWaves.StartLoop` | core/java/com/android/internal/widget/jbminiproject/ElugaView.java:255-259 | A running loop is left alone. Otherwise the loop is marked running and unfinished, and one callback is posted. |
| `ElugaWaves.CancelLoopAsWritten` | core/java/com/android/internal/widget/jbminiproject/ElugaView.java:291-293 | As written, UNLOCK_SUCCESS drops the posted callback but leaves mWavesRunning unchanged. |
| `ElugaWaves.CancelLoop` | core/java/com/android/internal/widget/jbminiproject/ElugaView.java:291-293 | Corrected: dropping the callback also ends the loop. The delay and wave index are kept. |
| `ElugaWaves.AddWave` | core/java/com/android/internal/widget/jbminiproject/ElugaView.java:332-367 | With no callback posted, nothing happens. Otherwise: a wave is launched (mCurrentWave) exactly when the state is ATTEMPTING, drag < snap and delay ≥ WAVE_DELAY; the delay becomes min(WAVE_DURATION, delay+15) after a launch and delay+12 otherwise; with mFinishWaves the loop stops, and without it the callback is reposted. |
| `ElugaWaves.StepsKeepValid` | core/java/com/android/internal/widget/jbminiproject/ElugaView.java:337-360 | Every loop step keeps the invariant: a callback is posted iff the loop runs, mCurrentWave is in [0, mWaveCount), and the delay is ≥ WAVE_DELAY. |
| `ElugaWaves.LoopRestartsAfterSuccess` | core/java/com/android/internal/widget/jbminiproject/ElugaView.java:255-259 | With the corrected cancellation, the next attempt posts a fresh callback. |
| `ElugaWaves.CancelAsWrittenStrandsLoop` | core/java/com/android/internal/widget/jbminiproject/ElugaView.java:291-293 | As written, UNLOCK_SUCCESS leaves every valid running loop stuck: marked running, with no callback posted, so the loop invariant no longer holds. |
| `ElugaWaves.StrandedExample` | core/java/com/android/internal/widget/jbminiproject/ElugaView.java:255-293 | Such a state occurs: a loop that has posted its callback and been told to finish is valid, and UNLOCK_SUCCESS strands it. |
| `ElugaWaves.StuckIsPermanent` | core/java/com/android/internal/widget/jbminiproject/ElugaView.java:255-259 | Once stuck, no frame or callback un-sticks the loop, and no wave is launched again. |
| `LockMachine.FinalWaveDelays` | core/java/com/android/internal/widget/jbminiproject/ElugaView.java:267-270 | The closing-wave delays 1000·(6+n−mCurrentWave)/10, with Java long division, are 100·(6+n−mCurrentWave) and positive for every wave. |
| `LockMachine.Frame` | core/java/com/android/internal/widget/jbminiproject/BB10View.java:192-345 | RESET_LOCK goes to READY, clears the timers and sends the halo home. READY and UNLOCK_SUCCESS keep their state and emit nothing. START_ATTEMPT goes to ATTEMPTING. ATTEMPTING goes to UNLOCK_ATTEMPT iff the finger is up and the touch is past the threshold. UNLOCK_ATTEMPT past the threshold goes to UNLOCK_SUCCESS, posts the timer, vibrates VIBRATE_LONG and triggers once if a listener is set; otherwise it goes to RESET_LOCK silently. A frame never touches the finger, grab, touch, centre or listener. On Eluga, UNLOCK_SUCCESS uses the corrected wave cancellation (`ElugaWaves.CancelLoop`); `LockMachine.FrameAsWritten` is the frame as written. |
| `LockMachine.FrameAsWritten` | core/java/com/android/internal/widget/jbminiproject/ElugaView.java:287-293 | The frame as written, with UNLOCK_SUCCESS cancelling the wave loop by removeCallbacks alone, has the same lock state, timers, touch and outputs as `LockMachine.Frame`. Only the wave record differs, and on Eluga a running loop is left stuck. |
| `LockMachine.SetGrabbed` | core/java/com/android/internal/widget/jbminiproject/BB10View.java:470-477 | The grabbed state is set, and the listener hears it only when the value changes. |
| `LockMachine.TryStartAttempt` | core/java/com/android/internal/widget/jbminiproject/BB10View.java:422-435 | A touch within the grab radius grabs the centre handle. The state changes iff it was READY and the touch is on the halo, and then it becomes START_ATTEMPT. A touch off the halo does nothing. No trigger. |
| `LockMachine.Release` | core/java/com/android/internal/widget/jbminiproject/BB10View.java:404-411 | ACTION_UP leaves the finger up and the grab at NO_HANDLE, keeps the touch, and keeps the wave invariant. |
| `LockMachine.OnTouch` | core/java/com/android/internal/widget/jbminiproject/SenseView.java:347-381 | The four actions are handled and any other action is not. DOWN sets finger-down and cancels the timer. DOWN and MOVE try to start an attempt. UP releases. CANCEL only clears finger-down. Every event records the touch. |
| `LockMachine.LockTimerFires` | core/java/com/android/internal/widget/jbminiproject/ElugaView.java:320-330 | A posted timer resets only the states the skin resets (ATTEMPTING, plus UNLOCK_SUCCESS on Eluga) to RESET_LOCK. It changes nothing else and emits nothing. |
| `LockMachine.AddWaveFires` | core/java/com/android/internal/widget/jbminiproject/ElugaView.java:332-367 | The add-wave callback only changes Eluga's wave bookkeeping. It never triggers. It launches a wave only on Eluga, in ATTEMPTING, inside the snap radius, with the delay at least WAVE_DELAY. |
| `LockMachine.Step` | core/java/com/android/internal/widget/jbminiproject/BB10View.java:459-495 | An event keeps the wave invariant. A draw runs a frame. A touch records its sample. reset() sets RESET_LOCK and changes nothing else. setOnTriggerListener sets only the listener. onSizeChanged (lines 98-101) moves the centre to half the height, and the last touch is measured against the new centre; the lock state and listener are kept and nothing is emitted. |
| `LockMachine.FrameSafety` | core/java/com/android/internal/widget/jbminiproject/BB10View.java:192-345 | A frame follows the diagram and never enters START_ATTEMPT. It triggers exactly on UNLOCK_ATTEMPT→UNLOCK_SUCCESS with a listener set. |
| `LockMachine.TouchSafety` | core/java/com/android/internal/widget/jbminiproject/BB10View.java:386-435 | A touch follows the diagram. START_ATTEMPT is entered only from READY, by a DOWN or MOVE on the halo. Triggers as for a frame. |
| `LockMachine.ReleaseSafety` | core/java/com/android/internal/widget/jbminiproject/BB10View.java:404-411 | Lifting the finger follows the diagram. The grab release never counts as a trigger. |
| `LockMachine.StepSafety` | core/java/com/android/internal/widget/jbminiproject/BB10View.java:192-495 | Every event follows the diagram. START_ATTEMPT comes only from READY by a grab. A trigger is dispatched only on UNLOCK_ATTEMPT→UNLOCK_SUCCESS, exactly once when a listener is set. |
| `LockMachine.ResetThenFrameIsReady` | core/java/com/android/internal/widget/jbminiproject/BB10View.java:492-495 | reset() forces RESET_LOCK from any state, and the next frame makes the view READY. |
| `LockRuns.Run` | core/java/com/android/internal/widget/jbminiproject/BB10View.java:192-495 | A run applies its events in order, each to the view the previous one left, and keeps the wave invariant throughout, so the one-step safety lemmas apply at every step. |
| `LockRuns.TriggersNeedGrabs` | core/java/com/android/internal/widget/jbminiproject/BB10View.java:303-326 | Over any run of events, the triggers never exceed the grabs plus an attempt already under way. |
| `LockRuns.FreshViewTriggersAtMostGrabs` | core/java/com/android/internal/widget/jbminiproject/BB10View.java:83-84 | A view starting in RESET_LOCK with no grab never unlocks more often than it is grabbed. |
| `LockRuns.Bb10UnlockSteps` | core/java/com/android/internal/widget/jbminiproject/BB10View.java:252-326 | At mdpi on BB10 with a listener, a draw readies the view, a grab on the halo starts an attempt, a draw makes it ATTEMPTING, a drag past the threshold keeps it there while the finger is down, lifting reaches UNLOCK_ATTEMPT, and the next draw unlocks with exactly one trigger. |
| `TileRegistry.Register` | packages/SystemUI/src/com/android/systemui/statusbar/quicksettings/QuickSettingsController.java:323-334 | After registration the tile is in the key's list. A new key gets [tile]. A tile already listed changes nothing. Otherwise the tile goes at the end. No other key changes. |
| `TileRegistry.RegisterKeepsValid` | packages/SystemUI/src/com/android/systemui/statusbar/quicksettings/QuickSettingsController.java:324-328 | Registration never creates a repeat in any list. |
| `TileRegistry.RegisterIdempotent` | packages/SystemUI/src/com/android/systemui/statusbar/quicksettings/QuickSettingsController.java:324-328 | Registering the same tile for the same key twice equals registering it once. |
| `TileRegistry.RegisterAllSpec` | packages/SystemUI/src/com/android/systemui/statusbar/quicksettings/QuickSettingsController.java:336-342 | Registering one tile for a list of keys adds exactly the new tile under exactly those keys. Existing lists only grow at their ends. |
| `TileRegistry.RegisterAllKeepsValid` | packages/SystemUI/src/com/android/systemui/statusbar/quicksettings/QuickSettingsController.java:336-342 | Registering for a list of keys keeps every list free of repeats. |
| `TileRegistry.RegisterKeepsOrder` | packages/SystemUI/src/com/android/systemui/statusbar/quicksettings/QuickSettingsController.java:326-327 | Registering the newest tile keeps every list in creation order. |
| `TileRegistry.RegisterAllKeepsOrder` | packages/SystemUI/src/com/android/systemui/statusbar/quicksettings/QuickSettingsController.java:336-342 | Registering the newest tile for a list of keys keeps every list in creation order. |
| `TileRegistry.RegisterAllTracks` | packages/SystemUI/src/com/android/systemui/statusbar/quicksettings/QuickSettingsController.java:323-342 | Registration keeps a registry exact: a tile is listed under a key iff some constructor registered it for that key. |
| `TileNames.NameOf` | packages/SystemUI/src/com/android/systemui/statusbar/quicksettings/QuickSettingsController.java:181-235 | No listed tile name contains the delimiter. |
| `TileNames.KindNamed` | packages/SystemUI/src/com/android/systemui/statusbar/quicksettings/QuickSettingsController.java:181-235 | A name the equality chain recognises denotes a listed (non-dynamic) kind whose name it is. |
| `TileNames.NamesIdentifyKinds` | packages/SystemUI/src/com/android/systemui/statusbar/quicksettings/QuickSettingsController.java:181-235 | Every listed kind's name is recognised as that kind. |
| `TileNames.NameOfInjective` | packages/SystemUI/src/com/android/systemui/statusbar/quicksettings/QuickSettingsController.java:181-235 | Two listed kinds share a name iff they are the same kind. |
| `TileNames.SplitAll` | packages/SystemUI/src/com/android/systemui/statusbar/quicksettings/QuickSettingsController.java:179 | The regex split keeps every piece. There is at least one piece and none holds the delimiter. Joining the pieces gives the string back. There is a single piece iff the string has no delimiter. |
| `TileNames.Join` | packages/SystemUI/src/com/android/systemui/statusbar/quicksettings/QuickSettingsController.java:173 | TextUtils.join starts with the first name. |
| `TileNames.JoinCountsDelimiters` | packages/SystemUI/src/com/android/systemui/statusbar/quicksettings/QuickSettingsController.java:173 | Joining delimiter-free names puts |names| − 1 delimiters in the string, and none for an empty list. |
| `TileNames.DropTrailingEmpty` | packages/SystemUI/src/com/android/systemui/statusbar/quicksettings/QuickSettingsController.java:179 | The result is the longest prefix not ending in an empty piece. Everything dropped is empty. |
| `TileNames.JavaSplit` | packages/SystemUI/src/com/android/systemui/statusbar/quicksettings/QuickSettingsController.java:179 | String.split yields names without the delimiter. A string without a delimiter is its own only name. |
| `TileNames.SplitAllJoin` | packages/SystemUI/src/com/android/systemui/statusbar/quicksettings/QuickSettingsController.java:173-179 | Splitting undoes TextUtils.join for delimiter-free names. |
| `TileNames.JavaSplitJoin` | packages/SystemUI/src/com/android/systemui/statusbar/quicksettings/QuickSettingsController.java:173-179 | The joined list splits back into the same list when no name holds the delimiter and the last name is not empty. |
| `TileNames.JavaSplitEmpty` | packages/SystemUI/src/com/android/systemui/statusbar/quicksettings/QuickSettingsController.java:173-179 | An empty default list joins to "", which splits into one empty name. |
| `TileNames.JavaSplitOnlyDelimiters` | packages/SystemUI/src/com/android/systemui/statusbar/quicksettings/QuickSettingsController.java:179 | A string of delimiters only splits into no names. |
| `QsController.RegistrationsOf` | packages/SystemUI/src/com/android/systemui/quicksettings/UserTile.java:42-44 | The user tile registers for CONFIGURATION_CHANGED and the USER_MY_NUMBERS URI. The quiet-hours tile registers only the QUIET_HOURS_ENABLED URI. |
| `QsController.RemoveFirst` | packages/SystemUI/src/com/android/systemui/statusbar/quicksettings/QuickSettingsController.java:154-164 | ArrayList.remove(Object) takes away one copy of the name when there is one, and otherwise leaves the list as it was. |
| `QsController.RemoveEach` | packages/SystemUI/src/com/android/systemui/statusbar/quicksettings/QuickSettingsController.java:153-165 | Removing a list of names takes away one copy of each. |
| `QsController.FilterDefaults` | packages/SystemUI/src/com/android/systemui/statusbar/quicksettings/QuickSettingsController.java:153-165 | The default list loses one copy of bluetooth without bluetooth support. Without mobile data it loses one copy each of wifiAP, mobile data and network mode. Without LTE support it loses one copy of LTE. |
| `QsController.FilterDefaultsMembers` | packages/SystemUI/src/com/android/systemui/statusbar/quicksettings/QuickSettingsController.java:153-165 | On a list without repeats, a name survives filtering iff it was there and is supported. The list stays free of repeats. |
| `QsController.FilterDefaultsIdempotent` | packages/SystemUI/src/com/android/systemui/statusbar/quicksettings/QuickSettingsController.java:153-165 | On a list without repeats, the in-place filter is done after one reload: the next finds nothing to remove. |
| `QsController.FilterDefaultsRemovesOneCopy` | packages/SystemUI/src/com/android/systemui/statusbar/quicksettings/QuickSettingsController.java:153-155 | A repeated name loses one copy per reload, because the static list is edited in place. |
| `QsController.TileFor` | packages/SystemUI/src/com/android/systemui/statusbar/quicksettings/QuickSettingsController.java:181-236 | A name creates, if anything, the listed kind it names, and only when that kind is allowed. |
| `QsController.TileForExact` | packages/SystemUI/src/com/android/systemui/statusbar/quicksettings/QuickSettingsController.java:181-236 | A name creates kind k iff it is k's name and k is allowed. Bluetooth needs support. WifiAP, mobile data and network mode need mobile data. Profile needs SYSTEM_PROFILES_ENABLED (default 1) to be 1. Every other listed kind, LTE and NFC included, is always created. |
| `QsController.Wanted` | packages/SystemUI/src/com/android/systemui/statusbar/quicksettings/QuickSettingsController.java:179-242 | The listed tiles are at most one per name, each of an allowed, non-dynamic kind. |
| `QsController.WantedMembers` | packages/SystemUI/src/com/android/systemui/statusbar/quicksettings/QuickSettingsController.java:179-242 | A kind is among the listed tiles iff it is allowed and one of the names names it. |
| `QsController.AddTile` | packages/SystemUI/src/com/android/systemui/statusbar/quicksettings/QuickSettingsController.java:238-241 | A created tile joins the end of the list with the next creation number. The status URIs, IME tile and defaults are unchanged. |
| `QsController.Create` | packages/SystemUI/src/com/android/systemui/statusbar/quicksettings/QuickSettingsController.java:252-256 | Creating a tile appends it. An IME tile also becomes mIMETile; any other kind leaves mIMETile as it was. |
| `QsController.CreateAllKinds` | packages/SystemUI/src/com/android/systemui/statusbar/quicksettings/QuickSettingsController.java:179-261 | Creating a list of kinds appends tiles of exactly those kinds, in order. |
| `QsController.CreateAllIme` | packages/SystemUI/src/com/android/systemui/statusbar/quicksettings/QuickSettingsController.java:252-256 | mIMETile is set after creation iff it was set before or an IME tile was created. |
| `QsController.Dynamic` | packages/SystemUI/src/com/android/systemui/statusbar/quicksettings/QuickSettingsController.java:244-261 | The dynamic tiles appear without repeats. Alarm appears iff QS_DYNAMIC_ALARM (default 1) is 1. IME appears iff the switcher is supported and QS_DYNAMIC_IME is 1. USB tether appears iff tethering is supported and QS_DYNAMIC_USBTETHER is 1. |
| `QsController.Prepared` | packages/SystemUI/src/com/android/systemui/statusbar/quicksettings/QuickSettingsController.java:144-221 | Before creating tiles, loadTiles forgets mIMETile. It adds at most the SYSTEM_PROFILES_ENABLED URI to the status URIs. Tiles and registries are untouched. |
| `QsController.ToCreate` | packages/SystemUI/src/com/android/systemui/statusbar/quicksettings/QuickSettingsController.java:179-261 | A kind is created iff it is a wanted listed kind or a dynamic one. |
| `QsController.LoadKinds` | packages/SystemUI/src/com/android/systemui/statusbar/quicksettings/QuickSettingsController.java:179-261 | Loading into an empty list creates exactly the listed tiles, then the dynamic ones, in order. |
| `QsController.LoadTiles` | packages/SystemUI/src/com/android/systemui/statusbar/quicksettings/QuickSettingsController.java:153-165 | loadTiles leaves the static default list filtered in place. |
| `QsController.Setup` | packages/SystemUI/src/com/android/systemui/statusbar/quicksettings/QuickSettingsController.java:264-284 | A reload leaves the static default list filtered for the device's capabilities. |
| `QsController.Cleared` | packages/SystemUI/src/com/android/systemui/statusbar/quicksettings/QuickSettingsController.java:264-280 | Setup clears the tile list, both registries and the status URIs before loading. |
| `QsController.SetupBuilds` | packages/SystemUI/src/com/android/systemui/statusbar/quicksettings/QuickSettingsController.java:264-284 | A reload builds exactly the tiles the loaded names ask for, then the dynamic ones. |
| `QsController.SetupStatusUris` | packages/SystemUI/src/com/android/systemui/statusbar/quicksettings/QuickSettingsController.java:217-221 | After a reload, the status URIs are {SYSTEM_PROFILES_ENABLED} exactly when the profile tile is named, whether or not it is created, and empty otherwise. |
| `QsController.SetupForgetsPrevious` | packages/SystemUI/src/com/android/systemui/statusbar/quicksettings/QuickSettingsController.java:264-284 | Reloads are not cumulative: the result depends only on the default list and the creation counter. |
| `QsController.SetupTwiceSameKinds` | packages/SystemUI/src/com/android/systemui/statusbar/quicksettings/QuickSettingsController.java:153-165 | With a default list free of repeats, reloading again builds the same kinds. |
| `QsController.SetupKinds` | packages/SystemUI/src/com/android/systemui/statusbar/quicksettings/QuickSettingsController.java:244-261 | A reload builds a kind iff it is allowed and named, or it is dynamic. Dynamic tiles come after all the listed ones. |
| `QsController.StoredNameLoads` | packages/SystemUI/src/com/android/systemui/statusbar/quicksettings/QuickSettingsController.java:170-242 | A stored string that is just an allowed kind's name loads that kind, whatever the defaults hold. |
| `QsController.StoredLteStillLoads` | packages/SystemUI/src/com/android/systemui/statusbar/quicksettings/QuickSettingsController.java:163-227 | LTE filtering affects only the default list: a stored string naming LTE still yields an LTE tile. |
| `QsController.DefaultsLoadedWhenNothingStored` | packages/SystemUI/src/com/android/systemui/statusbar/quicksettings/QuickSettingsController.java:170-174 | With nothing stored, the filtered default list is what gets loaded, in order, followed by the dynamic tiles. This holds when the list is non-empty, its names hold no delimiter, and its last name is not empty. |
| `QsController.StoredNamesLoaded` | packages/SystemUI/src/com/android/systemui/statusbar/quicksettings/QuickSettingsController.java:170-179 | A stored string without a delimiter is loaded as that one name. |
| `QsController.DefaultNamesLoaded` | packages/SystemUI/src/com/android/systemui/statusbar/quicksettings/QuickSettingsController.java:170-179 | With nothing stored, the names loaded are the filtered defaults, joined and split back. |
| `QsDispatch.AddTileRegistered` | packages/SystemUI/src/com/android/systemui/statusbar/quicksettings/QuickSettingsController.java:323-342 | Creating a tile keeps both registries exact (exactly what the constructors registered) and in creation order. |
| `QsDispatch.AddTileWellFormed` | packages/SystemUI/src/com/android/systemui/statusbar/quicksettings/QuickSettingsController.java:238-241 | Creating a tile keeps the controller well formed. |
| `QsDispatch.CreateWellFormed` | packages/SystemUI/src/com/android/systemui/statusbar/quicksettings/QuickSettingsController.java:252-256 | Creating any tile, the IME tile included, keeps the controller well formed: mIMETile names an IME tile of the list. |
| `QsDispatch.CreateAllWellFormed` | packages/SystemUI/src/com/android/systemui/statusbar/quicksettings/QuickSettingsController.java:179-261 | Creating a list of tiles keeps the controller well formed. |
| `QsDispatch.SetupWellFormed` | packages/SystemUI/src/com/android/systemui/statusbar/quicksettings/QuickSettingsController.java:264-284 | Whatever state it starts from, a reload leaves the controller well formed. Well formed means: tiles numbered in creation order; registries exact and ordered; mIMETile one of the tiles; at most the profiles URI as a status URI. |
| `QsDispatch.LoadWellFormed` | packages/SystemUI/src/com/android/systemui/statusbar/quicksettings/QuickSettingsController.java:144-261 | Loading any names into a cleared controller leaves it well formed. |
| `QsDispatch.Observed` | packages/SystemUI/src/com/android/systemui/statusbar/quicksettings/QuickSettingsController.java:286-294 | The observer is registered for exactly the registered URIs and the status URIs. |
| `QsDispatch.Filter` | packages/SystemUI/src/com/android/systemui/statusbar/quicksettings/QuickSettingsController.java:314-320 | The intent filter holds exactly the registered actions. |
| `QsDispatch.OnChange` | packages/SystemUI/src/com/android/systemui/statusbar/quicksettings/QuickSettingsController.java:301-311 | A change reloads iff its URI is a status URI. It fails with a NullPointerException iff the URI is not observed at all. Otherwise it reaches the tiles listed for the URI. |
| `QsDispatch.OnReceive` | packages/SystemUI/src/com/android/systemui/statusbar/quicksettings/QuickSettingsController.java:344-353 | A broadcast never reloads. It fails iff it has an action outside the intent filter. An action in the filter reaches the tiles listed for it. |
| `QsDispatch.ChangeRouting` | packages/SystemUI/src/com/android/systemui/statusbar/quicksettings/QuickSettingsController.java:301-311 | A status-URI change posts a reload and reaches no tile. Any other observed URI reaches exactly the tiles registered for it, each once, in creation order. No observed URI makes the observer fail. |
| `QsDispatch.ReceiveRouting` | packages/SystemUI/src/com/android/systemui/statusbar/quicksettings/QuickSettingsController.java:344-353 | An intent without an action reaches no tile. An action in the filter reaches exactly the tiles registered for it, each once, in creation order. |
| `QsDispatch.QuietHoursChangeReachesTiles` | packages/SystemUI/src/com/android/systemui/statusbar/quicksettings/quicktile/QuietHoursTile.java:39-46 | Every quiet-hours tile hears a change of QUIET_HOURS_ENABLED. |
| `QsDispatch.UserTileRefreshes` | packages/SystemUI/src/com/android/systemui/quicksettings/UserTile.java:42-50 | Every user tile hears CONFIGURATION_CHANGED and a change of USER_MY_NUMBERS. |
| `QsDispatch.Pending` | packages/SystemUI/src/com/android/systemui/statusbar/quicksettings/QuickSettingsController.java:302-304 | From an empty or single queue, a dispatch never leaves more than one MSG_UPDATE_TILES waiting and never removes one. A message waits afterwards iff one waited before or the dispatch was a reload, and then exactly one waits. |
| `QsDispatch.ReloadsCoalesce` | packages/SystemUI/src/com/android/systemui/statusbar/quicksettings/QuickSettingsController.java:301-304 | A burst of changes leaves at most one reload waiting, and exactly one if any change was on a status URI. |
| `QsDispatch.SetImeWindowStatus` | packages/SystemUI/src/com/android/systemui/statusbar/quicksettings/QuickSettingsController.java:355-359 | The window status reaches a tile iff mIMETile is set. Then it is mIMETile that is told, with the visibility it was given. |
| `QsDispatch.SetupImeStatus` | packages/SystemUI/src/com/android/systemui/statusbar/quicksettings/QuickSettingsController.java:252-256 | After a reload, the window status reaches an IME tile iff the switcher is supported and QS_DYNAMIC_IME is 1. The tile it reaches is an IME tile of the list. |
| `QsDispatch.LoadIme` | packages/SystemUI/src/com/android/systemui/statusbar/quicksettings/QuickSettingsController.java:146-256 | Loading sets mIMETile iff the IME tile is among the dynamic tiles. |
| `QsDispatch.UpdateResources` | packages/SystemUI/src/com/android/systemui/statusbar/quicksettings/QuickSettingsController.java:361-365 | updateResources refreshes the container first and only then tiles, one refresh per tile in list order. A tile is refreshed iff it is in the list. |
| `QsDispatch.UpdateResourcesOnce` | packages/SystemUI/src/com/android/systemui/statusbar/quicksettings/QuickSettingsController.java:361-365 | On a well-formed controller, updateResources refreshes every tile exactly once, in creation order, and nothing else. |
| `SettingsStore.GetInt` | packages/SystemUI/src/com/android/systemui/statusbar/quicksettings/quicktile/QuietHoursTile.java:49-50 | getInt gives the caller's default when nothing is stored or the stored text is not a decimal int. Otherwise it gives the Java int the text parses to. |
| `SettingsStore.GetString` | packages/SystemUI/src/com/android/systemui/statusbar/quicksettings/QuickSettingsController.java:170-171 | getString gives null exactly when nothing is stored, and otherwise the stored text, whoever wrote it. |
| `SettingsStore.PutInt` | packages/SystemUI/src/com/android/systemui/statusbar/quicksettings/quicktile/QuietHoursTile.java:26-27 | putInt stores the decimal text of the value. getInt then reads the value back under any default, getString reads its decimal text, and every other key is kept. |
| `SettingsStore.PutIntIsolated` | packages/SystemUI/src/com/android/systemui/statusbar/quicksettings/quicktile/QuietHoursTile.java:26-27 | Writing one key never changes what another key reads. |
| `SettingsStore.ParseInt` | packages/SystemUI/src/com/android/systemui/statusbar/quicksettings/quicktile/QuietHoursTile.java:49-50 | Integer.parseInt succeeds only on text that starts with a minus sign or a digit, and only with a value that fits a Java int. |
| `SettingsStore.DigitsRoundTrip` | packages/SystemUI/src/com/android/systemui/statusbar/quicksettings/quicktile/QuietHoursTile.java:26-27 | Reading back the decimal digits of a natural number gives the number. |
| `SettingsStore.ParseDecimal` | packages/SystemUI/src/com/android/systemui/statusbar/quicksettings/quicktile/QuietHoursTile.java:26-27 | Integer.parseInt undoes Integer.toString for every Java int. |
| `SettingsStore.ReadersAgree` | packages/SystemUI/src/com/android/systemui/statusbar/quicksettings/quicktile/QuietHoursTile.java:26-50 | A number written with putInt reads back as its decimal text, and decimal text reads back with getInt as the number: both readers see one store. |
| `SettingsStore.ParseExamples` | packages/SystemUI/src/com/android/systemui/statusbar/quicksettings/quicktile/QuietHoursTile.java:49-50 | Stored "1" reads as 1; "on" and a lone "-" read as the default. |
| `TileCommon.CollapseAfterClick` | packages/SystemUI/src/com/android/systemui/quicksettings/QuickSettingsTile.java:123-127 | A click posts a collapse iff QS_COLLAPSE_PANEL (default 0) is 1, and it posts nothing else. |
| `TileCommon.Launchable` | packages/SystemUI/src/com/android/systemui/quicksettings/QuickSettingsTile.java:93 | A launched intent keeps its target and carries exactly NEW_TASK and CLEAR_TOP. |
| `TileCommon.RunCollapse` | packages/SystemUI/src/com/android/systemui/quicksettings/QuickSettingsTile.java:98-118 | The service manager is asked iff nothing is cached. The panel collapses iff a service is at hand and the call succeeds. A RemoteException empties the cache; otherwise the service found is cached. |
| `TileCommon.CacheAvoidsLookups` | packages/SystemUI/src/com/android/systemui/statusbar/quicksettings/quicktile/QuickSettingsTile.java:109-129 | Once a working service is at hand, any number of collapses all collapse and ask for the service at most once, and never if it was already cached. |
| `TileCommon.RemoteFailureForcesLookup` | packages/SystemUI/src/com/android/systemui/statusbar/quicksettings/quicktile/QuickSettingsTile.java:116-119 | A failing collapse drops the service, so the next one asks for it again. |
| `QuickTile.HapticSetting` | packages/SystemUI/src/com/android/systemui/statusbar/quicksettings/quicktile/QuickSettingsTile.java:131-153 | Both vibration patterns are always null, because their lookups are commented out. |
| `QuickTile.HapticEnablement` | packages/SystemUI/src/com/android/systemui/statusbar/quicksettings/quicktile/QuickSettingsTile.java:133-143 | Haptics are on iff EXPANDED_HAPTIC_FEEDBACK (default 2) is 1, or it is 2 and HAPTIC_FEEDBACK_ENABLED (default 1) is 1. With nothing stored they are on. |
| `QuickTile.ProvideHaptic` | packages/SystemUI/src/com/android/systemui/statusbar/quicksettings/quicktile/QuickSettingsTile.java:173-181 | There is a vibration iff haptics are on and the pattern is non-null. A one-element pattern is a single pulse; a longer one plays once without repeat. |
| `QuickTile.Setup` | packages/SystemUI/src/com/android/systemui/statusbar/quicksettings/quicktile/QuickSettingsTile.java:59-72 | Setup adds the view with the tile's layout, runs onPostCreate, updateQuickSettings and the listeners, and refreshes haptics last. It keeps the layout and cached service, turns haptics on exactly by the EXPANDED_HAPTIC_FEEDBACK rule, and never vibrates. |
| `QuickTile.OnClick` | packages/SystemUI/src/com/android/systemui/statusbar/quicksettings/quicktile/QuickSettingsTile.java:161-171 | A click refreshes haptics and runs the tile's action first. It keeps the layout and cached service, and leaves haptics on exactly by the EXPANDED_HAPTIC_FEEDBACK rule. |
| `QuickTile.ClickEffects` | packages/SystemUI/src/com/android/systemui/statusbar/quicksettings/quicktile/QuickSettingsTile.java:161-171 | A click refreshes haptics and runs the tile's action first. It collapses iff QS_COLLAPSE_PANEL is 1. It never vibrates, whatever the settings. |
| `QuickTile.StartSettingsActivity` | packages/SystemUI/src/com/android/systemui/statusbar/quicksettings/quicktile/QuickSettingsTile.java:95-107 | With onlyProvisioned it returns at once. Otherwise it launches the intent with NEW_TASK and CLEAR_TOP, then collapses. |
| `QuickTile.StartSettingsIntent` | packages/SystemUI/src/com/android/systemui/statusbar/quicksettings/quicktile/QuickSettingsTile.java:91-93 | The Intent overload does nothing at all: no launch, no collapse, no state change. |
| `QuickTile.StartSettingsAction` | packages/SystemUI/src/com/android/systemui/statusbar/quicksettings/quicktile/QuickSettingsTile.java:86-89 | The String overload does nothing at all either. |
| `QsTile.NewWithLayout` | packages/SystemUI/src/com/android/systemui/quicksettings/QuickSettingsTile.java:43-50 | A new tile has the given layout, no view yet and no cached service. |
| `QsTile.New` | packages/SystemUI/src/com/android/systemui/quicksettings/QuickSettingsTile.java:39-41 | The two-argument constructor uses the generic layout. |
| `QsTile.Setup` | packages/SystemUI/src/com/android/systemui/quicksettings/QuickSettingsTile.java:52-60 | After setup the view exists. |
| `QsTile.SetupOrdersAgree` | packages/SystemUI/src/com/android/systemui/quicksettings/QuickSettingsTile.java:52-60 | The two bases set a tile up in the same order (add view, onPostCreate, updateQuickSettings, listeners). The quicktile base then refreshes haptics. |
| `QsTile.SetupAddsViewFirst` | packages/SystemUI/src/com/android/systemui/quicksettings/QuickSettingsTile.java:52-60 | Setup adds the view first, and the view is updated only after onPostCreate. |
| `QsTile.UpdateResources` | packages/SystemUI/src/com/android/systemui/quicksettings/QuickSettingsTile.java:70-74 | updateResources redraws iff the view exists, and does nothing else. |
| `QsTile.UpdateResourcesAfterSetup` | packages/SystemUI/src/com/android/systemui/quicksettings/QuickSettingsTile.java:70-74 | updateResources always redraws after setup, and never before it. |
| `QsTile.OnClick` | packages/SystemUI/src/com/android/systemui/quicksettings/QuickSettingsTile.java:120-128 | A click runs the tile's action first, and collapses iff QS_COLLAPSE_PANEL (default 0) is 1. |
| `QsTile.ClicksAgree` | packages/SystemUI/src/com/android/systemui/quicksettings/QuickSettingsTile.java:120-128 | The two bases' clicks do the same, except for the quicktile base's leading haptic refresh. |
| `QsTile.StartSettingsActivity` | packages/SystemUI/src/com/android/systemui/quicksettings/QuickSettingsTile.java:87-96 | startSettingsActivity always launches with exactly NEW_TASK and CLEAR_TOP, and collapses. |
| `QsTile.StartSettingsAction` | packages/SystemUI/src/com/android/systemui/quicksettings/QuickSettingsTile.java:82-85 | The String overload launches an intent for that action, and collapses. |
| `QsTile.LaunchesDiffer` | packages/SystemUI/src/com/android/systemui/quicksettings/QuickSettingsTile.java:82-96 | This base really launches and collapses, whereas the quicktile overloads do nothing. |
| `WifiTile.OnWifiSignalChanged` | packages/SystemUI/src/com/android/systemui/statusbar/quicksettings/quicktile/WiFiTile.java:45-71 | When connected, the icon is the signal icon. Only a connected tile shows the description, and then it shows the non-null description it was given. |
| `WifiTile.MatchesTable` | packages/SystemUI/src/com/android/systemui/statusbar/quicksettings/quicktile/WiFiTile.java:45-69 | Exactly one row is chosen: the signal row when connected, otherwise the row for the manager's state (enabled, enabling, disabling, unknown, off). Each state has its own label. |
| `WifiTile.Wifi4WhileOn` | packages/SystemUI/src/com/android/systemui/statusbar/quicksettings/quicktile/WiFiTile.java:54-59 | When not connected, the wifi_4 icon shows iff Wi-Fi is enabled or enabling. |
| `WifiTile.OnClick` | packages/SystemUI/src/com/android/systemui/statusbar/quicksettings/quicktile/WiFiTile.java:21-27 | A click asks to enable Wi-Fi iff the manager does not report it enabled, which is iff a disconnected tile does not show the plain Wi-Fi label. |
| `WifiTile.ClickDuringTransitions` | packages/SystemUI/src/com/android/systemui/statusbar/quicksettings/quicktile/WiFiTile.java:24-25 | A click while enabling or disabling asks to enable; a click while enabled asks to disable. |
| `WifiTile.ClickFollowsFace` | packages/SystemUI/src/com/android/systemui/statusbar/quicksettings/quicktile/WiFiTile.java:21-69 | Read off a disconnected tile: a click disables exactly after the callback reported the enabled state. The wifi_4 icon shows with a click that enables exactly while Wi-Fi is turning on. |
| `WifiTile.OnMobileDataSignalChanged` | packages/SystemUI/src/com/android/systemui/statusbar/quicksettings/quicktile/WiFiTile.java:73-76 | The mobile-data callback leaves the tile as it was. |
| `QuietHoursTile.UpdateTileState` | packages/SystemUI/src/com/android/systemui/statusbar/quicksettings/quicktile/QuietHoursTile.java:48-57 | The tile is on iff text is stored under QUIET_HOURS_ENABLED and it parses to 1. The "on" icon shows iff it is on, the label is the quiet-hours string, and the base class's icon and label never remain. |
| `QuietHoursTile.New` | packages/SystemUI/src/com/android/systemui/statusbar/quicksettings/quicktile/QuietHoursTile.java:19-22 | A new tile's state is read from QUIET_HOURS_ENABLED, and the base class's default icon and label never show. |
| `QuietHoursTile.OnClick` | packages/SystemUI/src/com/android/systemui/statusbar/quicksettings/quicktile/QuietHoursTile.java:23-28 | A click writes 0 when the cached state is on and 1 otherwise. No other setting changes. |
| `QuietHoursTile.OnChangeUri` | packages/SystemUI/src/com/android/systemui/statusbar/quicksettings/quicktile/QuietHoursTile.java:42-46 | A change notification re-reads the state, then redraws. |
| `QuietHoursTile.ClickThenObserverToggles` | packages/SystemUI/src/com/android/systemui/statusbar/quicksettings/quicktile/QuietHoursTile.java:23-46 | A click followed by its change notification toggles the tile and its icon. |
| `QuietHoursTile.DoubleClickBeforeObserver` | packages/SystemUI/src/com/android/systemui/statusbar/quicksettings/quicktile/QuietHoursTile.java:23-28 | Two clicks before the notification write the same value, so the second does not undo the first. |
| `QuietHoursTile.OddValueCountsAsOff` | packages/SystemUI/src/com/android/systemui/statusbar/quicksettings/quicktile/QuietHoursTile.java:49-50 | A stored value other than 0 and 1 counts as off, and a click then writes 1. |
| `UserHelper.GetName` | packages/SystemUI/src/com/android/systemui/statusbar/jbmpcustom/UserHelper.java:21-42 | getName returns the first row's display name when it is present and non-null, and the number otherwise. The cursor is closed iff it is non-null. |
| `UserHelper.NameNeverNull` | packages/SystemUI/src/com/android/systemui/statusbar/jbmpcustom/UserHelper.java:35-37 | A non-null number always gets a non-null name. |
| `UserHelper.GetContactPicture` | packages/SystemUI/src/com/android/systemui/statusbar/jbmpcustom/UserHelper.java:44-66 | A null cursor makes moveToFirst fail. Any picture returned is 60×60, and the cursor is closed. |
| `UserHelper.PictureCases` | packages/SystemUI/src/com/android/systemui/statusbar/jbmpcustom/UserHelper.java:44-66 | The lookup fails iff the cursor is null or a photo stream does not decode. It returns a picture iff a contact matched and has a photo stream. |
| `UserTile.SetUserTileInfo` | packages/SystemUI/src/com/android/systemui/quicksettings/UserTile.java:96-100 | With the view, the tile shows exactly the label and avatar given, keeps its view, and is redrawn once. Without it, the redraw fails for want of a view. |
| `UserTile.SetUserTileInfoIdempotent` | packages/SystemUI/src/com/android/systemui/quicksettings/UserTile.java:96-100 | Showing the same label and avatar twice leaves the tile as showing them once. |
| `UserTile.Query` | packages/SystemUI/src/com/android/systemui/quicksettings/UserTile.java:71-94 | A finished query ran with the view and redraws once. It fails on the picture lookup only when a number is stored and the lookup fails. Without the view it always fails. |
| `UserTile.QueryShows` | packages/SystemUI/src/com/android/systemui/quicksettings/UserTile.java:71-94 | With no number stored, the default label and avatar show. With one, the contact's name (or the number) and the contact's picture show when there is one. The default label shows iff no number is stored, so its branch for a stored number is unreachable. The query fails only when the picture lookup does. |
| `UserTile.TriggersAgree` | packages/SystemUI/src/com/android/systemui/quicksettings/UserTile.java:47-61 | A broadcast, a URI change, updateResources, onPostCreate and a click all run the same query. updateResources has no view guard, so before setup it fails. |
| `UserTile.Refresh` | packages/SystemUI/src/com/android/systemui/quicksettings/UserTile.java:47-61 | Every trigger (broadcast, URI change, updateResources, onPostCreate, click) runs the same query. |

## Left out

- Drawing and animation are not modelled. This covers `DrawableHolder`, `addAnimTo`, `startAnimations`, `onDraw` and Eluga's wave drawables; a frame reports what it tells the outside world as outputs.
- Floating-point geometry is not modelled. `Math.hypot`, `atan2`, `sin`, `cos`, ringX/ringY and the rounding of coordinates are replaced by a touch record: its y, its rounded-up drag distance, and its distance to the halo.
- The vibrator service, accessibility announcements, hover-to-touch translation and the `synchronized` vibrate are left out. They are platform side effects; vibration appears only as an output.
- Timers and handler messages have no wall-clock time. `postDelayed` and `removeCallbacks` become counters of posted callbacks, and callbacks fire as explicit events.
- Content-resolver registration, layout inflation, activity launching and the status-bar binder are left out as platform services. `Settings.System` is a map from key to stored text, read with `getString` and `getInt`; launches, collapses and redraws are effects.
- The `QSUtils` capability queries are inputs (`Capabilities`), because they are one-line platform queries.
- The tile names are assumed, because `QSConstants` is not part of this model. The proofs rely only on the names being distinct and free of `|`.
- What tile classes outside this model register comes from a `Wiring` map, because their constructors are not part of this model.
- `TimeTile` is left out because it only launches an activity.
- WiFiTile's `onPostCreate` registration with `NetworkController` is left out; the signal callback is modelled directly.
- The long-click listeners of the tiles are left out. The base classes only install `mOnLongClick`. The Wi-Fi and quiet-hours listeners only call `startSettingsActivity`, which is modelled. UserTile's listener (UserTile.java:36-41) does nothing and returns true.
- WiFiTile's `isWifiEnabled()` is taken as "the state is WIFI_STATE_ENABLED", the platform's definition.
- `ElugaWaves.AddWave`: mWaveTimerDelay is a Java long; the model does not bound it, because it would need billions of ticks to overflow.
- `LockMachine.Frame`: the machine runs the corrected Eluga cancellation, so its UNLOCK_SUCCESS frame clears mWavesRunning, which ElugaView.java:291-293 does not. The lock state, timers and outputs agree with the code as written (`LockMachine.FrameAsWritten`); only the wave loop, which the code strands (`ElugaWaves.StuckIsPermanent`), differs.
- `SettingsStore.ParseInt`: only ASCII digits are read. Java's `Character.digit` also accepts other Unicode decimal digits, which no tile stores.
- `LockMachine.Frame`: the wave and shade outputs of a frame are stated only through the wave invariant, and Acer's shade scale through `LockSkins.ShadeScale`, not in the frame's own contract.
- `LockMachine.Release`: the contract states only the finger, grab and touch; the state change it causes is stated by `LockMachine.ReleaseSafety`.
- `LockSkins.BB10Table`: the contract states the shape of every row and the high-density ring only; the low and medium values are given in the body.
- `LockSkins.ElugaTable`: the contract states the shape of every row and the high-density row only.
- `LockSkins.SenseTable`: the contract states the shape of every row and the high-density row only.
- `LockSkins.AcerTable`: the contract states the shape of every row and the high-density row only.
- `QsController.Wanted`: the contract states bounds and membership conditions only; the exact membership is `QsController.WantedMembers`.
- `QsController.DefaultsLoadedWhenNothingStored`: it is stated only for a filtered default list that is non-empty, has no `|` in any name, and does not end with an empty name. Other lists do not survive the join and split unchanged.
- `UserTile.Query`: what a finished query shows is stated by `UserTile.QueryShows`, for a tile whose view exists.
- The tile-name `KindNamed` chain is split into four functions; `loadTiles` has one if-chain. This only keeps each proof small; the tests and their order are the source's.

## Findings

| source | as written | input that shows it | evidently intended | confidence | as-written member | corrected member |
|---|---|---|---|---|---|---|
| core/java/com/android/internal/widget/jbminiproject/ElugaView.java:291-293 | The UNLOCK_SUCCESS frame calls `removeCallbacks(mAddWaveAction)` but leaves `mWavesRunning` true. The only place that clears it (line 362) is inside the callback just removed. The next attempt's `if (!mWavesRunning)` (line 255) then never restarts the loop. | A loop is running, mFinishWaves is set, and one callback is posted (at least WAVE_DELAY = 2000 ms away). Finger up past the snap radius reaches UNLOCK_SUCCESS, and the next frame removes the callback: running = true, pending = 0. | Cancelling the callback also clears mWavesRunning, so the next attempt starts a new wave loop. | medium, not executed | `ElugaWaves.CancelLoopAsWritten` (with `ElugaWaves.CancelAsWrittenStrandsLoop`, `ElugaWaves.StuckIsPermanent` and `LockMachine.FrameAsWritten`) | `ElugaWaves.CancelLoop` (with `ElugaWaves.LoopRestartsAfterSuccess` and `ElugaWaves.StepsKeepValid`; used by `LockMachine.Frame`) |
| core/java/com/android/internal/widget/jbminiproject/BB10View.java:131-132 | The AT_MOST height is `Math.min(heightSpecSize, getSuggestedMinimumWidth())`, which uses the minimum width. The same line is in AcerView.java:129, ElugaView.java:138 and SenseView.java:131. | An AT_MOST 2000 height with minimum width 300 and minimum height 500 measures 300 high, so the ring is cut off. | The height uses `getSuggestedMinimumHeight()`, as its UNSPECIFIED branch does. | high, not executed | `Measure.OnMeasureAsWritten` (with `Measure.AsWrittenCutsHeight`) | `Measure.OnMeasure` (with `Measure.OnMeasureTransposes` and `Measure.OnMeasureHonoursMinimum`) |
