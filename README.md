# Metronome timing core in Dafny

This project models the logic of the Wear OS tap-tempo metronome, all of it in
`MetronomeApp.kt`. It has two parts.

- `waveform.dfy` (module `Waveform`) models `createTempoVibrationWaveform`. It turns a
  beat interval into the two-step vibration pattern handed to the platform: an
  on-pulse of half the interval capped at 150 ms, an off-pulse for the rest of the
  beat, amplitudes 255 then 0, and repeat index 0, so the pattern loops from its
  first step until cancelled. Line 114 computes in floating point. The model
  computes over `real`, with Kotlin's truncating `toLong()` written out. Every
  integer of magnitude up to 2^24 is an exact float, and every positive `Long` above
  2^24 gives 150 either way, so the model is exact for every interval from -2^24 up to the
  largest `Long`.
- `session.dfy` (module `Session`) models the session state that the `MetronomeApp`
  composable keeps:
  - the optional tempo;
  - the route ("init" or "ticking");
  - `isTicking`, recomputed whenever the route changes;
  - the armed debounced start;
  - the flag saved by `onPause`.

  Its callbacks become the events tap, settle, stop, pause and resume. A swipe
  back from the ticking screen is a sixth event. The navigation host allows it,
  and unlike the stop button it keeps the tempo:
  - `Next` is the pure transition function.
  - `Reevaluate` gives the calls that the two disposable effects make on the
    vibrator and on the keep-screen-on switch when their keys change. A changed
    key runs the old effect's disposer, then the effect again.
  - `LastVibration` and `LastScreenOn` read, from the list of calls made so far,
    what the vibrator is beating and whether the screen is kept on.
  - The class `MetronomeSession` holds the same fields and updates them in place.
    Each event method is proved against `Next` and `Reevaluate`, and keeps the
    invariant that the vibrator and the screen switch agree with the session.

The central guarantee is `Session.SessionOutputs`. In any session from launch,
the vibrator beats tempo `t` exactly when the session is ticking with tempo `t`,
and the screen is kept on exactly while ticking. Every vibration request comes after
the previous vibration was cancelled. Disposal leaves the vibrator cancelled and
the screen released.

Notes on behaviour. The first follows the code; the other two hold in the model,
which treats `isTicking` as a field (see "## Left out"):
- The arithmetic of lines 113-115 does not reject a non-positive interval, and it
  does not clamp durations. A negative beat interval gives a non-positive on-pulse
  (0 for an interval of -1) and a negative off-pulse, and an interval of 0 gives two zero timings
  (`Waveform.WaveformForInterval`). What the platform's waveform constructor then
  does with such timings is outside the model (see "## Left out").
- On resume, the tempo is discarded whenever the saved flag is false. This also
  happens when a tempo was just tapped and the debounced start is still armed: the
  start then fires and shows the ticking screen with no tempo and no vibration
  (`Session.ResumeBeforeSettleLosesTempo`).
- The debounced start can also fire while the app is paused. The route change sets
  `isTicking` again, so the vibrator starts while paused. The following resume
  restores the flag saved on the init screen, which is false. In the model, ticking
  stops and the tempo is cleared (`Session.SettleWhilePaused`). In the source, the
  resume writes only a captured local, and the recomposition that clearing the
  tempo triggers may set `isTicking` again from the route. That would keep the
  screen on.

## Model

| member | source | states |
|---|---|---|
| `Waveform.BeatVibrateDuration` | app/src/main/java/com/wearda/metronome/presentation/ui/MetronomeApp.kt:114 | The on-pulse as line 114 computes it, over `real` with truncation toward zero. It is at most 150. For a nonnegative interval it is nonnegative and at most half the interval. For a negative interval it lies between half the interval and 0. |
| `Waveform.BeatVibrateDurationValue` | app/src/main/java/com/wearda/metronome/presentation/ui/MetronomeApp.kt:114 | The float expression `min(150.0, interval * 0.5).toLong()` equals 150 from an interval of 300 up, and half the interval truncated toward zero below it (negative intervals included). |
| `Waveform.WaveformForInterval` | app/src/main/java/com/wearda/metronome/presentation/ui/MetronomeApp.kt:112-118 | Two timings that sum exactly to the interval; amplitudes `[255, 0]`; repeat index 0; on-pulse at most 150. For a nonnegative interval, both pulses are nonnegative, the on-pulse is at most half the interval and not longer than the off-pulse. Below 300 the on-pulse is the truncated half; from 300 up it is 150. A negative interval gives pulses between the interval and 0. Both timings fit in a `Long`. |
| `Waveform.CreateTempoVibrationWaveform` | app/src/main/java/com/wearda/metronome/presentation/ui/MetronomeApp.kt:110-119 | For any tempo-to-interval conversion: a two-step, loop-from-start waveform whose cycle is exactly one beat interval. For a nonnegative interval the on-pulse lies in [0, 150] and the off-pulse is nonnegative. |
| `Waveform.OnPulseMonotonic` | app/src/main/java/com/wearda/metronome/presentation/ui/MetronomeApp.kt:114 | A longer beat interval never gives a shorter on-pulse. |
| `Session.Navigate` | app/src/main/java/com/wearda/metronome/presentation/ui/MetronomeApp.kt:35-40 | `isTicking` is recomputed as "route is ticking" exactly when the route changes. Nothing else changes. |
| `Session.Next` | app/src/main/java/com/wearda/metronome/presentation/ui/MetronomeApp.kt:30-96 | The state after one event (lines 33, 58-64, 73-75, 94-96, and the swipe back the navigation host allows). Every event keeps the invariant: ticking only on the ticking route, an armed start only on the init route, and a saved `true` only on the ticking route. Only a tap sets a new tempo. Only the armed start and leaving the ticking screen change the route. Only pause and resume touch the saved flag. Only the start firing or a resume turns ticking on. |
| `Session.Requested` | app/src/main/java/com/wearda/metronome/presentation/ui/MetronomeApp.kt:44-45 | A vibration is wanted exactly when a tempo is set and the session is ticking, and then it is for that tempo. |
| `Session.VibrationEffect` | app/src/main/java/com/wearda/metronome/presentation/ui/MetronomeApp.kt:43-51 | No call when neither `isTicking` nor the tempo changed. Otherwise the disposer's cancel comes first. It is followed by exactly one vibration request when the new state is ticking with a tempo, and that request is for that tempo. |
| `Session.ScreenEffect` | app/src/main/java/com/wearda/metronome/presentation/ui/MetronomeApp.kt:53-56 | Calls are made exactly when `isTicking` changed, and they touch only the screen switch: first the disposer's `false`, and last the new `isTicking`. |
| `Session.Reevaluate` | app/src/main/java/com/wearda/metronome/presentation/ui/MetronomeApp.kt:43-56 | Every vibration request comes right after a cancel and is for the tempo of a ticking session. A keep-screen-on call is made exactly when `isTicking` changed, and the last one is the new `isTicking`. A change in the wanted vibration always issues a cancel. An unchanged state makes no call. |
| `Session.ReevaluateKeepsConsistent` | app/src/main/java/com/wearda/metronome/presentation/ui/MetronomeApp.kt:43-56 | If the vibrator and the screen switch agreed with the old state, they agree with the new state after the effects are re-run. Requests stay cancel-first. |
| `Session.TapArmsStart` | app/src/main/java/com/wearda/metronome/presentation/ui/MetronomeApp.kt:73-75 | A tap on the init screen requests no vibration and makes no keep-screen-on call; its only possible call is a cancel. When the start it arms fires, the vibrator is asked to beat the tapped tempo. |
| `Session.SettleStartsTicking` | app/src/main/java/com/wearda/metronome/presentation/ui/MetronomeApp.kt:33 | An armed start, whether or not the app is paused, moves the session to the ticking screen with the same tempo. It cancels, vibrates with the tempo if one is set, and turns keep-screen-on from false to true. |
| `Session.StopCancelsOnce` | app/src/main/java/com/wearda/metronome/presentation/ui/MetronomeApp.kt:94-96 | Stop goes to the init screen, clears the tempo and stops ticking. It issues exactly one cancel when something could have been vibrating, and no vibration request. |
| `Session.StopThenTapIsFresh` | app/src/main/java/com/wearda/metronome/presentation/ui/MetronomeApp.kt:73-96 | After a stop, a tap is accepted and leaves the session as a fresh launch would, with only the new tempo set and the start armed. |
| `Session.SwipeBackKeepsTempo` | app/src/main/java/com/wearda/metronome/presentation/ui/MetronomeApp.kt:68 | A swipe back from the ticking screen goes to init and stops ticking. It cancels any wanted vibration and requests none, but it keeps the tempo, since line 96 runs only for the stop button. |
| `Session.PauseSilences` | app/src/main/java/com/wearda/metronome/presentation/ui/MetronomeApp.kt:58-60 | Pause saves `isTicking`, stops ticking, and keeps the tempo and the route. It cancels any wanted vibration and requests none. |
| `Session.PauseThenResume` | app/src/main/java/com/wearda/metronome/presentation/ui/MetronomeApp.kt:58-65 | Pause then resume returns the same state, except that the tempo is dropped when the session was not ticking. A ticking session's vibration is requested again. |
| `Session.RunKeepsInvariants` | app/src/main/java/com/wearda/metronome/presentation/ui/MetronomeApp.kt:43-56 | Over any admissible sequence of events, the invariant holds and the collaborators agree with the session. |
| `Session.SessionOutputs` | app/src/main/java/com/wearda/metronome/presentation/ui/MetronomeApp.kt:43-56 | From launch, the vibrator beats `t` if and only if the session is ticking with tempo `t`. Keep-screen-on always equals `isTicking`. Vibration requests are cancel-first. Disposal leaves the vibrator cancelled and keep-screen-on false. |
| `Session.ResumeBeforeSettleLosesTempo` | app/src/main/java/com/wearda/metronome/presentation/ui/MetronomeApp.kt:58-75 | Tap, pause, resume, then settle reaches the ticking screen, ticking, with no tempo and no vibration. |
| `Session.SettleWhilePaused` | app/src/main/java/com/wearda/metronome/presentation/ui/MetronomeApp.kt:33-64 | A settle while paused starts the vibration. The resume that follows leaves the ticking screen not ticking, with no tempo and no vibration. |
| `Session.MetronomeSession.constructor` | app/src/main/java/com/wearda/metronome/presentation/ui/MetronomeApp.kt:30-56 | A new session is on the init screen, with no tempo, not ticking, and no start armed. Its only call is keep-screen-on false. |
| `Session.MetronomeSession.Recompose` | app/src/main/java/com/wearda/metronome/presentation/ui/MetronomeApp.kt:43-56 | Appends the calls of the effects whose keys changed, and restores the agreement with the collaborators. |
| `Session.MetronomeSession.OnTempoSet` | app/src/main/java/com/wearda/metronome/presentation/ui/MetronomeApp.kt:73-75 | The new fields are `Next(old, Tap)`. The calls are extended by `Reevaluate`. The object invariant is kept. |
| `Session.MetronomeSession.OnSettled` | app/src/main/java/com/wearda/metronome/presentation/ui/MetronomeApp.kt:33 | The new fields are `Next(old, Settle)`. The calls are extended by `Reevaluate`. The object invariant is kept. |
| `Session.MetronomeSession.OnStopClicked` | app/src/main/java/com/wearda/metronome/presentation/ui/MetronomeApp.kt:94-96 | The new fields are `Next(old, Stop)`. The calls are extended by `Reevaluate`. The object invariant is kept. |
| `Session.MetronomeSession.OnSwipeBack` | app/src/main/java/com/wearda/metronome/presentation/ui/MetronomeApp.kt:68 | The new fields are `Next(old, SwipeBack)`. The calls are extended by `Reevaluate`. The object invariant is kept. |
| `Session.MetronomeSession.OnPause` | app/src/main/java/com/wearda/metronome/presentation/ui/MetronomeApp.kt:58-60 | The new fields are `Next(old, Pause)`. The calls are extended by `Reevaluate`. The object invariant is kept. |
| `Session.MetronomeSession.OnResume` | app/src/main/java/com/wearda/metronome/presentation/ui/MetronomeApp.kt:61-64 | The new fields are `Next(old, Resume)`. The calls are extended by `Reevaluate`. The object invariant is kept. |
| `Session.MetronomeSession.Dispose` | app/src/main/java/com/wearda/metronome/presentation/ui/MetronomeApp.kt:50-55 | Appends the two disposers' calls: cancel, then keep-screen-on false. The vibrator is left cancelled and the screen released. |

## Left out

- `TempoSetPage.kt` is not part of this model. It is screen layout that only passes callbacks through.
- The tempo-to-interval conversion (`tempoToInterval`) is not part of this model. It is a function parameter of `Waveform.CreateTempoVibrationWaveform`, with no formula assumed.
- Waveform.WaveformForInterval: intervals below -2^24 are excluded by its precondition. There the float conversion rounds, and rounding is not modelled.
- The Android vibrator service and `VibrationEffect.createWaveform` are foreign calls. Only the timing array, the amplitude array and the repeat index passed to them are modelled. The platform constructor validates the timings, and is likely to reject a negative timing or an all-zero pattern; neither that validation nor what it does with such timings is modelled. The session's vibration request carries the tempo, and its waveform is the one `Waveform.CreateTempoVibrationWaveform` gives.
- The debounce utility and the tap-reset constant are not part of this model. The timer firing is the explicit event Settle. The model assumes that a later tap cancels the earlier timer, so at most one start is pending. The debouncer is built on every composition without being remembered, so this is not certain. Without it, a second start would push a second "ticking" entry, and stop would land on "ticking" again.
- The `onPause`/`onResume` helper is not part of this model. Pause and resume are explicit events, and each resume uses the flag saved by the latest pause, once.
- The tap button that estimates the tempo is not part of this model, so tap-interval estimation and tempo clamping are not modelled. A tap delivers an arbitrary tempo.
- Compose recomposition is not modelled. `isTicking` is a captured local in the source, and whether assigning it re-runs the effects is framework behaviour. The model treats it as a field, and every event re-runs the effects whose keys changed. In the source, the effect keys are read at lines 43 and 53, before the pause handler assigns `isTicking` at line 60. So a pause most likely neither cancels the vibration nor releases the screen. `Session.PauseSilences` and `Session.PauseThenResume` describe what lines 58-64 evidently intend.
- The relative order of the calls of the two effects is framework-defined, and so is the order of their disposers. The model makes the vibration effect's calls first, both on a key change and on disposal (`Session.MetronomeSession.Dispose` appends cancel, then keep-screen-on false). Compose likely runs disposers in reverse order of registration: on disposal, the screen's `false` would come before the cancel, and on a key change both disposers would run before either effect runs again. `LastVibration`, `LastScreenOn` and `CancelsFirst` do not depend on this interleaving, because each reads only its own collaborator's calls.
- The navigation back stack is reduced to the current route. Stop (navigate up) and the swipe back are possible only from the ticking screen. A swipe on the init screen closes the app, which is the disposal.
- The UI delivers taps only on the init screen and stop only on the ticking screen, never while paused. These are preconditions of those events, not modelled rejections.
- Logging, theming, text display and the navigation host are not modelled.
