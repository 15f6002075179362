/**
  The metronome session that `MetronomeApp` keeps: the tempo picked by tapping,
  whether the app is on the "ticking" screen, and the snapshot saved when the app
  is paused. The composable's callbacks become explicit events (tap, settle, stop,
  pause, resume) and its two disposable effects become a re-evaluation step that,
  after every event, emits the calls the session makes on the vibrator and on the
  keep-screen-on switch.

  The module has three layers: the pure transition function `Next` with the effect
  re-evaluation `Reevaluate`; observers that read, from the list of emitted calls,
  what the vibrator and the screen switch are currently doing; and the class
  `MetronomeSession`, whose event methods update its fields in place and are proved
  against `Next` and `Reevaluate`.
*/
module Session {

  datatype Option<T> = None | Some(value: T)

  /** The two navigation destinations, "init" (tempo tapping) and "ticking". */
  datatype Route = Init | Ticking

  /** A call the session makes on its collaborators. */
  datatype Effect =
    | Vibrate(tempo: int)      // vibrator.vibrate(createTempoVibrationWaveform(tempo))
    | CancelVibration          // vibrator.cancel()
    | KeepScreenOn(on: bool)   // setKeepScreenOn(on)

  /** What can happen to a session. */
  datatype Event =
    | Tap(newTempo: int)   // the tap button on the init screen reports a tempo
    | Settle               // the debounced start fires
    | Stop                 // the stop button on the ticking screen
    | SwipeBack            // a swipe that dismisses the ticking screen back to init
    | Pause                // the app is paused
    | Resume               // the app is resumed

  /**
    The session's state. `isTicking` is recomputed from the route whenever the route
    changes, and is overwritten by pause and resume in between. `settlePending` says
    that the debounced start is armed; `pausedTicking` is the value saved by the
    last pause, until the resume that restores it.
  */
  datatype State = State(
    route: Route,
    tempo: Option<int>,
    isTicking: bool,
    settlePending: bool,
    pausedTicking: Option<bool>)

  /** A fresh session: on the init screen, no tempo, not ticking. */
  const Initial: State := State(Init, None, false, false, None)

  /** The calls made when the session is first composed: the screen effect runs once. */
  const InitialEffects: seq<Effect> := [KeepScreenOn(false)]

  /** The calls made when the session is disposed: both effects' disposers run. */
  const DisposalEffects: seq<Effect> := [CancelVibration, KeepScreenOn(false)]

  /**
    The UI only delivers a tap on the init screen, and a stop or a swipe back on
    the ticking screen, and none of these while the app is paused; timer and
    lifecycle events can come at any time. This admits sequences the platform never
    delivers, such as two pauses without a resume between them: the second pause
    then saves `false` and the resume stops ticking and drops the tempo.
  */
  predicate Enabled(s: State, e: Event)
  {
    match e
    case Tap(_) => s.route == Init && s.pausedTicking.None?
    case Stop | SwipeBack => s.route == Ticking && s.pausedTicking.None?
    case _ => true
  }

  /**
    Moving to a route. `isTicking` is remembered per route, so it is recomputed
    only when the route actually changes.
  */
  function Navigate(s: State, r: Route): (t: State)
    ensures t.route == r && t.tempo == s.tempo && t.settlePending == s.settlePending
    ensures t.pausedTicking == s.pausedTicking
    ensures t.isTicking == if r == s.route then s.isTicking else r == Ticking
  {
    if r == s.route then s else s.(route := r, isTicking := r == Ticking)
  }

  /**
    The state after one event. Every event keeps the invariant; only a tap sets a
    tempo; only the armed start and leaving the ticking screen change the route;
    only pause and resume touch the saved flag.
  */
  function Next(s: State, e: Event): (r: State)
    requires Enabled(s, e)
    ensures Inv(s) ==> Inv(r)
    ensures r.tempo.Some? && r.tempo != s.tempo ==> e == Tap(r.tempo.value)
    ensures r.route != s.route ==> e.Settle? || e.Stop? || e.SwipeBack?
    ensures r.pausedTicking != s.pausedTicking ==> e.Pause? || e.Resume?
    ensures r.isTicking && !s.isTicking ==> e.Settle? || e.Resume?
  {
    match e
    case Tap(t) => s.(tempo := Some(t), settlePending := true)
    case Settle => if s.settlePending then Navigate(s, Ticking).(settlePending := false) else s
    case Stop => Navigate(s, Init).(tempo := None)
    case SwipeBack => Navigate(s, Init)
    case Pause => s.(pausedTicking := Some(s.isTicking), isTicking := false)
    case Resume =>
      match s.pausedTicking
      case None => s
      case Some(last) => s.(isTicking := last, tempo := if last then s.tempo else None, pausedTicking := None)
  }

  /** The invariant every reachable state keeps. */
  predicate Inv(s: State)
  {
    && (s.isTicking ==> s.route == Ticking)
    && (s.settlePending ==> s.route == Init)
    && (s.pausedTicking == Some(true) ==> s.route == Ticking)
  }

  /** The tempo the vibrator should be beating: set only while ticking with a tempo. */
  function Requested(s: State): (r: Option<int>)
    ensures r.Some? <==> s.isTicking && s.tempo.Some?
    ensures r.Some? ==> s.tempo == Some(r.value)
  {
    if s.isTicking && s.tempo.Some? then Some(s.tempo.value) else None
  }

  /**
    The vibration effect (keyed on `isTicking` and the tempo): when a key changes,
    the previous vibration is cancelled, then a new one starts if the session is
    ticking with a tempo.
  */
  function VibrationEffect(before: State, after: State): (r: seq<Effect>)
    ensures r == [] <==> before.isTicking == after.isTicking && before.tempo == after.tempo
    ensures r != [] ==> r[0] == CancelVibration && forall i :: 1 <= i < |r| ==> r[i].Vibrate?
    ensures r != [] ==> |r| == if Requested(after).Some? then 2 else 1
    ensures forall i :: 0 <= i < |r| && r[i].Vibrate? ==> Requested(after) == Some(r[i].tempo)
  {
    if before.isTicking == after.isTicking && before.tempo == after.tempo then []
    else [CancelVibration] + if Requested(after).Some? then [Vibrate(Requested(after).value)] else []
  }

  /** The screen effect (keyed on `isTicking`): reset to false, then set to `isTicking`. */
  function ScreenEffect(before: State, after: State): (r: seq<Effect>)
    ensures r == [] <==> before.isTicking == after.isTicking
    ensures forall i :: 0 <= i < |r| ==> r[i].KeepScreenOn?
    ensures r != [] ==> r[0] == KeepScreenOn(false) && r[|r| - 1] == KeepScreenOn(after.isTicking)
  {
    if before.isTicking == after.isTicking then [] else [KeepScreenOn(false), KeepScreenOn(after.isTicking)]
  }

  /** The calls made when the state changes from `before` to `after`. */
  function Reevaluate(before: State, after: State): (effects: seq<Effect>)
    ensures forall i :: 0 <= i < |effects| && effects[i].Vibrate? ==>
      i > 0 && effects[i - 1] == CancelVibration && Requested(after) == Some(effects[i].tempo)
    ensures before.isTicking != after.isTicking ==> |effects| >= 2 && effects[|effects| - 1] == KeepScreenOn(after.isTicking)
    ensures before.isTicking == after.isTicking ==> forall i :: 0 <= i < |effects| ==> !effects[i].KeepScreenOn?
    ensures Requested(before) != Requested(after) ==> CancelVibration in effects
    ensures before == after ==> effects == []
  {
    VibrationEffect(before, after) + ScreenEffect(before, after)
  }

  /** What the vibrator is doing after the calls in `log`: the tempo it beats, if any. */
  function LastVibration(log: seq<Effect>): (tempo: Option<int>)
  {
    if log == [] then None
    else match log[|log| - 1]
      case Vibrate(t) => Some(t)
      case CancelVibration => None
      case KeepScreenOn(_) => LastVibration(log[..|log| - 1])
  }

  /** The last keep-screen-on value set in `log`, if any. */
  function LastScreenOn(log: seq<Effect>): (on: Option<bool>)
  {
    if log == [] then None
    else match log[|log| - 1]
      case KeepScreenOn(on) => Some(on)
      case _ => LastScreenOn(log[..|log| - 1])
  }

  /** The vibrator is only ever asked to vibrate when nothing is vibrating. */
  predicate CancelsFirst(log: seq<Effect>)
  {
    forall i :: 0 <= i < |log| && log[i].Vibrate? ==> LastVibration(log[..i]).None?
  }

  /** The collaborators are in the state the session says they should be in. */
  predicate Consistent(s: State, log: seq<Effect>)
  {
    && LastVibration(log) == Requested(s)
    && LastScreenOn(log) == Some(s.isTicking)
    && CancelsFirst(log)
  }

  lemma LastOfSnoc(log: seq<Effect>, x: Effect)
    ensures LastVibration(log + [x]) ==
      match x case Vibrate(t) => Some(t) case CancelVibration => None case KeepScreenOn(_) => LastVibration(log)
    ensures LastScreenOn(log + [x]) == if x.KeepScreenOn? then Some(x.on) else LastScreenOn(log)
  {
  }

  /** Calls to the screen switch alone leave the vibrator as it was. */
  lemma {:induction false} ScreenCallsKeepVibration(log: seq<Effect>, k: seq<Effect>)
    requires forall i :: 0 <= i < |k| ==> k[i].KeepScreenOn?
    ensures LastVibration(log + k) == LastVibration(log)
    ensures k != [] ==> LastScreenOn(log + k) == Some(k[|k| - 1].on)
    ensures k == [] ==> LastScreenOn(log + k) == LastScreenOn(log)
  {
    if k == [] {
      assert log + k == log;
    } else {
      var k' := k[..|k| - 1];
      assert log + k == (log + k') + [k[|k| - 1]];
      ScreenCallsKeepVibration(log, k');
      LastOfSnoc(log + k', k[|k| - 1]);
    }
  }

  /** Re-evaluating the effects after a step brings the collaborators in line with the new state. */
  lemma {:induction false} ReevaluateKeepsConsistent(before: State, after: State, log: seq<Effect>)
    requires Consistent(before, log)
    ensures Consistent(after, log + Reevaluate(before, after))
  {
    var v := VibrationEffect(before, after);
    var sc := ScreenEffect(before, after);
    var out := log + Reevaluate(before, after);
    assert out == (log + v) + sc;
    // the vibration part
    if v == [] {
      assert log + v == log;
      assert Requested(before) == Requested(after);
    } else if Requested(after).Some? {
      assert log + v == (log + [CancelVibration]) + [Vibrate(Requested(after).value)];
      LastOfSnoc(log, CancelVibration);
      LastOfSnoc(log + [CancelVibration], Vibrate(Requested(after).value));
    } else {
      assert log + v == log + [CancelVibration];
      LastOfSnoc(log, CancelVibration);
    }
    assert LastVibration(log + v) == Requested(after);
    // the screen part
    ScreenCallsKeepVibration(log + v, sc);
    ScreenUnchangedByVibration(log, v);
    // cancels come first
    forall i | 0 <= i < |out| && out[i].Vibrate?
      ensures LastVibration(out[..i]).None?
    {
      if i < |log| {
        assert out[..i] == log[..i];
      } else {
        assert i == |log| + 1 && |v| == 2;
        assert out[..i] == log + [CancelVibration];
        LastOfSnoc(log, CancelVibration);
      }
    }
  }

  /** Vibrator calls alone leave the screen switch as it was. */
  lemma {:induction false} ScreenUnchangedByVibration(log: seq<Effect>, k: seq<Effect>)
    requires forall i :: 0 <= i < |k| ==> !k[i].KeepScreenOn?
    ensures LastScreenOn(log + k) == LastScreenOn(log)
  {
    if k != [] {
      var k' := k[..|k| - 1];
      assert log + k == (log + k') + [k[|k| - 1]];
      ScreenUnchangedByVibration(log, k');
      LastOfSnoc(log + k', k[|k| - 1]);
    } else {
      assert log + k == log;
    }
  }

  /** Calls that never ask for a vibration keep the cancel-first discipline. */
  lemma AppendWithoutVibrate(log: seq<Effect>, k: seq<Effect>)
    requires CancelsFirst(log)
    requires forall i :: 0 <= i < |k| ==> !k[i].Vibrate?
    ensures CancelsFirst(log + k)
  {
    var out := log + k;
    forall i | 0 <= i < |out| && out[i].Vibrate?
      ensures LastVibration(out[..i]).None?
    {
      assert i < |log|;
      assert out[..i] == log[..i];
    }
  }

  // ---------------------------------------------------------------------------
  // Single transitions

  /**
    A tap on the init screen starts no vibration and leaves the screen switch alone;
    the start it arms, when it fires, beats the tapped tempo.
  */
  lemma TapArmsStart(s: State, t: int)
    requires Inv(s) && Enabled(s, Tap(t))
    ensures var n := Next(s, Tap(t));
      && Requested(n).None?
      && (forall i :: 0 <= i < |Reevaluate(s, n)| ==> Reevaluate(s, n)[i] == CancelVibration)
      && Requested(Next(n, Settle)) == Some(t)
  {
  }

  /**
    When the armed start fires, the session moves to the ticking screen, the screen
    is kept on, and, if a tempo is set, the vibrator starts beating it.
  */
  lemma SettleStartsTicking(s: State)
    requires Inv(s) && s.settlePending
    ensures var n := Next(s, Settle);
      && n.route == Ticking && n.isTicking && !n.settlePending && n.tempo == s.tempo
      && Reevaluate(s, n) == [CancelVibration] + (if s.tempo.Some? then [Vibrate(s.tempo.value)] else [])
                             + [KeepScreenOn(false), KeepScreenOn(true)]
  {
  }

  /**
    Stop leaves the ticking screen and clears the tempo; the vibrator is cancelled
    exactly once (if anything could have been running) and never restarted.
  */
  lemma StopCancelsOnce(s: State)
    requires Inv(s) && Enabled(s, Stop)
    ensures var n := Next(s, Stop);
      && n.route == Init && !n.isTicking && n.tempo.None? && Requested(n).None?
      && multiset(Reevaluate(s, n))[CancelVibration] == (if s.isTicking || s.tempo.Some? then 1 else 0)
      && forall i :: 0 <= i < |Reevaluate(s, n)| ==> !Reevaluate(s, n)[i].Vibrate?
  {
  }

  /** After a stop, the next tap starts from a fresh session whatever came before. */
  lemma StopThenTapIsFresh(s: State, t: int)
    requires Inv(s) && Enabled(s, Stop)
    ensures Enabled(Next(s, Stop), Tap(t))
    ensures Next(Next(s, Stop), Tap(t)) == Initial.(tempo := Some(t), settlePending := true)
  {
  }

  /**
    Swiping back from the ticking screen stops ticking and the vibration but, unlike
    the stop button, keeps the tempo: the init screen still shows it, and the next
    tap replaces it.
  */
  lemma SwipeBackKeepsTempo(s: State)
    requires Inv(s) && Enabled(s, SwipeBack)
    ensures var n := Next(s, SwipeBack);
      && n.route == Init && !n.isTicking && n.tempo == s.tempo && Requested(n).None?
      && (Requested(s).Some? ==> CancelVibration in Reevaluate(s, n))
      && forall i :: 0 <= i < |Reevaluate(s, n)| ==> !Reevaluate(s, n)[i].Vibrate?
  {
  }

  /** Pause saves `isTicking`, stops ticking, keeps the tempo, and silences the vibrator. */
  lemma PauseSilences(s: State)
    ensures var p := Next(s, Pause);
      && p.pausedTicking == Some(s.isTicking) && !p.isTicking && p.tempo == s.tempo && p.route == s.route
      && Requested(p).None?
      && (Requested(s).Some? ==> CancelVibration in Reevaluate(s, p))
      && forall i :: 0 <= i < |Reevaluate(s, p)| ==> !Reevaluate(s, p)[i].Vibrate?
  {
  }

  /**
    Pausing and resuming a ticking session brings it back with the same tempo and
    restarts the vibration; doing so to a session that is not ticking clears its
    tempo. Either way everything else is as before.
  */
  lemma PauseThenResume(s: State)
    requires Inv(s) && s.pausedTicking.None?
    ensures var r := Next(Next(s, Pause), Resume);
      && r == s.(tempo := if s.isTicking then s.tempo else None)
      && (Requested(s).Some? ==> Vibrate(Requested(s).value) in Reevaluate(Next(s, Pause), r))
  {
  }

  // ---------------------------------------------------------------------------
  // Whole sessions

  /** A sequence of events each of which the UI and the platform can deliver in turn. */
  predicate Admissible(s: State, events: seq<Event>)
    decreases |events|
  {
    events == [] || (Enabled(s, events[0]) && Admissible(Next(s, events[0]), events[1..]))
  }

  /** The state and the calls made after the events, starting from `s` with calls `log` already made. */
  function Run(s: State, log: seq<Effect>, events: seq<Event>): (final: (State, seq<Effect>))
    requires Admissible(s, events)
    decreases |events|
  {
    if events == [] then (s, log)
    else
      var t := Next(s, events[0]);
      Run(t, log + Reevaluate(s, t), events[1..])
  }

  lemma {:induction false} RunKeepsInvariants(s: State, log: seq<Effect>, events: seq<Event>)
    requires Inv(s) && Consistent(s, log) && Admissible(s, events)
    ensures Inv(Run(s, log, events).0) && Consistent(Run(s, log, events).0, Run(s, log, events).1)
    decreases |events|
  {
    if events != [] {
      var t := Next(s, events[0]);
      ReevaluateKeepsConsistent(s, t, log);
      RunKeepsInvariants(t, log + Reevaluate(s, t), events[1..]);
    }
  }

  /**
    Over any session from launch: the vibrator beats tempo `t` exactly when the
    session is ticking with tempo `t`, the screen is kept on exactly while ticking,
    a vibration is only ever requested after the previous one was cancelled, and
    disposing of the session leaves the vibrator cancelled and the screen released.
  */
  lemma {:induction false} SessionOutputs(events: seq<Event>, t: int)
    requires Admissible(Initial, events)
    ensures var (s, log) := Run(Initial, InitialEffects, events);
      && Inv(s)
      && (LastVibration(log) == Some(t) <==> s.isTicking && s.tempo == Some(t))
      && LastScreenOn(log) == Some(s.isTicking)
      && CancelsFirst(log)
      && LastVibration(log + DisposalEffects).None?
      && LastScreenOn(log + DisposalEffects) == Some(false)
      && CancelsFirst(log + DisposalEffects)
  {
    assert InitialEffects == [] + [KeepScreenOn(false)];
    LastOfSnoc([], KeepScreenOn(false));
    RunKeepsInvariants(Initial, InitialEffects, events);
    var (s, log) := Run(Initial, InitialEffects, events);
    assert log + DisposalEffects == (log + [CancelVibration]) + [KeepScreenOn(false)];
    LastOfSnoc(log, CancelVibration);
    LastOfSnoc(log + [CancelVibration], KeepScreenOn(false));
    AppendWithoutVibrate(log, DisposalEffects);
  }

  /**
    A tap followed by a pause and a resume before the start fires clears the tempo
    but leaves the start armed: the session then reaches the ticking screen with no
    tempo and no vibration.
  */
  lemma ResumeBeforeSettleLosesTempo(t: int)
    ensures Admissible(Initial, [Tap(t), Pause, Resume, Settle])
    ensures var (s, log) := Run(Initial, InitialEffects, [Tap(t), Pause, Resume, Settle]);
      s.route == Ticking && s.isTicking && s.tempo.None? && LastVibration(log).None?
  {
    var events := [Tap(t), Pause, Resume, Settle];
    var s1 := Next(Initial, Tap(t));
    var s2 := Next(s1, Pause);
    var s3 := Next(s2, Resume);
    var s4 := Next(s3, Settle);
    assert s4 == State(Ticking, None, true, false, None);
    assert events[1..] == [Pause, Resume, Settle] && events[2..] == [Resume, Settle] && events[3..] == [Settle];
    assert [Settle][1..] == [];
    assert Admissible(s3, [Settle]);
    assert [Resume, Settle][1..] == [Settle];
    assert Admissible(s2, [Resume, Settle]);
    assert [Pause, Resume, Settle][1..] == [Resume, Settle];
    assert Admissible(s1, [Pause, Resume, Settle]);
    assert Admissible(Initial, events);
    assert Run(Initial, InitialEffects, events).0 == s4;
    var log := Run(Initial, InitialEffects, events).1;
    if LastVibration(log).Some? {
      SessionOutputs(events, LastVibration(log).value);
    }
  }

  /**
    The armed start can fire while the app is paused: the route change recomputes
    `isTicking`, so the vibrator starts beating while paused. The resume that
    follows restores the flag saved on the init screen, which is false, so the
    session is left on the ticking screen, not ticking and without a tempo.
  */
  lemma SettleWhilePaused(t: int)
    ensures Admissible(Initial, [Tap(t), Pause, Settle, Resume]) && Admissible(Initial, [Tap(t), Pause, Settle])
    ensures var (s, log) := Run(Initial, InitialEffects, [Tap(t), Pause, Settle]);
      s.pausedTicking == Some(false) && s.isTicking && LastVibration(log) == Some(t)
    ensures var (s, log) := Run(Initial, InitialEffects, [Tap(t), Pause, Settle, Resume]);
      s == State(Ticking, None, false, false, None) && LastVibration(log).None?
  {
    var events := [Tap(t), Pause, Settle, Resume];
    var s1 := Next(Initial, Tap(t));
    var s2 := Next(s1, Pause);
    var s3 := Next(s2, Settle);
    var s4 := Next(s3, Resume);
    assert s3 == State(Ticking, Some(t), true, false, Some(false));
    assert s4 == State(Ticking, None, false, false, None);
    assert events[1..] == [Pause, Settle, Resume] && events[..3] == [Tap(t), Pause, Settle];
    assert [Pause, Settle, Resume][1..] == [Settle, Resume] && [Settle, Resume][1..] == [Resume];
    assert [Pause, Settle][1..] == [Settle] && [Settle][1..] == [] && [Resume][1..] == [];
    assert Admissible(s3, [Resume]);
    assert Admissible(s2, [Settle, Resume]) && Admissible(s2, [Settle]);
    assert Admissible(s1, [Pause, Settle, Resume]) && Admissible(s1, [Pause, Settle]);
    assert Admissible(Initial, events) && Admissible(Initial, events[..3]);
    assert Run(Initial, InitialEffects, events[..3]).0 == s3;
    assert Run(Initial, InitialEffects, events).0 == s4;
    SessionOutputs(events[..3], t);
    var log := Run(Initial, InitialEffects, events).1;
    if LastVibration(log).Some? {
      SessionOutputs(events, LastVibration(log).value);
    }
  }

  // ---------------------------------------------------------------------------
  // The session object

  /** The state `MetronomeApp` holds, updated in place by its callbacks. */
  class MetronomeSession {
    var route: Route
    var tempoOrNull: Option<int>
    var isTicking: bool
    var settlePending: bool
    var lastTickingState: Option<bool>
    /** Every call made on the vibrator and on the keep-screen-on switch, in order. */
    ghost var effects: seq<Effect>
    ghost var disposed: bool

    function Snapshot(): State
      reads this
    {
      State(route, tempoOrNull, isTicking, settlePending, lastTickingState)
    }

    ghost predicate Valid()
      reads this
    {
      && Inv(Snapshot())
      && CancelsFirst(effects)
      && (!disposed ==> Consistent(Snapshot(), effects))
      && (disposed ==> LastVibration(effects).None? && LastScreenOn(effects) == Some(false))
    }

    constructor ()
      ensures Valid() && !disposed
      ensures Snapshot() == Initial && effects == InitialEffects
    {
      route, tempoOrNull, isTicking := Init, None, false;
      settlePending, lastTickingState := false, None;
      effects, disposed := [KeepScreenOn(false)], false;
      new;
      LastOfSnoc([], KeepScreenOn(false));
      assert [] + [KeepScreenOn(false)] == effects;
    }

    /** Runs the effects whose keys changed since `before`. */
    method Recompose(ghost before: State)
      requires Inv(Snapshot()) && !disposed && Consistent(before, effects)
      modifies this`effects
      ensures Valid() && effects == old(effects) + Reevaluate(before, Snapshot())
    {
      ReevaluateKeepsConsistent(before, Snapshot(), effects);
      effects := effects + Reevaluate(before, Snapshot());
    }

    /** A tapped tempo on the init screen: store it and arm the debounced start. */
    method OnTempoSet(newTempo: int)
      requires Valid() && !disposed && Enabled(Snapshot(), Event.Tap(newTempo))
      modifies this
      ensures Valid() && !disposed
      ensures Snapshot() == Next(old(Snapshot()), Event.Tap(newTempo))
      ensures effects == old(effects) + Reevaluate(old(Snapshot()), Snapshot())
    {
      ghost var before := Snapshot();
      tempoOrNull := Some(newTempo);
      settlePending := true;
      Recompose(before);
    }

    /** The debounced start fires: navigate to the ticking screen if it is armed. */
    method OnSettled()
      requires Valid() && !disposed
      modifies this
      ensures Valid() && !disposed
      ensures Snapshot() == Next(old(Snapshot()), Event.Settle)
      ensures effects == old(effects) + Reevaluate(old(Snapshot()), Snapshot())
    {
      ghost var before := Snapshot();
      if settlePending {
        settlePending := false;
        if route != Ticking {
          route := Ticking;
          isTicking := true;
        }
      }
      Recompose(before);
    }

    /** The stop button: navigate up to the init screen and clear the tempo. */
    method OnStopClicked()
      requires Valid() && !disposed && Enabled(Snapshot(), Event.Stop)
      modifies this
      ensures Valid() && !disposed
      ensures Snapshot() == Next(old(Snapshot()), Event.Stop)
      ensures effects == old(effects) + Reevaluate(old(Snapshot()), Snapshot())
    {
      ghost var before := Snapshot();
      route := Init;
      isTicking := false;
      tempoOrNull := None;
      Recompose(before);
    }

    /** A swipe back from the ticking screen: pop back to the init screen. */
    method OnSwipeBack()
      requires Valid() && !disposed && Enabled(Snapshot(), Event.SwipeBack)
      modifies this
      ensures Valid() && !disposed
      ensures Snapshot() == Next(old(Snapshot()), Event.SwipeBack)
      ensures effects == old(effects) + Reevaluate(old(Snapshot()), Snapshot())
    {
      ghost var before := Snapshot();
      route := Init;
      isTicking := false;
      Recompose(before);
    }

    /** The app is paused: save `isTicking` and stop ticking. */
    method OnPause()
      requires Valid() && !disposed
      modifies this
      ensures Valid() && !disposed
      ensures Snapshot() == Next(old(Snapshot()), Event.Pause)
      ensures effects == old(effects) + Reevaluate(old(Snapshot()), Snapshot())
    {
      ghost var before := Snapshot();
      lastTickingState := Some(isTicking);
      isTicking := false;
      Recompose(before);
    }

    /** The app is resumed: restore the saved flag, and drop the tempo if not ticking. */
    method OnResume()
      requires Valid() && !disposed
      modifies this
      ensures Valid() && !disposed
      ensures Snapshot() == Next(old(Snapshot()), Event.Resume)
      ensures effects == old(effects) + Reevaluate(old(Snapshot()), Snapshot())
    {
      ghost var before := Snapshot();
      if lastTickingState.Some? {
        isTicking := lastTickingState.value;
        if !isTicking {
          tempoOrNull := None;
        }
        lastTickingState := None;
      }
      Recompose(before);
    }

    /** The composable leaves: both effects' disposers run. */
    method Dispose()
      requires Valid() && !disposed
      modifies this`effects, this`disposed
      ensures Valid() && disposed
      ensures effects == old(effects) + DisposalEffects
    {
      assert effects + DisposalEffects == (effects + [CancelVibration]) + [KeepScreenOn(false)];
      LastOfSnoc(effects, CancelVibration);
      LastOfSnoc(effects + [CancelVibration], KeepScreenOn(false));
      AppendWithoutVibrate(effects, DisposalEffects);
      effects := effects + DisposalEffects;
      disposed := true;
    }
  }
}
