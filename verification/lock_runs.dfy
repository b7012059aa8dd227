/** Sequences of events on one lock view: an unlock (a trigger) must be paid for by a grab. */
module LockRuns {
  import opened LockSkins
  import opened LockMachine
  import W = ElugaWaves

  /** The states between a grab and its outcome. */
  function Armed(s: LockState): nat {
    if s == StartAttempt || s == Attempting || s == UnlockAttempt then 1 else 0
  }

  /** The view after a sequence of events, with everything it emitted in order. */
  function Run(cfg: Config, v: View, es: seq<Event>): (r: Reaction)
    requires ValidConfig(cfg) && W.Valid(v.waves)
    ensures W.Valid(r.view.waves)
    decreases |es|
  {
    if |es| == 0 then Reaction(v, [])
    else
      var r0 := Step(cfg, v, es[0]);
      var rest := Run(cfg, r0.view, es[1..]);
      Reaction(rest.view, r0.out + rest.out)
  }

  /** Number of steps in a run that took the view from READY to START_ATTEMPT. */
  function Grabs(cfg: Config, v: View, es: seq<Event>): nat
    requires ValidConfig(cfg) && W.Valid(v.waves)
    decreases |es|
  {
    if |es| == 0 then 0
    else
      var r0 := Step(cfg, v, es[0]);
      (if v.lock == Ready && r0.view.lock == StartAttempt then 1 else 0) + Grabs(cfg, r0.view, es[1..])
  }

  /** One step never produces more triggers than it consumes armed attempts plus grabs. */
  lemma StepAccounting(cfg: Config, v: View, e: Event)
    requires ValidConfig(cfg) && W.Valid(v.waves)
    ensures var r := Step(cfg, v, e);
      Triggers(r.out) + Armed(r.view.lock)
        <= (if v.lock == Ready && r.view.lock == StartAttempt then 1 else 0) + Armed(v.lock)
  {
    StepSafety(cfg, v, e);
  }

  /** Over any run, every trigger is paid for by a grab or by an attempt already under way. */
  lemma {:induction false} TriggersNeedGrabs(cfg: Config, v: View, es: seq<Event>)
    requires ValidConfig(cfg) && W.Valid(v.waves)
    ensures Triggers(Run(cfg, v, es).out) + Armed(Run(cfg, v, es).view.lock)
      <= Grabs(cfg, v, es) + Armed(v.lock)
    decreases |es|
  {
    if |es| > 0 {
      var r0 := Step(cfg, v, es[0]);
      StepAccounting(cfg, v, es[0]);
      TriggersNeedGrabs(cfg, r0.view, es[1..]);
      var rest := Run(cfg, r0.view, es[1..]);
      assert multiset(r0.out + rest.out) == multiset(r0.out) + multiset(rest.out);
    }
  }

  /** A freshly built view never unlocks more often than it is grabbed. */
  lemma FreshViewTriggersAtMostGrabs(cfg: Config, es: seq<Event>)
    requires ValidConfig(cfg)
    ensures W.Valid(NewView.waves)
    ensures Triggers(Run(cfg, NewView, es).out) <= Grabs(cfg, NewView, es)
  {
    W.InitialValid();
    TriggersNeedGrabs(cfg, NewView, es);
  }

  /** The steps of a concrete unlock on BB10 at mdpi, one event at a time: a draw readies the
      view, a grab on the halo starts an attempt, a draw makes it ATTEMPTING, a drag past the
      threshold keeps it there while the finger is down, lifting the finger reaches
      UNLOCK_ATTEMPT, and the next draw unlocks with one trigger. */
  lemma Bb10UnlockSteps()
    ensures var cfg := ConfigFor(BB10, 160, 40);
      var v := NewView.(listener := true, centerY := 200.0);
      W.Valid(v.waves)
      && var v1 := Step(cfg, v, Draw).view;
      var v2 := Step(cfg, v1, TouchEvent(Down, Touch(200.0, 0, 0.0), false)).view;
      var v3 := Step(cfg, v2, Draw).view;
      var v4 := Step(cfg, v3, TouchEvent(Move, Touch(100.0, 100, 100.0), false)).view;
      var v5 := Step(cfg, v4, TouchEvent(Up, Touch(100.0, 100, 100.0), false)).view;
      var r6 := Step(cfg, v5, Draw);
      v1.lock == Ready && v2.lock == StartAttempt && v3.lock == Attempting && v4.lock == Attempting
      && v5.lock == UnlockAttempt && r6.view.lock == UnlockSuccess && Triggers(r6.out) == 1
  {
    W.InitialValid();
  }
}
