/** Waiting for the relays and control channels of a closed hub can finish by unaided steps alone. */
module RelayWaiting {
  import opened Options
  import opened RelayModel
  import opened RelayTheorems
  import opened RelayShutdown
  import opened RelayProgress

  lemma LoweringStep(s: System, a: Action) returns (s': System)
    requires Idles(s.hub) && Lowers(s, a)
    ensures Step(s, a) == Some(s') && Total(s'.threads) < Total(s.threads)
  {
    hide Idles, MoveOf, Perform, ChannelsAfter, ConnsAfter, AddsNothing, WorkAt;
    var m := MoveOf(s, a).value;
    EveryMoveAddsNothing(s, a, m);
    TotalAfter(s, a.t, m);
    s' := Execute(s, a.t, m);
  }

  lemma WindingDownIdles(s: System)
    requires WindingDown(s)
    ensures Idles(s.hub)
  {
    hide RelayInv, Settled, Winding, Idles;
    SettledIdles(s);
  }

  /** A run of unaided steps. */
  predicate UnaidedRun(s: System, actions: seq<Action>)
    decreases |actions|
  {
    actions != [] ==>
      Unaided(s, actions[0]) && Step(s, actions[0]).Some? && UnaidedRun(Step(s, actions[0]).value, actions[1..])
  }

  lemma RunFirst(s: System, a: Action, between: System, actions: seq<Action>, s': System)
    requires Step(s, a) == Some(between) && Run(between, actions) == Some(s')
    ensures Run(s, [a] + actions) == Some(s')
    decreases |actions|
  {
    hide Step;
    var all := [a] + actions;
    if actions == [] {
      assert all[..0] == [] && Run(s, []) == Some(s);
    } else {
      var last := |actions| - 1;
      assert all[..|all| - 1] == [a] + actions[..last];
      RunFirst(s, a, between, actions[..last], Run(between, actions[..last]).value);
    }
  }

  lemma {:induction false} Finishes(s: System) returns (actions: seq<Action>, s': System)
    requires WindingDown(s)
    ensures UnaidedRun(s, actions) && Run(s, actions) == Some(s') && s'.hub.running == 0
    decreases Total(s.threads)
  {
    hide WindingDown, Step, Lowers, Unaided, Total, Run, Idles;
    if s.hub.running == 0 {
      actions, s' := [], s;
      RunNothing(s);
    } else {
      var a := SomebodyGoesOn(s);
      WindingDownIdles(s);
      var next := LoweringStep(s, a);
      StepKeepsWindingDown(s, a, next);
      var rest;
      rest, s' := Finishes(next);
      actions := [a] + rest;
      assert actions[1..] == rest;
      RunFirst(s, a, next, rest, s');
    }
  }

  lemma RunNothing(s: System)
    ensures Run(s, []) == Some(s)
  {
  }

  /** Once the Close call that closed the hub has returned, then whatever happens, unaided steps can finish the waiting.
      */
  lemma WaitCanFinish(s: System, closer: ThreadId, actions: seq<Action>, s': System)
    requires Reachable(s) && closer in s.threads && s.threads[closer].frame.CloseReturned?
    requires Run(s, actions) == Some(s')
    ensures exists more, end :: UnaidedRun(s', more) && Run(s', more) == Some(end) && end.hub.running == 0
  {
    hide Run, Reachable, WindingDown, UnaidedRun;
    ClosedIsWindingDown(s, closer, actions, s');
    var more, end := Finishes(s');
  }

  /** And while something is being served, some unaided step lowers the work that no step of any thread adds to. */
  lemma WaitMakesProgress(s: System, closer: ThreadId, actions: seq<Action>, s': System)
    requires Reachable(s) && closer in s.threads && s.threads[closer].frame.CloseReturned?
    requires Run(s, actions) == Some(s')
    ensures s'.hub.running > 0 ==> exists a ::
              Unaided(s', a) && Step(s', a).Some? && Total(Step(s', a).value.threads) < Total(s'.threads)
    ensures forall a :: Step(s', a).Some? ==> Total(Step(s', a).value.threads) <= Total(s'.threads)
  {
    hide Run, Reachable, WindingDown, Step, Lowers, Unaided, Total, Idles;
    ClosedIsWindingDown(s, closer, actions, s');
    WindingDownIdles(s');
    if s'.hub.running > 0 {
      var a := SomebodyGoesOn(s');
      var next := LoweringStep(s', a);
    }
    forall a | Step(s', a).Some? ensures Total(Step(s', a).value.threads) <= Total(s'.threads) {
      WorkNeverGrows(s', a, Step(s', a).value);
    }
  }
}
