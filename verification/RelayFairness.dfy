/** Waiting for the closed hub ends in every endless run that does not put off for ever what can go on unaided. */
module RelayFairness {
  import opened Options
  import opened RelayModel
  import opened RelayTallies
  import opened RelayProtocol
  import opened RelayThreads
  import opened RelayInvariants
  import opened RelayDuties
  import opened RelayOwnership
  import opened RelayTheorems
  import opened RelayShutdown
  import opened RelayProgress
  import opened RelayWaiting

  /** What a later state keeps for a thread that has not moved. */
  ghost predicate Later(s: System, s': System, t: ThreadId) {
    && t in s.threads && t in s'.threads && s'.threads[t] == s.threads[t]
    && ChannelsGrow(s.channels, s'.channels) && Idles(s'.hub)
    && (forall sid :: sid in s.hub.table ==> sid in s'.hub.table && Evolves(s.hub.table[sid], s'.hub.table[sid]))
    && (forall c :: c in s.conns && s.conns[c] == Gone ==> c in s'.conns && s'.conns[c] == Gone)
    && (forall p :: Returned(s, p) ==> Returned(s', p))
  }

  lemma EndingStays(s: System, s': System, a: Action)
    requires Later(s, s', a.t) && GoesOn(s, a)
    requires a.EndSignals? || a.EndTells? || a.EndClosesViewer? || a.EndClosesData?
    ensures GoesOn(s', a)
  {
    hide Idles;
  }

  lemma ChannelStays(s: System, s': System, a: Action)
    requires Later(s, s', a.t) && GoesOn(s, a)
    requires a.StopReplaced? || a.ChannelEnds? || a.TearDown? || a.EndOrphan? || a.ServeReturns?
    ensures GoesOn(s', a)
  {
    hide Idles, WorkOf, WorkAt, End, OrphansOf;
    match a
    case StopReplaced(t) => StopReplacedGoesOn(s', t);
    case ChannelEnds(t) => ChannelGoesOn(s', t);
    case TearDown(t) => TeardownGoesOn(s', t);
    case EndOrphan(t, sid) => EndOrphanGoesOn(s', t, sid);
    case ServeReturns(t) => ServeReturnsGoesOn(s', t);
  }

  lemma RelayStays(s: System, s': System, a: Action)
    requires Later(s, s', a.t) && GoesOn(s, a)
    requires a.RelaySeesDone? || a.RelayReturns? || a.PumpEnds?
    ensures GoesOn(s', a)
  {
    hide End, EndingOf, CallOf, DecideOpen, Relayable, DecideRegister, OrphansOf, ChannelsGrow;
  }

  /** A step of a thread that has work left either lowers it or leaves the thread where it was. */
  predicate LowersOrStays(s: System, t: ThreadId, m: Move) {
    t in s.threads && WorkOf(s.threads[t]) > 0 ==>
      WorkOf(Thread(m.frame, m.call)) < WorkOf(s.threads[t]) || Thread(m.frame, m.call) == s.threads[t]
  }

  lemma StreamMovesLowerOrStay(s: System, a: Action, m: Move)
    requires Idles(s.hub) && MoveOf(s, a) == Some(m) && OfStreams(a)
    ensures LowersOrStays(s, a.t, m)
  {
    hide Allowed, Claimable, RefusalCode, DoneError, CloseCodeFor, End, EndingOf, CallOf, DecideOpen, Relayable,
        DecideRegister, OrphansOf;
  }

  lemma OwnMovesLowerOrStay(s: System, t: ThreadId, m: Move)
    requires CallMove(s, t, m) || ServingMove(s, t, m) || MoveDrop(s, t) == Some(m) || MoveClose(s, t) == Some(m)
        || MoveCloseJoins(s, t) == Some(m) || MoveCloseReturns(s, t) == Some(m)
    ensures LowersOrStays(s, t, m)
  {
    hide Returned;
  }

  lemma OrphanMovesLowerOrStay(s: System, t: ThreadId, sid: Id, m: Move)
    requires Idles(s.hub) && MoveEndOrphan(s, t, sid) == Some(m)
    ensures LowersOrStays(s, t, m)
  {
    hide End, EndingOf, CallOf, DecideOpen, Relayable, DecideRegister, OrphansOf;
    var rest := FrameOf(s, t).rest;
    assert |rest - {sid}| == |rest| - 1;
  }

  lemma TearDownLowers(s: System, t: ThreadId, m: Move)
    requires Idles(s.hub) && MoveTearDown(s, t) == Some(m)
    ensures LowersOrStays(s, t, m)
  {
    hide End, EndingOf, CallOf, DecideOpen, Relayable, DecideRegister, OrphansOf;
  }

  lemma IdleMovesLowerOrStay(s: System, a: Action, m: Move)
    requires (a.ServeControl? || a.CloseEndsSession? || a.CloseStopsChannel?) && MoveOf(s, a) == Some(m)
    ensures LowersOrStays(s, a.t, m)
  {
    hide DecideRegister, EndingOf, CallOf;
  }

  lemma ChannelMovesLowerOrStay(s: System, a: Action, m: Move)
    requires Idles(s.hub) && MoveOf(s, a) == Some(m) && !OfStreams(a)
    ensures LowersOrStays(s, a.t, m)
  {
    hide Idles, LowersOrStays, MoveDrop, MoveServeControl, MoveStopReplaced, MoveChannelEnds, MoveTearDown,
        MoveEndOrphan, MoveServeReturns, MoveClose, MoveCloseEndsSession, MoveCloseJoins, MoveCloseStopsChannel,
        MoveCloseReturns, MoveEndSignals, MoveEndTells, MoveEndClosesViewer, MoveEndClosesData;
    match a
    case ServeControl(_, _, _, _) => IdleMovesLowerOrStay(s, a, m);
    case CloseEndsSession(_, _, _) => IdleMovesLowerOrStay(s, a, m);
    case TearDown(t) => TearDownLowers(s, t, m);
    case EndOrphan(t, sid) => OrphanMovesLowerOrStay(s, t, sid, m);
    case CloseStopsChannel(_, _) => IdleMovesLowerOrStay(s, a, m);
    case _ => OwnMovesLowerOrStay(s, a.t, m);
  }

  lemma EveryMoveLowersOrStays(s: System, a: Action, m: Move)
    requires Idles(s.hub) && MoveOf(s, a) == Some(m)
    ensures LowersOrStays(s, a.t, m)
  {
    hide MoveOf, LowersOrStays, Idles;
    if OfStreams(a) {
      StreamMovesLowerOrStay(s, a, m);
    } else {
      ChannelMovesLowerOrStay(s, a, m);
    }
  }

  /** A thread that has returned moves no more. */
  lemma ReturnedStays(s: System, a: Action, s': System, p: ThreadId)
    requires RelayInv(s) && Step(s, a) == Some(s') && Returned(s, p)
    ensures Returned(s', p)
  {
    hide MoveOf, Perform, ChannelsAfter, ConnsAfter, RelayInv;
    var m := MoveOf(s, a).value;
    if p == a.t {
      ReturnedIsDone(s, a);
    } else {
      MoveIsOk(s, a);
      NotAnActor(s, a.t, m, p);
      OnlyActorsMove(s, a.t, m, p);
    }
  }

  lemma NotAnActor(s: System, t: ThreadId, m: Move, p: ThreadId)
    requires MoveOk(s, t, m) && p in s.threads && p != t
    ensures p !in Actors(t, m)
  {
    hide Perform, ThreadOk, ChannelsAfter, HoldsRole, TakesVacant, Timely, Allowed;
  }

  lemma ReturnedIsDone(s: System, a: Action)
    requires Returned(s, a.t)
    ensures MoveOf(s, a).None?
  {
    hide Allowed, DecideOpen, DecideRegister, OrphansOf, Claimable, Relayable, RefusalCode, DoneError, CloseCodeFor,
        EndingOf, CallOf, End;
  }

  /** What is true later whatever step another thread, or the thread itself without moving, takes. */
  lemma StepIsLater(s: System, b: Action, s': System, t: ThreadId)
    requires WindingDown(s) && Step(s, b) == Some(s') && t in s.threads && t in s'.threads
        && s'.threads[t] == s.threads[t]
    ensures Later(s, s', t)
  {
    hide MoveOf, Perform, ChannelsAfter, ConnsAfter, ThreadsAfter, Idles, Settled, Winding, Returned, Evolves,
        DutiesAttended, ExactRunning, HubInv, SessionsOk, ThreadsOk, UniqueRoles, ControlsOk, Owned;
    StepEvolves(s, b, s');
    StepKeepsWindingDown(s, b, s');
    SettledIdles(s');
    ChannelsLater(s, b, s');
    forall c | c in s.conns && s.conns[c] == Gone ensures c in s'.conns && s'.conns[c] == Gone {
      ClosedByItsHolder(s, b, s', c);
    }
    forall p | Returned(s, p) ensures Returned(s', p) {
      ReturnedStays(s, b, s', p);
    }
  }

  lemma ChannelsLater(s: System, b: Action, s': System)
    requires RelayInv(s) && Step(s, b) == Some(s')
    ensures ChannelsGrow(s.channels, s'.channels)
  {
    hide MoveOf, Perform, ConnsAfter, ThreadsAfter, ChannelsGrow, RelayInv, ThreadOk, Timely, TakesVacant, StartedOk;
    MoveIsOk(s, b);
    ChannelsOnlyGrow(s, MoveOf(s, b).value);
  }

  /** What can go on stays possible through any step of any thread, unless that step lowers the work. */
  lemma StaysPossible(s: System, a: Action, b: Action, s': System)
    requires WindingDown(s) && GoesOn(s, a) && Step(s, b) == Some(s')
    ensures Total(s'.threads) < Total(s.threads) || GoesOn(s', a)
  {
    hide RelayInv, Settled, Winding, GoesOn, MoveOf, Perform, ChannelsAfter, ConnsAfter, AddsNothing, Total, Later,
        MoveOk;
    var m := MoveOf(s, b).value;
    HasWork(s, a);
    SettledIdles(s);
    hide Idles;
    EveryMoveLowersOrStays(s, b, m);
    EveryMoveAddsNothing(s, b, m);
    TotalAfter(s, b.t, m);
    if Total(s'.threads) >= Total(s.threads) {
      MoveIsOk(s, b);
      ThreadStays(s, a.t, b, m);
      StepIsLater(s, b, s', a.t);
      StillGoesOn(s, s', a);
    }
  }

  lemma HasWork(s: System, a: Action)
    requires GoesOn(s, a)
    ensures a.t in s.threads && WorkOf(s.threads[a.t]) > 0
  {
    hide MoveOf, Unaided;
  }

  lemma ThreadStays(s: System, t: ThreadId, b: Action, m: Move)
    requires MoveOk(s, b.t, m) && t in s.threads && WorkOf(s.threads[t]) > 0
    requires LowersOrStays(s, b.t, m) && WorkOf(Thread(m.frame, m.call)) >= WorkAt(s.threads, b.t)
    ensures t in ThreadsAfter(s.threads, b.t, m) && ThreadsAfter(s.threads, b.t, m)[t] == s.threads[t]
  {
    hide WorkOf, StartedOk, ThreadOk, Timely, TakesVacant, HoldsRole;
    if t == b.t {
      StartersStay(s, t, m);
    } else {
      NotAnActor(s, b.t, m, t);
      OnlyActorsMove(s, b.t, m, t);
    }
  }

  lemma StartersStay(s: System, t: ThreadId, m: Move)
    requires MoveOk(s, t, m) && t in s.threads
    ensures t in ThreadsAfter(s.threads, t, m) && ThreadsAfter(s.threads, t, m)[t] == Thread(m.frame, m.call)
  {
    hide Perform, ThreadOk, ChannelsAfter, HoldsRole, TakesVacant, Timely, Allowed;
  }

  lemma StillGoesOn(s: System, s': System, a: Action)
    requires Later(s, s', a.t) && GoesOn(s, a)
    ensures GoesOn(s', a)
  {
    hide Later, Lowers;
    if a.EndSignals? || a.EndTells? || a.EndClosesViewer? || a.EndClosesData? {
      EndingStays(s, s', a);
    } else if a.RelaySeesDone? || a.RelayReturns? || a.PumpEnds? {
      RelayStays(s, s', a);
    } else {
      ChannelStays(s, s', a);
    }
  }

  /** An endless run; where the action is None nothing happens. */
  ghost predicate Endless(states: nat -> System, actions: nat -> Option<Action>) {
    forall n: nat :: Advances(states, actions, n)
  }

  predicate Advances(states: nat -> System, actions: nat -> Option<Action>, n: nat) {
    if actions(n).Some? then Step(states(n), actions(n).value) == Some(states(n + 1)) else states(n + 1) == states(n)
  }

  ghost predicate PossibleFrom(states: nat -> System, n: nat, a: Action) {
    forall k: nat :: k >= n ==> GoesOn(states(k), a)
  }

  ghost predicate TakenFrom(actions: nat -> Option<Action>, n: nat, a: Action) {
    exists k: nat :: k >= n && actions(k) == Some(a)
  }

  /** An unaided step that is possible from some moment on is taken some time. */
  ghost predicate Fair(states: nat -> System, actions: nat -> Option<Action>) {
    forall n: nat, a :: PossibleFrom(states, n, a) ==> TakenFrom(actions, n, a)
  }

  lemma {:induction false} AlongTheRun(states: nat -> System, actions: nat -> Option<Action>, n: nat, k: nat, a: Action)
    requires Endless(states, actions) && n <= k && WindingDown(states(n)) && GoesOn(states(n), a)
    ensures WindingDown(states(k)) && Total(states(k).threads) <= Total(states(n).threads)
    ensures Total(states(k).threads) < Total(states(n).threads) || GoesOn(states(k), a)
  {
    hide WindingDown, GoesOn, Step, Total;
    if n < k {
      AlongTheRun(states, actions, n, k - 1, a);
      assert Advances(states, actions, k - 1);
      if actions(k - 1).Some? {
        NextState(states(k - 1), actions(k - 1).value, states(k));
        if GoesOn(states(k - 1), a) {
          StaysPossible(states(k - 1), a, actions(k - 1).value, states(k));
        }
      }
    }
  }

  lemma NextState(s: System, b: Action, s': System)
    requires WindingDown(s) && Step(s, b) == Some(s')
    ensures WindingDown(s') && Total(s'.threads) <= Total(s.threads)
  {
    hide WindingDown, Step, Total, Idles;
    StepKeepsWindingDown(s, b, s');
    WindingDownIdles(s);
    WorkNeverGrows(s, b, s');
  }

  /** In every endless run after the closing call in which unaided steps are not put off for ever, waiting ends. */
  lemma {:induction false} FairRunsFinish(states: nat -> System, actions: nat -> Option<Action>, n: nat)
    returns (end: nat)
    requires Endless(states, actions) && Fair(states, actions) && WindingDown(states(n))
    ensures end >= n && states(end).hub.running == 0
    decreases Total(states(n).threads)
  {
    hide WindingDown, GoesOn, Step, Total;
    if states(n).hub.running == 0 {
      end := n;
    } else {
      var a := SomebodyGoesOn(states(n));
      var k := WorkFalls(states, actions, n, a);
      end := FairRunsFinish(states, actions, k);
    }
  }

  lemma WorkFalls(states: nat -> System, actions: nat -> Option<Action>, n: nat, a: Action) returns (k: nat)
    requires Endless(states, actions) && Fair(states, actions) && WindingDown(states(n)) && GoesOn(states(n), a)
    ensures k >= n && WindingDown(states(k)) && Total(states(k).threads) < Total(states(n).threads)
  {
    hide WindingDown, GoesOn, Step, Total, Idles;
    if PossibleFrom(states, n, a) {
      assert TakenFrom(actions, n, a);
      var j: nat :| j >= n && actions(j) == Some(a);
      AlongTheRun(states, actions, n, j, a);
      assert Advances(states, actions, j);
      WindingDownIdles(states(j));
      TakenLowers(states(j), a, states(j + 1));
      NextState(states(j), a, states(j + 1));
      k := j + 1;
    } else {
      k :| k >= n && !GoesOn(states(k), a);
      AlongTheRun(states, actions, n, k, a);
    }
  }

  lemma TakenLowers(s: System, a: Action, s': System)
    requires Idles(s.hub) && GoesOn(s, a) && Step(s, a) == Some(s')
    ensures Total(s'.threads) < Total(s.threads)
  {
    hide Idles, Step, Total, Lowers, Unaided;
    var next := LoweringStep(s, a);
  }

  /** Once the Close call that closed the hub has returned, Wait returns in every endless fair run. */
  lemma WaitReturns(states: nat -> System, actions: nat -> Option<Action>, closer: ThreadId)
    requires Endless(states, actions) && Fair(states, actions)
    requires Reachable(states(0)) && closer in states(0).threads && states(0).threads[closer].frame.CloseReturned?
    ensures exists n: nat :: states(n).hub.running == 0
  {
    hide WindingDown, Reachable, Endless, Fair;
    RunNothing(states(0));
    ClosedIsWindingDown(states(0), closer, [], states(0));
    var n := FairRunsFinish(states, actions, 0);
  }
}
