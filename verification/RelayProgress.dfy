/** As long as the closed hub serves something, some thread has a step that needs nobody's help: its channel was
    stopped, its connections were closed, or the step is its own. */
module RelayProgress {
  import opened Options
  import opened RelayModel
  import opened RelayProtocol
  import opened RelayDuties
  import opened RelayChannels
  import opened RelayOwnership
  import opened RelayTheorems
  import opened RelayShutdown

  /* ---------- What winding down relies on ---------- */

  /** Relays have their copying threads, no served channel is forgotten, and only a session's end closes its
      connections. */
  ghost predicate Winding(s: System) { PumpsThere(s.threads) && ChannelsOk(s) && EndsClose(s) }

  lemma StepKeepsWinding(s: System, a: Action, s': System)
    requires RelayInv(s) && Winding(s) && Step(s, a) == Some(s')
    ensures Winding(s')
  {
    hide Step, PumpsThere, ChannelsOk, EndsClose, ProtocolInv, DutiesAttended, ExactRunning, Owned;
    StepKeepsPumps(s, a, s');
    StepKeepsChannels(s, a, s');
    StepKeepsEndsClose(s, a, s');
  }

  lemma {:induction false} RunKeepsWinding(s: System, actions: seq<Action>, s': System)
    requires RelayInv(s) && Winding(s) && Run(s, actions) == Some(s')
    ensures Winding(s')
  {
    hide RelayInv, Winding, Step;
    if actions != [] {
      var before := Run(s, actions[..|actions| - 1]).value;
      RunKeepsInv(s, actions[..|actions| - 1], before);
      RunKeepsWinding(s, actions[..|actions| - 1], before);
      StepKeepsWinding(before, actions[|actions| - 1], s');
    }
  }

  lemma ReachableWinding(s: System)
    requires Reachable(s)
    ensures Winding(s)
  {
    var actions :| Run(INIT, actions) == Some(s);
    InitInv();
    RunKeepsWinding(INIT, actions, s);
  }

  /** After the Close call that closed the hub has returned. */
  ghost predicate WindingDown(s: System) { RelayInv(s) && Settled(s) && Winding(s) }

  lemma StepKeepsWindingDown(s: System, a: Action, s': System)
    requires WindingDown(s) && Step(s, a) == Some(s')
    ensures WindingDown(s')
  {
    hide Step, RelayInv, Settled, Winding;
    StepKeepsInv(s, a, s');
    StepKeepsSettled(s, a, s');
    StepKeepsWinding(s, a, s');
  }

  lemma {:induction false} RunKeepsWindingDown(s: System, actions: seq<Action>, s': System)
    requires WindingDown(s) && Run(s, actions) == Some(s')
    ensures WindingDown(s')
  {
    hide WindingDown, Step;
    if actions != [] {
      var before := Run(s, actions[..|actions| - 1]).value;
      RunKeepsWindingDown(s, actions[..|actions| - 1], before);
      StepKeepsWindingDown(before, actions[|actions| - 1], s');
    }
  }

  lemma ClosedIsWindingDown(s: System, closer: ThreadId, actions: seq<Action>, s': System)
    requires Reachable(s) && closer in s.threads && s.threads[closer].frame.CloseReturned?
    requires Run(s, actions) == Some(s')
    ensures WindingDown(s')
  {
    ReachableInv(s);
    ReachableWinding(s);
    assert ThreadOk(s.hub, s.channels, s.threads[closer]);
    hide RelayInv, Winding, Reachable, Run, Stopped;
    RunKeepsWindingDown(s, actions, s');
  }

  /* ---------- Steps that need nobody's help ---------- */

  predicate IsClosed(s: System, conn: Option<Conn>) {
    conn.Some? && conn.value in s.conns && s.conns[conn.value] == Gone
  }

  predicate BothClosed(s: System, sid: Id) {
    Known(s, sid) && IsClosed(s, s.hub.table[sid].data) && IsClosed(s, s.hub.table[sid].viewerConn)
  }

  /** A step of winding down that waits for no peer: a control channel ends because it was told to stop, copying ends
      because both connections were closed, and the other steps are the thread's own. */
  predicate Unaided(s: System, a: Action) {
    match a
    case ChannelEnds(t) => t in s.threads && FrameOf(s, t).Serving? && IsStopped(s.channels, FrameOf(s, t).cid)
    case PumpEnds(t, _) => t in s.threads && FrameOf(s, t).Pump? && BothClosed(s, FrameOf(s, t).sid)
    case _ =>
      || a.RelaySeesDone? || a.RelayReturns? || a.StopReplaced? || a.TearDown? || a.EndOrphan? || a.ServeReturns?
      || a.EndSignals? || a.EndTells? || a.EndClosesViewer? || a.EndClosesData?
  }

  /** The action is possible now and lowers the work of its thread. */
  predicate Lowers(s: System, a: Action) {
    var m := MoveOf(s, a);
    m.Some? && m.value.started.NoThreads? && WorkOf(Thread(m.value.frame, m.value.call)) < WorkAt(s.threads, a.t)
  }

  predicate GoesOn(s: System, a: Action) { Unaided(s, a) && Lowers(s, a) }

  lemma CallGoesOn(s: System, t: ThreadId) returns (a: Action)
    requires t in s.threads && s.threads[t].call.Some? && Known(s, s.threads[t].call.value.sid)
    ensures GoesOn(s, a)
  {
    match s.threads[t].call.value.stage
    case SignalDone => a := EndSignals(t);
    case TellConnector => a := EndTells(t);
    case CloseViewer => a := EndClosesViewer(t);
    case CloseData => a := EndClosesData(t);
  }

  lemma EndOrphanGoesOn(s: System, t: ThreadId, sid: Id)
    requires Idles(s.hub) && Idle(s, t) && FrameOf(s, t).Orphans? && sid in FrameOf(s, t).rest
    ensures GoesOn(s, EndOrphan(t, sid))
  {
    hide End, EndingOf, CallOf, DecideOpen, Relayable, DecideRegister, OrphansOf;
    var f := FrameOf(s, t);
    assert |f.rest - {sid}| == |f.rest| - 1;
    assert MoveEndOrphan(s, t, sid) == Some(Go(Orphans(f.connector, f.rest - {sid})));
    hide Idles;
  }

  lemma ServeReturnsGoesOn(s: System, t: ThreadId)
    requires Idle(s, t) && FrameOf(s, t).Orphans? && FrameOf(s, t).rest == {}
    ensures GoesOn(s, ServeReturns(t))
  {
  }

  lemma OrphansGoOn(s: System, t: ThreadId) returns (a: Action)
    requires Idles(s.hub) && Idle(s, t) && FrameOf(s, t).Orphans?
    ensures GoesOn(s, a)
  {
    hide Idles, GoesOn;
    var rest := FrameOf(s, t).rest;
    if sid :| sid in rest {
      EndOrphanGoesOn(s, t, sid);
      a := EndOrphan(t, sid);
    } else {
      ServeReturnsGoesOn(s, t);
      a := ServeReturns(t);
    }
  }

  lemma TeardownGoesOn(s: System, t: ThreadId)
    requires Idles(s.hub) && Idle(s, t) && FrameOf(s, t).Teardown? && FrameOf(s, t).cid in s.channels
    ensures GoesOn(s, TearDown(t))
  {
    hide End, EndingOf, CallOf, DecideOpen, Relayable, DecideRegister, OrphansOf;
  }

  lemma StopReplacedGoesOn(s: System, t: ThreadId)
    requires Idle(s, t) && FrameOf(s, t).StopPrevious?
    ensures GoesOn(s, StopReplaced(t))
  {
  }

  lemma ChannelGoesOn(s: System, t: ThreadId)
    requires Idle(s, t) && FrameOf(s, t).Serving? && IsStopped(s.channels, FrameOf(s, t).cid)
    ensures GoesOn(s, ChannelEnds(t))
  {
  }

  /** A channel being served was told to stop, or the thread that replaced it is about to tell it. */
  lemma ServingGoesOn(s: System, t: ThreadId) returns (a: Action)
    requires WindingDown(s) && Idle(s, t) && FrameOf(s, t).Serving?
    ensures GoesOn(s, a)
  {
    hide RelayInv, GoesOn, OneServer, PumpsThere, EndsClose, ThreadsOk, DutiesAttended, ExactRunning, Owned;
    InvParts(s);
    var cid := FrameOf(s, t).cid;
    assert Runs(s.threads[t].frame) && AccountedFor(s, cid);
    if ToBeStopped(s.threads, cid) {
      a := ReplacerGoesOn(s, cid);
    } else {
      assert IsStopped(s.channels, cid);
      ChannelGoesOn(s, t);
      a := ChannelEnds(t);
    }
  }

  lemma ReplacerGoesOn(s: System, cid: Id) returns (a: Action)
    requires ThreadsOk(s) && ToBeStopped(s.threads, cid)
    ensures GoesOn(s, a)
  {
    hide ThreadsOk, GoesOn;
    var u :| u in s.threads && Replaces(s.threads[u].frame) == Some(cid);
    if s.threads[u].call.Some? {
      CallIsKnown(s, u);
      a := CallGoesOn(s, u);
    } else {
      StopReplacedGoesOn(s, u);
      a := StopReplaced(u);
    }
  }

  lemma InvParts(s: System)
    requires RelayInv(s)
    ensures ThreadsOk(s) && DutiesAttended(s) && ExactRunning(s) && Owned(s)
  {
    hide ThreadsOk, DutiesAttended, ExactRunning, Owned;
  }

  lemma CallIsKnown(s: System, t: ThreadId)
    requires ThreadsOk(s) && t in s.threads && s.threads[t].call.Some?
    ensures Known(s, s.threads[t].call.value.sid)
  {
    assert ThreadOk(s.hub, s.channels, s.threads[t]);
  }

  /** A connection of an ended session is closed, or a call of end still has it. */
  lemma ClosedOrHeld(s: System, sid: Id, c: Conn) returns (u: ThreadId)
    requires Owned(s) && EndsClose(s) && !exists other :: Live(s.hub, other)
    requires sid in s.hub.table && Uses(s.hub.table[sid], c)
    ensures c in s.conns && (s.conns[c] == Gone || (u in s.threads && s.threads[u].call.Some?))
  {
    hide Uses, Live;
    u := 0;
    assert c in s.conns && !InFrame(s.conns[c]);
    if s.conns[c] != Gone {
      assert Holding(s, s.conns[c]) == Some(c);
      hide Owned, EndsClose;
      u := s.conns[c].thread;
    }
  }

  lemma NobodyLives(s: System)
    requires RelayInv(s) && Settled(s)
    ensures !exists sid :: Live(s.hub, sid)
  {
    hide SessionsOk, ThreadsOk, UniqueRoles, ControlsOk, DutiesAttended, ExactRunning, Owned, Stopped;
  }

  lemma ClosedPumpGoesOn(s: System, t: ThreadId)
    requires Idles(s.hub) && Idle(s, t) && FrameOf(s, t).Pump? && BothClosed(s, FrameOf(s, t).sid)
    ensures GoesOn(s, PumpEnds(t, NormalClosure))
  {
    hide End, EndingOf, CallOf, DecideOpen, Relayable, DecideRegister, OrphansOf;
  }

  lemma PumpIsConnected(s: System, t: ThreadId)
    requires ThreadsOk(s) && t in s.threads && FrameOf(s, t).Pump?
    ensures var sid := FrameOf(s, t).sid;
            Known(s, sid) && s.hub.table[sid].data.Some? && s.hub.table[sid].viewerConn.Some?
  {
    assert ThreadOk(s.hub, s.channels, s.threads[t]);
  }

  /** A copying thread sees both connections closed, or a call of end is about to close one. */
  lemma PumpGoesOn(s: System, t: ThreadId) returns (a: Action)
    requires WindingDown(s) && Idle(s, t) && FrameOf(s, t).Pump?
    ensures GoesOn(s, a)
  {
    hide RelayInv, Settled, Live, PumpsThere, ChannelsOk, EndsClose, ThreadsOk, DutiesAttended, ExactRunning, Owned,
        GoesOn, Idles;
    InvParts(s);
    var sid := FrameOf(s, t).sid;
    NobodyLives(s);
    PumpIsConnected(s, t);
    var session := s.hub.table[sid];
    var u := ClosedOrHeld(s, sid, session.data.value);
    if IsClosed(s, session.data) {
      u := ClosedOrHeld(s, sid, session.viewerConn.value);
    }
    if BothClosed(s, sid) {
      SettledIdles(s);
      ClosedPumpGoesOn(s, t);
      a := PumpEnds(t, NormalClosure);
    } else {
      CallIsKnown(s, u);
      a := CallGoesOn(s, u);
    }
  }

  /** A relay whose session has ended sees it, or waits for a thread that can go on. */
  lemma RelayGoesOn(s: System, t: ThreadId) returns (a: Action)
    requires WindingDown(s) && Idle(s, t) && Relays(FrameOf(s, t))
    ensures GoesOn(s, a)
  {
    hide WindingDown, GoesOn;
    if FrameOf(s, t).RelayLoop? {
      a := LoopGoesOn(s, t);
    } else {
      a := JoinGoesOn(s, t);
    }
  }

  lemma JoinGoesOn(s: System, t: ThreadId) returns (a: Action)
    requires WindingDown(s) && Idle(s, t) && FrameOf(s, t).RelayJoin?
    ensures GoesOn(s, a)
  {
    hide RelayInv, Settled, ChannelsOk, EndsClose, GoesOn, ThreadsOk, DutiesAttended, ExactRunning, Owned;
    InvParts(s);
    assert Relays(s.threads[t].frame) && HasPumps(s.threads, FrameOf(s, t));
    var p := if !Returned(s, FrameOf(s, t).fromViewer) then FrameOf(s, t).fromViewer else FrameOf(s, t).fromConnector;
    if Returned(s, p) {
      JoinReturns(s, t);
      a := RelayReturns(t);
    } else if s.threads[p].call.Some? {
      CallIsKnown(s, p);
      a := CallGoesOn(s, p);
    } else {
      a := PumpGoesOn(s, p);
    }
  }

  lemma JoinReturns(s: System, t: ThreadId)
    requires Idle(s, t) && FrameOf(s, t).RelayJoin? && Returned(s, FrameOf(s, t).fromViewer)
        && Returned(s, FrameOf(s, t).fromConnector)
    ensures GoesOn(s, RelayReturns(t))
  {
  }

  lemma LoopGoesOn(s: System, t: ThreadId) returns (a: Action)
    requires WindingDown(s) && Idle(s, t) && FrameOf(s, t).RelayLoop?
    ensures GoesOn(s, a)
  {
    var sid := FrameOf(s, t).sid;
    hide RelayInv, Settled, Winding, GoesOn, HasDuty, ThreadsOk, DutiesAttended, ExactRunning, Owned, Live, Attended;
    InvParts(s);
    NobodyLives(s);
    LoopIsOver(s, t);
    if s.hub.table[sid].doneCloses > 0 {
      LoopSeesDone(s, t);
      a := RelaySeesDone(t);
    } else {
      a := AnnouncementGoesOn(s, sid);
    }
  }

  lemma LoopSeesDone(s: System, t: ThreadId)
    requires Idle(s, t) && FrameOf(s, t).RelayLoop? && Known(s, FrameOf(s, t).sid)
        && s.hub.table[FrameOf(s, t).sid].doneCloses > 0
    ensures GoesOn(s, RelaySeesDone(t))
  {
  }

  lemma AnnouncementGoesOn(s: System, sid: Id) returns (a: Action)
    requires ThreadsOk(s) && Attended(s, AnnouncesEnd(sid))
    ensures GoesOn(s, a)
  {
    hide ThreadsOk, GoesOn;
    var u :| u in s.threads && HasDuty(s.threads[u], AnnouncesEnd(sid));
    CallIsKnown(s, u);
    a := CallGoesOn(s, u);
  }

  lemma LoopIsOver(s: System, t: ThreadId)
    requires ThreadsOk(s) && DutiesAttended(s) && !exists other :: Live(s.hub, other)
    requires t in s.threads && FrameOf(s, t).RelayLoop?
    ensures var sid := FrameOf(s, t).sid;
            Known(s, sid) && (s.hub.table[sid].doneCloses > 0 || Attended(s, AnnouncesEnd(sid)))
  {
    hide Attended;
    assert ThreadOk(s.hub, s.channels, s.threads[t]);
    var sid := FrameOf(s, t).sid;
    assert !Live(s.hub, sid);
    assert Needs(s.hub, AnnouncesEnd(sid)) ==> Attended(s, AnnouncesEnd(sid));
  }

  /** While a relay or a control channel is being served, some thread can go on unaided. */
  lemma SomebodyGoesOn(s: System) returns (a: Action)
    requires WindingDown(s) && s.hub.running > 0
    ensures GoesOn(s, a)
  {
    hide GoesOn, Settled, Winding, RelayInv, ThreadsOk, DutiesAttended, Owned, Idles;
    InvParts(s);
    assert Served(s.threads) != {};
    var t :| t in Served(s.threads);
    SettledIdles(s);
    if s.threads[t].call.Some? {
      CallIsKnown(s, t);
      a := CallGoesOn(s, t);
    } else if Relays(FrameOf(s, t)) {
      a := RelayGoesOn(s, t);
    } else if FrameOf(s, t).Orphans? {
      a := OrphansGoOn(s, t);
    } else if FrameOf(s, t).Teardown? {
      TeardownHasChannel(s, t);
      TeardownGoesOn(s, t);
      a := TearDown(t);
    } else if FrameOf(s, t).StopPrevious? {
      StopReplacedGoesOn(s, t);
      a := StopReplaced(t);
    } else {
      a := ServingGoesOn(s, t);
    }
  }

  lemma TeardownHasChannel(s: System, t: ThreadId)
    requires ThreadsOk(s) && t in s.threads && FrameOf(s, t).Teardown?
    ensures FrameOf(s, t).cid in s.channels
  {
    assert ThreadOk(s.hub, s.channels, s.threads[t]);
  }
}
