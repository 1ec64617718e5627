/** What the hub answers: whom it admits, what it refuses others with, and the code each session ends with. */
module RelayAnswers {
  import opened Options
  import opened RelayModel
  import opened RelayTallies
  import opened RelayProtocol
  import opened RelayThreads
  import opened RelayInvariants
  import opened RelayDuties
  import opened RelayOwnership
  import opened RelayTheorems

  /* ---------- Admission ---------- */

  lemma CountsAreLive(s: System, v: Viewer)
    requires Reachable(s)
    ensures Count(s.hub.byDeviceMachine, DeviceMachine(v)) == |LiveOnMachine(s.hub, v.device, v.machine)|
    ensures Count(s.hub.byDevice, v.device) == |LiveOn(s.hub, v.device)|
    ensures Count(s.hub.byConnector, v.connector) == |LiveThrough(s.hub, v.connector)|
  {
    hide Reachable, LiveOn, LiveOnMachine, LiveThrough;
    CountersAreExact(s, v.device, v.machine, v.connector);
  }

  /** A viewer is admitted, over its connector's channel, exactly when the hub is open, the connector is connected and
      fewer than 4, 20, 32 and 1024 sessions are live on the camera, the device, the connector and the hub; otherwise
      the first of these that fails, in this order, is what it is refused for. */
  lemma OpenAnswersExactly(s: System, t: ThreadId, sid: Id, v: Viewer, s': System)
    requires Reachable(s) && Step(s, Open(t, sid, v)) == Some(s')
    ensures t in s'.threads
    ensures var camera, device := |LiveOnMachine(s.hub, v.device, v.machine)|, |LiveOn(s.hub, v.device)|;
            var connector, all := |LiveThrough(s.hub, v.connector)|, |s.hub.sessions|;
            var online := v.connector in s.hub.controls;
            var answer := s'.threads[t].frame;
            && (answer.OpenSend? <==>
                  !s.hub.closed && online && camera < 4 && device < 20 && connector < 32 && all < 1024)
            && (answer.OpenSend? ==> online && answer == OpenSend(sid, s.hub.controls[v.connector]))
            && (answer == OpenFailed(ShuttingDown) <==> s.hub.closed)
            && (answer == OpenFailed(CameraOffline) <==> !s.hub.closed && !online)
            && (answer == OpenFailed(StreamLimit(ThisCamera)) <==> !s.hub.closed && online && camera >= 4)
            && (answer == OpenFailed(StreamLimit(ThisDevice)) <==>
                  !s.hub.closed && online && camera < 4 && device >= 20)
            && (answer == OpenFailed(StreamLimit(LocalService)) <==>
                  !s.hub.closed && online && camera < 4 && device < 20 && (connector >= 32 || all >= 1024))
  {
    CountsAreLive(s, v);
    hide Reachable, LiveOn, LiveOnMachine, LiveThrough, Count, Perform, ConnsAfter, ChannelsAfter;
  }

  /** A control channel is registered exactly when the hub is open and the connector has one already or fewer than 256
      have; then it takes the place of the connector's previous one. */
  lemma RegisterAnswersExactly(s: System, t: ThreadId, connector: Id, cid: Id, conn: Conn, s': System)
    requires Step(s, ServeControl(t, connector, cid, conn)) == Some(s')
    ensures t in s'.threads
    ensures var known := connector in s.hub.controls;
            var answer := s'.threads[t].frame;
            if !s.hub.closed && (known || |s.hub.controls| < 256)
            then && answer == StopPrevious(cid, conn, if known then Some(s.hub.controls[connector]) else None)
                 && s'.hub.controls == s.hub.controls[connector := cid]
            else answer == Dropping(conn) && s'.hub == s.hub
  {
    hide ConnsAfter;
  }

  /** A claim succeeds exactly for a live, pending session of the connector. */
  lemma ClaimAnswersExactly(s: System, t: ThreadId, connector: Id, sid: Id, s': System)
    requires Reachable(s) && Step(s, Claim(t, connector, sid)) == Some(s')
    ensures t in s'.threads
    ensures if sid in s.hub.table && s.hub.table[sid].state == Pending && s.hub.table[sid].viewer.connector == connector
            then s'.threads[t].frame == HoldsClaim(sid) && s'.hub.table[sid].state == Claimed
            else s'.threads[t].frame == Finished && s'.hub == s.hub
  {
    SessionsAreTheLiveOnes(s, sid);
    hide Reachable, ConnsAfter;
  }

  /* ---------- Refusals after admission ---------- */

  /** A connected viewer is relayed on an open hub; otherwise it is closed with the code its session ended with, or with
      going away. */
  lemma RelayAnswersExactly(s: System, t: ThreadId, conn: Conn, p: ThreadId, q: ThreadId, s': System)
    requires Reachable(s) && Step(s, Relay(t, conn, p, q)) == Some(s')
    ensures t in s'.threads && FrameOf(s, t).Opened? && FrameOf(s, t).sid in s.hub.table
    ensures var sid := FrameOf(s, t).sid;
            var session := s.hub.table[sid];
            s'.threads[t].frame ==
            if session.state == Connected && !s.hub.closed then RelayLoop(sid, p, q)
            else if session.endCode.Some? then RelayRefused(sid, conn, session.endCode.value)
            else RelayRefused(sid, conn, GoingAway)
  {
    hide Reachable, ConnsAfter, ChannelsAfter, Perform, Allowed;
    EndCodeIsTheEnd(s, FrameOf(s, t).sid);
  }

  lemma EndCodeIsTheEnd(s: System, sid: Id)
    requires Reachable(s) && sid in s.hub.table
    ensures s.hub.table[sid].endCode.Some? <==> s.hub.table[sid].state == Ended
  {
    ReachableInv(s);
    hide HubInv, ThreadsOk, UniqueRoles, ControlsOk, DutiesAttended, ExactRunning, Owned, Reachable;
    assert SessionOk(s.hub.table[sid]);
  }

  /** A viewer whose session ended while it waited learns why. */
  lemma WaitAnswersExactly(s: System, t: ThreadId, s': System)
    requires Step(s, WaitDone(t)) == Some(s')
    ensures t in s'.threads && FrameOf(s, t).OpenWait? && FrameOf(s, t).sid in s.hub.table
    ensures s'.threads[t].frame == OpenFailed(
              if s.hub.closed then ShuttingDown
              else if s.hub.table[FrameOf(s, t).sid].endCode == Some(ConnectorOffline) then CameraOffline
              else ConnectorTimeout)
  {
    hide ConnsAfter, Perform;
  }

  /** A viewer waits once the connector was asked, and is told that it is offline when that fails. */
  lemma AskingAnswersExactly(s: System, t: ThreadId, queued: bool, s': System)
    requires Step(s, SendOpen(t, queued)) == Some(s')
    ensures t in s.threads && t in s'.threads && FrameOf(s, t).OpenSend?
    ensures s'.threads[t].frame == if queued then OpenWait(FrameOf(s, t).sid) else OpenFailed(CameraOffline)
  {
    hide ConnsAfter, Perform, EndingOf, CallOf;
  }

  /** A viewer whose wait times out or is given up is told so. */
  lemma GivingUpAnswersExactly(s: System, t: ThreadId, error: OpenError, s': System)
    requires Step(s, WaitGivesUp(t, error)) == Some(s')
    ensures t in s'.threads && s'.threads[t].frame == OpenFailed(error) && error in {ConnectorTimeout, ContextEnded}
  {
    hide ConnsAfter, Perform, EndingOf, CallOf;
  }

  /* ---------- Why channels stop ---------- */

  /** The effect on channels of a move. */
  predicate StopsRight(s: System, a: Action, m: Move) {
    m.channel.Stops? ==>
      || (a.StopReplaced? && a.t in s.threads && FrameOf(s, a.t).StopPrevious?
          && FrameOf(s, a.t).previous == Some(m.channel.cid) && m.channel.code == Replaced)
      || (a.CloseStopsChannel? && a.cid == m.channel.cid && m.channel.code == GoingAway)
  }

  lemma StreamMovesStopRight(s: System, a: Action, m: Move)
    requires MoveOf(s, a) == Some(m) && OfStreams(a)
    ensures StopsRight(s, a, m)
  {
    hide Allowed, DecideOpen, DecideRegister, OrphansOf, Claimable, Relayable, Returned, RefusalCode, DoneError,
        CloseCodeFor, EndingOf, CallOf;
  }

  lemma ChannelMovesStopRight(s: System, a: Action, m: Move)
    requires MoveOf(s, a) == Some(m) && !OfStreams(a)
    ensures StopsRight(s, a, m)
  {
    hide Allowed, DecideOpen, DecideRegister, OrphansOf, Claimable, Relayable, Returned, RefusalCode, DoneError,
        CloseCodeFor, EndingOf, CallOf;
  }

  /** A channel is told to stop because a newer one replaced it, with that code, or by Close as going away; what it was
      told first stays. */
  lemma ChannelsStopRight(s: System, a: Action, s': System, cid: Id)
    requires Reachable(s) && Step(s, a) == Some(s') && cid in s.channels
    ensures cid in s'.channels
    ensures s.channels[cid].stop.Some? ==> s'.channels[cid].stop == s.channels[cid].stop
    ensures s.channels[cid].stop.None? && s'.channels[cid].stop.Some? ==>
              || (a.StopReplaced? && a.t in s.threads && FrameOf(s, a.t).StopPrevious?
                  && FrameOf(s, a.t).previous == Some(cid) && s'.channels[cid].stop == Some(Replaced))
              || (a.CloseStopsChannel? && a.cid == cid && s'.channels[cid].stop == Some(GoingAway))
  {
    hide MoveOf, Perform, ConnsAfter, ThreadsAfter, StopsRight, Reachable;
    var m := MoveOf(s, a).value;
    ChannelKept(s, a, s');
    if OfStreams(a) {
      StreamMovesStopRight(s, a, m);
    } else {
      ChannelMovesStopRight(s, a, m);
    }
    StopCode(s, a, m, cid);
  }

  lemma StopCode(s: System, a: Action, m: Move, cid: Id)
    requires StopsRight(s, a, m) && cid in s.channels && cid in ChannelsAfter(s.channels, m.channel)
    requires m.channel.Opens? ==> m.channel.cid != cid
    ensures s.channels[cid].stop.None? && ChannelsAfter(s.channels, m.channel)[cid].stop.Some? ==>
              || (a.StopReplaced? && a.t in s.threads && FrameOf(s, a.t).StopPrevious?
                  && FrameOf(s, a.t).previous == Some(cid)
                  && ChannelsAfter(s.channels, m.channel)[cid].stop == Some(Replaced))
              || (a.CloseStopsChannel? && a.cid == cid
                  && ChannelsAfter(s.channels, m.channel)[cid].stop == Some(GoingAway))
  {
  }

  lemma ChannelKept(s: System, a: Action, s': System)
    requires Reachable(s) && Step(s, a) == Some(s')
    ensures ChannelsGrow(s.channels, s'.channels)
    ensures MoveOf(s, a).value.channel.Opens? ==> MoveOf(s, a).value.channel.cid !in s.channels
  {
    ReachableInv(s);
    hide MoveOf, Perform, ConnsAfter, ThreadsAfter, ChannelsGrow, ThreadOk, Timely, TakesVacant, StartedOk, HoldsRole,
        Reachable, HubInv, UniqueRoles, DutiesAttended, ExactRunning, Owned;
    LiveOfInv(s);
    EveryMoveOk(s, a, MoveOf(s, a).value);
    ChannelsOnlyGrow(s, MoveOf(s, a).value);
  }

  lemma LiveOfInv(s: System)
    requires RelayInv(s)
    ensures Ready(s)
  {
    hide SessionsOk, ThreadsOk, UniqueRoles, ControlsOk, DutiesAttended, ExactRunning, Owned, ExactCounters,
        WithinLimits, LiveSessions;
  }

  /* ---------- How sessions end ---------- */

  /** The code with which an action ends a session, where it can end one. */
  function EndsWith(a: Action): Option<CloseCode> {
    match a
    case SendOpen(_, _) => Some(ConnectorOffline)
    case EndOrphan(_, _) => Some(ConnectorOffline)
    case WaitGivesUp(_, _) => Some(NormalClosure)
    case WaitDone(_) => Some(NormalClosure)
    case Release(_) => Some(NormalClosure)
    case Abort(_) => Some(NormalClosure)
    case DropRefusedViewer(_) => Some(GoingAway)
    case CloseEndsSession(_, _, _) => Some(GoingAway)
    case PumpEnds(_, code) => Some(code)
    case RelayEnds(_, None) => Some(GoingAway)
    case RelayEnds(_, Some(NotFound)) => Some(CameraGone)
    case RelayEnds(_, Some(Unauthenticated)) => Some(Forbidden)
    case RelayEnds(_, Some(PermissionDenied)) => Some(Forbidden)
    case RelayEnds(_, Some(OtherFailure)) => Some(InternalError)
    case _ => None
  }

  /** The end of a session in a move: which call of end follows it. */
  predicate EndsRight(s: System, a: Action, m: Move) {
    m.section.Ending? ==>
      var sid := m.section.sid;
      && sid in s.hub.table && EndsWith(a) == Some(m.section.code)
      && var session := s.hub.table[sid];
         var channel := if session.viewer.connector in s.hub.controls
             then Some(s.hub.controls[session.viewer.connector]) else None;
         var call := EndCall(sid, m.section.code, channel, session.data, session.viewerConn, SignalDone);
         if a.CloseEndsSession? then m.started == Worker(a.worker, Some(call)) else m.call == Some(call)
  }

  lemma StreamMovesEndRight(s: System, a: Action, m: Move)
    requires MoveOf(s, a) == Some(m) && OfStreams(a)
    ensures EndsRight(s, a, m)
  {
    hide DecideOpen, DecideRegister, OrphansOf, Claimable, Relayable, Returned, RefusalCode, DoneError;
  }

  lemma ChannelMovesEndRight(s: System, a: Action, m: Move)
    requires MoveOf(s, a) == Some(m) && !OfStreams(a)
    ensures EndsRight(s, a, m)
  {
    hide DecideOpen, DecideRegister, OrphansOf, Claimable, Relayable, Returned, RefusalCode, DoneError;
  }

  lemma OnlyEndingEnds(h: Hub, c: Section, sid: Id)
    requires Allowed(h, c) && Live(h, sid)
    ensures sid in Perform(h, c).table
    ensures !Live(Perform(h, c), sid) ==>
              c.Ending? && c.sid == sid && Perform(h, c).table[sid].endCode == Some(c.code)
  {
    hide Increment, Decrement;
  }

  /** Whenever a session ends, it ends with the code of the action that ends it, and the call of end that follows takes
      along its two connections and the control channel its connector has at that moment. */
  lemma SessionsEndRight(s: System, a: Action, s': System, sid: Id)
    requires Step(s, a) == Some(s') && Live(s.hub, sid) && !Live(s'.hub, sid)
    ensures sid in s'.hub.table && EndsWith(a).Some? && s'.hub.table[sid].endCode == EndsWith(a)
    ensures var ender := if a.CloseEndsSession? then a.worker else a.t;
            var session := s.hub.table[sid];
            var online := session.viewer.connector in s.hub.controls;
            && ender in s'.threads && s'.threads[ender].call.Some?
            && var call := s'.threads[ender].call.value;
               && call.sid == sid && Some(call.code) == EndsWith(a) && call.stage == SignalDone
               && call.data == session.data && call.viewer == session.viewerConn
               && call.channel == if online then Some(s.hub.controls[session.viewer.connector]) else None
  {
    hide MoveOf, Perform, ConnsAfter, ChannelsAfter, EndsWith;
    var m := MoveOf(s, a).value;
    MoveIsAllowed(s, a);
    OnlyEndingEnds(s.hub, m.section, sid);
    EveryMoveEndsRight(s, a, m);
    if !a.CloseEndsSession? {
      StartsNoOther(s, a, m);
    }
  }

  lemma MoveIsAllowed(s: System, a: Action)
    ensures MoveOf(s, a).Some? ==> Allowed(s.hub, MoveOf(s, a).value.section)
  {
  }

  lemma EveryMoveEndsRight(s: System, a: Action, m: Move)
    requires MoveOf(s, a) == Some(m)
    ensures EndsRight(s, a, m)
  {
    hide MoveOf, EndsRight;
    if OfStreams(a) {
      StreamMovesEndRight(s, a, m);
    } else {
      ChannelMovesEndRight(s, a, m);
    }
  }

  lemma StartsNoOther(s: System, a: Action, m: Move)
    requires MoveOf(s, a) == Some(m) && m.section.Ending? && !a.CloseEndsSession?
    ensures m.started.NoThreads?
  {
    hide DecideOpen, DecideRegister, OrphansOf, Claimable, Relayable, Returned, RefusalCode, DoneError, CallOf,
        CloseCodeFor, Allowed;
  }
}
