/** Every step of every thread respects the protocol, action by action. */
module RelayThreads {
  import opened Options
  import opened RelayModel
  import opened RelayTallies
  import opened RelayProtocol

  lemma EndedSession(h: Hub, sid: Id, code: CloseCode)
    requires sid in h.table
    ensures var h' := EndSession(h, sid, code);
            && h'.closed == h.closed && h'.controls == h.controls && h'.sessions == h.sessions - {sid}
                && h'.table.Keys == h.table.Keys
            && (forall other :: other in h.table && other != sid ==> h'.table[other] == h.table[other])
            && h'.table[sid] == h.table[sid].(state := Ended, endCode := Some(code))
  {
  }

  /** The call of end starts where it must: right after the session ended, with its done channel still open. */
  lemma CallStartsOk(h: Hub, sid: Id, code: CloseCode)
    requires Live(h, sid) && SessionOk(h.table[sid])
    ensures CallOf(h, sid, code).Some? && CallOk(EndSession(h, sid, code), CallOf(h, sid, code).value)
  {
    EndedSession(h, sid, code);
    hide EndSession;
  }

  lemma EndMoveOk(s: System, t: ThreadId, frame: Frame, sid: Id, code: CloseCode)
    requires Ready(s) && (frame.OpenFailed? || frame.Finished?)
    ensures MoveOk(s, t, End(s.hub, frame, sid, code))
  {
    hide EndSession, CallOk, ControlsOk, LiveSessions;
    if Live(s.hub, sid) {
      CallStartsOk(s.hub, sid, code);
    }
  }

  lemma OpenOk(s: System, t: ThreadId, sid: Id, v: Viewer, m: Move)
    requires MoveOpen(s, t, sid, v) == Some(m) && Ready(s)
    ensures MoveOk(s, t, m)
  {
    hide Increment, LiveSessions, ThreadsOk, SessionsOk;
    if DecideOpen(s.hub, v).Refused? {
    } else {
    }
  }

  lemma SendOpenOk(s: System, t: ThreadId, queued: bool, m: Move)
    requires MoveSendOpen(s, t, queued) == Some(m) && Ready(s)
    ensures MoveOk(s, t, m)
  {
    assert ThreadOk(s.hub, s.channels, s.threads[t]);
    if !queued {
      EndMoveOk(s, t, OpenFailed(CameraOffline), FrameOf(s, t).sid, ConnectorOffline);
    }
  }

  lemma WaitReadyOk(s: System, t: ThreadId, m: Move)
    requires MoveWaitReady(s, t) == Some(m) && Ready(s)
    ensures MoveOk(s, t, m)
  {
    assert ThreadOk(s.hub, s.channels, s.threads[t]);
  }

  lemma WaitEndsOk(s: System, t: ThreadId, error: OpenError, m: Move)
    requires (MoveWaitGivesUp(s, t, error) == Some(m) || MoveWaitDone(s, t) == Some(m)) && Ready(s)
    ensures MoveOk(s, t, m)
  {
    EndMoveOk(s, t, m.frame, FrameOf(s, t).sid, NormalClosure);
  }

  lemma ClaimOk(s: System, t: ThreadId, connector: Id, sid: Id, m: Move)
    requires MoveClaim(s, t, connector, sid) == Some(m) && Ready(s)
    ensures MoveOk(s, t, m)
  {
    if Claimable(s.hub, connector, sid) {
    } else {
    }
  }

  lemma DeliverOk(s: System, t: ThreadId, conn: Conn, m: Move)
    requires MoveDeliver(s, t, conn) == Some(m) && Ready(s)
    ensures MoveOk(s, t, m)
  {
    assert ThreadOk(s.hub, s.channels, s.threads[t]);
    if s.hub.table[FrameOf(s, t).sid].state == Claimed {
    } else {
    }
  }

  lemma CloseReadyOk(s: System, t: ThreadId, m: Move)
    requires MoveCloseReady(s, t) == Some(m) && Ready(s)
    ensures MoveOk(s, t, m)
  {
    assert ThreadOk(s.hub, s.channels, s.threads[t]);
  }

  lemma GiveUpOk(s: System, t: ThreadId, m: Move)
    requires (MoveRelease(s, t) == Some(m) || MoveAbort(s, t) == Some(m)) && Ready(s)
    ensures MoveOk(s, t, m)
  {
    EndMoveOk(s, t, Finished, FrameOf(s, t).sid, NormalClosure);
  }

  lemma RelayOk(s: System, t: ThreadId, conn: Conn, p: ThreadId, q: ThreadId, m: Move)
    requires MoveRelay(s, t, conn, p, q) == Some(m) && Ready(s)
    ensures MoveOk(s, t, m)
  {
    assert ThreadOk(s.hub, s.channels, s.threads[t]);
    if Relayable(s.hub, FrameOf(s, t).sid) {
    } else {
    }
  }

  lemma DropRefusedViewerOk(s: System, t: ThreadId, m: Move)
    requires MoveDropRefusedViewer(s, t) == Some(m) && Ready(s)
    ensures MoveOk(s, t, m)
  {
    EndMoveOk(s, t, Finished, FrameOf(s, t).sid, GoingAway);
  }

  lemma RelayEndsOk(s: System, t: ThreadId, failed: Option<CheckError>, m: Move)
    requires MoveRelayEnds(s, t, failed) == Some(m) && Ready(s)
    ensures MoveOk(s, t, m)
  {
    assert ThreadOk(s.hub, s.channels, s.threads[t]);
    var sid, code := FrameOf(s, t).sid, if failed.Some? then CloseCodeFor(failed.value) else GoingAway;
    if Live(s.hub, sid) {
      CallStartsOk(s.hub, sid, code);
      EndedSession(s.hub, sid, code);
      hide EndSession, CallOk;
    }
  }

  lemma RelayWindsDownOk(s: System, t: ThreadId, m: Move)
    requires MoveRelaySeesDone(s, t) == Some(m) || MoveRelayReturns(s, t) == Some(m) || MoveDrop(s, t) == Some(m)
    ensures MoveOk(s, t, m)
  {
  }

  lemma PumpEndsOk(s: System, t: ThreadId, code: CloseCode, m: Move)
    requires MovePumpEnds(s, t, code) == Some(m) && Ready(s)
    ensures MoveOk(s, t, m)
  {
    EndMoveOk(s, t, Finished, FrameOf(s, t).sid, code);
  }

  lemma ServeControlOk(s: System, t: ThreadId, connector: Id, cid: Id, conn: Conn, m: Move)
    requires MoveServeControl(s, t, connector, cid, conn) == Some(m) && Ready(s)
    ensures MoveOk(s, t, m)
  {
    if DecideRegister(s.hub, connector).Registered? {
    } else {
    }
  }

  lemma ChannelMovesOk(s: System, t: ThreadId, m: Move)
    requires MoveStopReplaced(s, t) == Some(m) || MoveChannelEnds(s, t) == Some(m) || MoveServeReturns(s, t) == Some(m)
    requires Ready(s)
    ensures MoveOk(s, t, m)
  {
    assert ThreadOk(s.hub, s.channels, s.threads[t]);
  }

  lemma TearDownOk(s: System, t: ThreadId, m: Move)
    requires MoveTearDown(s, t) == Some(m) && Ready(s)
    ensures MoveOk(s, t, m)
  {
    assert Perform(s.hub, m.section).table == s.hub.table;
  }

  lemma EndOrphanOk(s: System, t: ThreadId, sid: Id, m: Move)
    requires MoveEndOrphan(s, t, sid) == Some(m) && Ready(s)
    ensures MoveOk(s, t, m)
  {
    assert ThreadOk(s.hub, s.channels, s.threads[t]);
    if Live(s.hub, sid) {
      CallStartsOk(s.hub, sid, ConnectorOffline);
      EndedSession(s.hub, sid, ConnectorOffline);
      hide EndSession, CallOk;
    }
  }

  lemma CloseOk(s: System, t: ThreadId, m: Move)
    requires MoveClose(s, t) == Some(m) && Ready(s)
    ensures MoveOk(s, t, m)
  {
    if !s.hub.closed {
      forall k | k in s.hub.controls ensures s.hub.controls[k] in s.hub.controls.Values {
      }
    }
  }

  lemma ClosingShrinks(h: Hub, channels: map<Id, Channel>, f: Frame, workers: set<ThreadId>, sid: Id)
    requires LiveSessions(h) && f.Closing? && ShutdownFrameOk(h, channels, f)
    ensures ShutdownFrameOk(Perform(h, EndingOf(h, sid, GoingAway)), channels,
        Closing(f.toEnd - {sid}, f.stopping, workers))
  {
    if Live(h, sid) {
      EndedSession(h, sid, GoingAway);
      hide EndSession;
    }
  }

  lemma CloseEndsSessionOk(s: System, t: ThreadId, worker: ThreadId, sid: Id, m: Move)
    requires MoveCloseEndsSession(s, t, worker, sid) == Some(m) && Ready(s)
    ensures MoveOk(s, t, m)
  {
    assert ThreadOk(s.hub, s.channels, s.threads[t]);
    ClosingShrinks(s.hub, s.channels, FrameOf(s, t), m.frame.workers, sid);
    if Live(s.hub, sid) {
      CallStartsOk(s.hub, sid, GoingAway);
    }
    hide EndSession, CallOk, Stopped, LiveSessions, SessionsOk, ThreadsOk;
  }

  lemma CloseMovesOk(s: System, t: ThreadId, cid: Id, m: Move)
    requires MoveCloseJoins(s, t) == Some(m) || MoveCloseReturns(s, t) == Some(m)
        || MoveCloseStopsChannel(s, t, cid) == Some(m)
    requires Ready(s)
    ensures MoveOk(s, t, m)
  {
    assert ThreadOk(s.hub, s.channels, s.threads[t]);
  }

  lemma EndSignalsOk(s: System, t: ThreadId, m: Move)
    requires MoveEndSignals(s, t) == Some(m) && Ready(s)
    ensures MoveOk(s, t, m)
  {
    var th := s.threads[t];
    assert ThreadOk(s.hub, s.channels, th);
    SessionFramesUndisturbed(s.hub, m.section, th.frame, th.call);
    ShutdownFramesUndisturbed(s.hub, m.section, s.channels, s.channels, th.frame);
  }

  lemma EndProceedsOk(s: System, t: ThreadId, m: Move)
    requires MoveEndTells(s, t) == Some(m) || MoveEndClosesViewer(s, t) == Some(m) || MoveEndClosesData(s, t) == Some(m)
    requires Ready(s)
    ensures MoveOk(s, t, m)
  {
    assert ThreadOk(s.hub, s.channels, s.threads[t]);
  }

  /** The actions of viewers, claims and relays; the others serve control channels, close the hub or end a session. */
  predicate OfStreams(a: Action) {
    || a.Open? || a.SendOpen? || a.WaitReady? || a.WaitGivesUp? || a.WaitDone? || a.Claim? || a.Deliver?
        || a.CloseReady?
    || a.Release? || a.Abort? || a.Relay? || a.DropRefusedViewer? || a.RelayEnds? || a.RelaySeesDone?
        || a.RelayReturns? || a.PumpEnds?
  }

  lemma EveryStreamMoveOk(s: System, a: Action, m: Move)
    requires Ready(s) && MoveOf(s, a) == Some(m) && OfStreams(a)
    ensures MoveOk(s, a.t, m)
  {
    hide MoveOk, Ready;
    hide MoveOpen, MoveSendOpen, MoveWaitReady, MoveWaitGivesUp, MoveWaitDone, MoveClaim, MoveDeliver, MoveCloseReady;
    hide MoveRelease, MoveAbort, MoveRelay, MoveDropRefusedViewer, MoveRelayEnds, MoveRelaySeesDone, MoveRelayReturns;
    hide MovePumpEnds, MoveDrop, MoveServeControl, MoveStopReplaced, MoveChannelEnds, MoveTearDown, MoveEndOrphan;
    hide MoveServeReturns, MoveClose, MoveCloseEndsSession, MoveCloseJoins, MoveCloseStopsChannel, MoveCloseReturns;
    hide MoveEndSignals, MoveEndTells, MoveEndClosesViewer, MoveEndClosesData;
    match a
    case Open(t, sid, v) => OpenOk(s, t, sid, v, m);
    case SendOpen(t, queued) => SendOpenOk(s, t, queued, m);
    case WaitReady(t) => WaitReadyOk(s, t, m);
    case WaitGivesUp(t, error) => WaitEndsOk(s, t, error, m);
    case WaitDone(t) => WaitEndsOk(s, t, ConnectorTimeout, m);
    case Claim(t, connector, sid) => ClaimOk(s, t, connector, sid, m);
    case Deliver(t, conn) => DeliverOk(s, t, conn, m);
    case CloseReady(t) => CloseReadyOk(s, t, m);
    case Release(t) => GiveUpOk(s, t, m);
    case Abort(t) => GiveUpOk(s, t, m);
    case Relay(t, conn, p, q) => RelayOk(s, t, conn, p, q, m);
    case DropRefusedViewer(t) => DropRefusedViewerOk(s, t, m);
    case RelayEnds(t, failed) => RelayEndsOk(s, t, failed, m);
    case RelaySeesDone(t) => RelayWindsDownOk(s, t, m);
    case RelayReturns(t) => RelayWindsDownOk(s, t, m);
    case PumpEnds(t, code) => PumpEndsOk(s, t, code, m);
  }

  lemma EveryOtherMoveOk(s: System, a: Action, m: Move)
    requires Ready(s) && MoveOf(s, a) == Some(m) && !OfStreams(a)
    ensures MoveOk(s, a.t, m)
  {
    hide MoveOk, Ready;
    hide MoveOpen, MoveSendOpen, MoveWaitReady, MoveWaitGivesUp, MoveWaitDone, MoveClaim, MoveDeliver, MoveCloseReady;
    hide MoveRelease, MoveAbort, MoveRelay, MoveDropRefusedViewer, MoveRelayEnds, MoveRelaySeesDone, MoveRelayReturns;
    hide MovePumpEnds, MoveDrop, MoveServeControl, MoveStopReplaced, MoveChannelEnds, MoveTearDown, MoveEndOrphan;
    hide MoveServeReturns, MoveClose, MoveCloseEndsSession, MoveCloseJoins, MoveCloseStopsChannel, MoveCloseReturns;
    hide MoveEndSignals, MoveEndTells, MoveEndClosesViewer, MoveEndClosesData;
    match a
    case Drop(t) => RelayWindsDownOk(s, t, m);
    case ServeControl(t, connector, cid, conn) => ServeControlOk(s, t, connector, cid, conn, m);
    case StopReplaced(t) => ChannelMovesOk(s, t, m);
    case ChannelEnds(t) => ChannelMovesOk(s, t, m);
    case TearDown(t) => TearDownOk(s, t, m);
    case EndOrphan(t, sid) => EndOrphanOk(s, t, sid, m);
    case ServeReturns(t) => ChannelMovesOk(s, t, m);
    case Close(t) => CloseOk(s, t, m);
    case CloseEndsSession(t, worker, sid) => CloseEndsSessionOk(s, t, worker, sid, m);
    case CloseJoins(t) => CloseMovesOk(s, t, 0, m);
    case CloseStopsChannel(t, cid) => CloseMovesOk(s, t, cid, m);
    case CloseReturns(t) => CloseMovesOk(s, t, 0, m);
    case EndSignals(t) => EndSignalsOk(s, t, m);
    case EndTells(t) => EndProceedsOk(s, t, m);
    case EndClosesViewer(t) => EndProceedsOk(s, t, m);
    case EndClosesData(t) => EndProceedsOk(s, t, m);
  }

  /** Every action that can happen is a move that respects the protocol. */
  lemma EveryMoveOk(s: System, a: Action, m: Move)
    requires Ready(s) && MoveOf(s, a) == Some(m)
    ensures MoveOk(s, a.t, m)
  {
    hide MoveOf, MoveOk, Ready;
    if OfStreams(a) {
      EveryStreamMoveOk(s, a, m);
    } else {
      EveryOtherMoveOk(s, a, m);
    }
  }
}
