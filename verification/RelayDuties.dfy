/** Nothing is forgotten: whatever the hub's state still calls for, some thread is on its way to do, and the wait group
    counts exactly the connections being served. */
module RelayDuties {
  import opened Options
  import opened RelayModel
  import opened RelayTallies
  import opened RelayProtocol
  import opened RelayThreads
  import opened RelayInvariants

  /** What a thread is on its way to do: wake the waiting viewer, announce the end of a session, end a session whose
      channel is gone, or tear a registered channel down once it ends. */
  datatype Duty = WakesViewer(sid: Id) | AnnouncesEnd(sid: Id) | EndsOrphan(sid: Id) | Serves(cid: Id)

  predicate HasDuty(th: Thread, d: Duty) {
    match d
    case WakesViewer(sid) => th.frame.SignalReady? && th.frame.sid == sid
    case AnnouncesEnd(sid) => th.call.Some? && th.call.value.sid == sid && th.call.value.stage == SignalDone
    case EndsOrphan(sid) => th.frame.Orphans? && sid in th.frame.rest
    case Serves(cid) => (th.frame.StopPrevious? || th.frame.Serving? || th.frame.Teardown?) && th.frame.cid == cid
  }

  ghost predicate Needs(h: Hub, d: Duty) {
    match d
    case WakesViewer(sid) => sid in h.table && (h.table[sid].state == Connected || h.table[sid].state == Relaying)
        && h.table[sid].readyCloses == 0
    case AnnouncesEnd(sid) => sid in h.table && h.table[sid].state == Ended && h.table[sid].doneCloses == 0
    case EndsOrphan(sid) => sid in h.sessions && sid in h.table && h.table[sid].viewer.connector !in h.controls
    case Serves(cid) => cid in h.controls.Values
  }

  ghost predicate Attended(s: System, d: Duty) { exists t :: t in s.threads && HasDuty(s.threads[t], d) }

  ghost predicate DutiesAttended(s: System) { forall d :: Needs(s.hub, d) ==> Attended(s, d) }

  /* ---------- One move ---------- */

  /** A move drops a duty only by discharging it. */
  ghost predicate KeepsDuties(s: System, t: ThreadId, m: Move)
    requires Allowed(s.hub, m.section)
  {
    forall d :: t in s.threads && HasDuty(s.threads[t], d) && Needs(Perform(s.hub, m.section), d)
        ==> HasDuty(Thread(m.frame, m.call), d)
  }

  /** A move whose critical section creates a need takes it on. */
  predicate TakesDuties(s: System, t: ThreadId, m: Move) {
    var c := m.section;
    && (c.Delivering? ==> HasDuty(Thread(m.frame, m.call), WakesViewer(c.sid)))
    && (c.Ending? ==> var call := if m.started.Worker? then m.started.call else m.call;
                      HasDuty(Thread(m.frame, call), AnnouncesEnd(c.sid)))
    && (c.Unregistering? ==> m.frame == Orphans(c.connector, OrphansOf(s.hub, c.connector, c.cid)))
    && (c.Registering? ==> HasDuty(Thread(m.frame, m.call), Serves(c.cid)))
  }

  lemma StreamMovesTakeDuties(s: System, a: Action, m: Move)
    requires MoveOf(s, a) == Some(m) && OfStreams(a)
    ensures TakesDuties(s, a.t, m)
  {
    hide Allowed, DecideOpen, DecideRegister, OrphansOf, Claimable, Relayable, RefusalCode, DoneError, CloseCodeFor;
  }

  lemma ChannelMovesTakeDuties(s: System, a: Action, m: Move)
    requires MoveOf(s, a) == Some(m) && !OfStreams(a)
    ensures TakesDuties(s, a.t, m)
  {
    hide Allowed, DecideOpen, DecideRegister, OrphansOf, Claimable, Relayable, RefusalCode, DoneError, CloseCodeFor;
  }

  lemma EveryMoveTakesDuties(s: System, a: Action, m: Move)
    requires MoveOf(s, a) == Some(m)
    ensures TakesDuties(s, a.t, m)
  {
    hide MoveOf, TakesDuties;
    if OfStreams(a) {
      StreamMovesTakeDuties(s, a, m);
    } else {
      ChannelMovesTakeDuties(s, a, m);
    }
  }

  lemma EndOrphanKeepsDuties(s: System, t: ThreadId, orphan: Id, m: Move, d: Duty)
    requires MoveEndOrphan(s, t, orphan) == Some(m) && LiveSessions(s.hub)
    requires HasDuty(s.threads[t], d) && Needs(Perform(s.hub, m.section), d)
    ensures HasDuty(Thread(m.frame, m.call), d)
  {
    if Live(s.hub, orphan) {
      EndedSession(s.hub, orphan, ConnectorOffline);
      hide EndSession;
    }
  }

  /** A channel is registered for its own connector only, so unregistering it there leaves it nowhere. */
  lemma UnregisteredForGood(s: System, cid: Id)
    requires ControlsOk(s) && cid in s.channels
    ensures !Needs(Unregister(s.hub, s.channels[cid].connector, cid), Serves(cid))
  {
  }

  predicate CallMove(s: System, t: ThreadId, m: Move) {
    || MoveEndSignals(s, t) == Some(m) || MoveEndTells(s, t) == Some(m)
    || MoveEndClosesViewer(s, t) == Some(m) || MoveEndClosesData(s, t) == Some(m)
  }

  predicate ServingMove(s: System, t: ThreadId, m: Move) {
    || MoveCloseReady(s, t) == Some(m) || MoveServeReturns(s, t) == Some(m) || MoveStopReplaced(s, t) == Some(m)
    || MoveChannelEnds(s, t) == Some(m)
  }

  predicate DutyMove(s: System, a: Action, m: Move) {
    || CallMove(s, a.t, m) || ServingMove(s, a.t, m) || MoveTearDown(s, a.t) == Some(m)
    || (a.EndOrphan? && MoveEndOrphan(s, a.t, a.sid) == Some(m))
  }

  lemma StreamDutyMoves(s: System, a: Action, m: Move, d: Duty)
    requires MoveOf(s, a) == Some(m) && a.t in s.threads && HasDuty(s.threads[a.t], d) && OfStreams(a)
    ensures DutyMove(s, a, m)
  {
    hide Allowed, DecideOpen, DecideRegister, OrphansOf, Claimable, Relayable, RefusalCode, DoneError, CloseCodeFor;
  }

  lemma ChannelDutyMoves(s: System, a: Action, m: Move, d: Duty)
    requires MoveOf(s, a) == Some(m) && a.t in s.threads && HasDuty(s.threads[a.t], d) && !OfStreams(a)
    ensures DutyMove(s, a, m)
  {
    hide Allowed, DecideOpen, DecideRegister, OrphansOf, Claimable, Relayable, RefusalCode, DoneError, CloseCodeFor;
  }

  /** Which actions can move a thread that has a duty. */
  lemma DutyMoves(s: System, a: Action, m: Move, d: Duty)
    requires MoveOf(s, a) == Some(m) && a.t in s.threads && HasDuty(s.threads[a.t], d)
    ensures DutyMove(s, a, m)
  {
    hide MoveOf, DutyMove, HasDuty;
    if OfStreams(a) {
      StreamDutyMoves(s, a, m, d);
    } else {
      ChannelDutyMoves(s, a, m, d);
    }
  }

  lemma CallKeepsDuties(s: System, t: ThreadId, m: Move, d: Duty)
    requires CallMove(s, t, m)
    requires HasDuty(s.threads[t], d) && Needs(Perform(s.hub, m.section), d)
    ensures HasDuty(Thread(m.frame, m.call), d)
  {
  }

  lemma ServingKeepsDuties(s: System, t: ThreadId, m: Move, d: Duty)
    requires ServingMove(s, t, m)
    requires HasDuty(s.threads[t], d) && Needs(Perform(s.hub, m.section), d)
    ensures HasDuty(Thread(m.frame, m.call), d)
  {
  }

  lemma TearDownDischarges(s: System, t: ThreadId, m: Move, d: Duty)
    requires MoveTearDown(s, t) == Some(m) && ControlsOk(s) && HasDuty(s.threads[t], d)
    ensures !Needs(Perform(s.hub, m.section), d)
  {
    UnregisteredForGood(s, FrameOf(s, t).cid);
  }

  lemma EveryMoveKeepsDuties(s: System, a: Action, m: Move)
    requires Ready(s) && MoveOf(s, a) == Some(m)
    ensures KeepsDuties(s, a.t, m)
  {
    hide MoveOf, HasDuty, Needs, CallMove, ServingMove, MoveTearDown, MoveEndOrphan, SessionsOk, LiveSessions,
        ThreadsOk, ControlsOk, Perform;
    forall d | a.t in s.threads && HasDuty(s.threads[a.t], d) && Needs(Perform(s.hub, m.section), d)
      ensures HasDuty(Thread(m.frame, m.call), d)
    {
      DutyMoves(s, a, m, d);
      if CallMove(s, a.t, m) {
        CallKeepsDuties(s, a.t, m, d);
      } else if ServingMove(s, a.t, m) {
        ServingKeepsDuties(s, a.t, m, d);
      } else if MoveTearDown(s, a.t) == Some(m) {
        TearDownDischarges(s, a.t, m, d);
      } else {
        EndOrphanKeepsDuties(s, a.t, a.sid, m, d);
      }
    }
  }

  /* ---------- Every step ---------- */

  /** Where a new need comes from. */
  lemma NeedOrigin(h: Hub, c: Section, d: Duty)
    requires LiveSessions(h) && SessionsOk(h) && Timely(h, c) && Needs(Perform(h, c), d) && !Needs(h, d)
    ensures || (c.Delivering? && d == WakesViewer(c.sid))
            || (c.Ending? && d == AnnouncesEnd(c.sid))
            || (c.Unregistering? && d.EndsOrphan? && d.sid in OrphansOf(h, c.connector, c.cid))
            || (c.Registering? && d == Serves(c.cid))
  {
    hide Increment, Decrement;
    match d
    case Serves(cid) =>
      var k :| k in Perform(h, c).controls && Perform(h, c).controls[k] == cid;
    case WakesViewer(sid) =>
    case AnnouncesEnd(sid) =>
    case EndsOrphan(sid) =>
  }

  /** The step that creates a need leaves a thread to attend to it. */
  lemma NewDutyAttended(s: System, t: ThreadId, m: Move, d: Duty)
    requires ProtocolInv(s) && MoveOk(s, t, m) && TakesDuties(s, t, m) && Needs(Perform(s.hub, m.section), d)
        && !Needs(s.hub, d)
    ensures Attended(Execute(s, t, m), d)
  {
    hide Needs, Perform, ChannelsAfter, ConnsAfter, LiveSessions, ExactCounters, WithinLimits, SessionsOk, ThreadsOk,
        UniqueRoles, ControlsOk, ThreadOk, OrphansOf;
    NeedOrigin(s.hub, m.section, d);
    var u := if m.section.Ending? then EnderOf(t, m) else t;
    assert u in Execute(s, t, m).threads && HasDuty(Execute(s, t, m).threads[u], d);
  }

  lemma OldDutyAttended(s: System, t: ThreadId, m: Move, d: Duty)
    requires Attended(s, d) && MoveOk(s, t, m) && KeepsDuties(s, t, m) && Needs(Perform(s.hub, m.section), d)
    ensures Attended(Execute(s, t, m), d)
  {
    hide Needs, Perform, ChannelsAfter, ConnsAfter, HasDuty, ThreadOk;
    var u :| u in s.threads && HasDuty(s.threads[u], d);
    if u !in Actors(t, m) {
      OnlyActorsMove(s, t, m, u);
    }
    assert u in Execute(s, t, m).threads && HasDuty(Execute(s, t, m).threads[u], d);
  }

  lemma StepKeepsDuties(s: System, a: Action, s': System)
    requires ProtocolInv(s) && DutiesAttended(s) && Step(s, a) == Some(s')
    ensures DutiesAttended(s')
  {
    var m := MoveOf(s, a).value;
    EveryMoveOk(s, a, m);
    EveryMoveTakesDuties(s, a, m);
    EveryMoveKeepsDuties(s, a, m);
    assert s'.hub == Perform(s.hub, m.section);
    hide MoveOf, MoveOk, Perform, Needs, HasDuty, ProtocolInv, Attended, ThreadsAfter, ConnsAfter, ChannelsAfter,
        TakesDuties, KeepsDuties;
    forall d | Needs(s'.hub, d) ensures Attended(s', d) {
      if Needs(s.hub, d) {
        OldDutyAttended(s, a.t, m, d);
      } else {
        NewDutyAttended(s, a.t, m, d);
      }
    }
  }

  /* ---------- The wait group ---------- */

  /** The calls that count in the hub's wait group. */
  predicate Counted(f: Frame) {
    f.RelayLoop? || f.RelayJoin? || f.StopPrevious? || f.Serving? || f.Teardown? || f.Orphans?
  }

  function Served(threads: map<ThreadId, Thread>): set<ThreadId> { set t | t in threads && Counted(threads[t].frame) }

  /** The wait group counts exactly the relays and control channels being served. */
  ghost predicate ExactRunning(s: System) { s.hub.running == |Served(s.threads)| }

  /** A thread joins the count where the wait group goes up and leaves it where it goes down. */
  predicate CountsRight(s: System, t: ThreadId, m: Move) {
    var was, now := t in s.threads && Counted(s.threads[t].frame), Counted(m.frame);
    if m.section.StartingRelay? || m.section.Registering? then !was && now
    else if m.section.Untracking? then was && !now
    else was == now
  }

  lemma StreamMovesCount(s: System, a: Action, m: Move)
    requires MoveOf(s, a) == Some(m) && OfStreams(a)
    ensures CountsRight(s, a.t, m)
  {
    hide Allowed, DecideOpen, DecideRegister, OrphansOf, Claimable, Relayable, Returned, RefusalCode, DoneError,
        CloseCodeFor;
  }

  lemma ChannelMovesCount(s: System, a: Action, m: Move)
    requires MoveOf(s, a) == Some(m) && !OfStreams(a)
    ensures CountsRight(s, a.t, m)
  {
    hide Allowed, DecideOpen, DecideRegister, OrphansOf, Claimable, Relayable, Returned, RefusalCode, DoneError,
        CloseCodeFor;
  }

  lemma EveryMoveCounts(s: System, a: Action, m: Move)
    requires MoveOf(s, a) == Some(m)
    ensures CountsRight(s, a.t, m)
  {
    hide MoveOf, CountsRight;
    if OfStreams(a) {
      StreamMovesCount(s, a, m);
    } else {
      ChannelMovesCount(s, a, m);
    }
  }

  lemma ServedAfter(s: System, t: ThreadId, m: Move)
    requires m.started.Pumps? ==> m.started.fromViewer !in s.threads && m.started.fromConnector !in s.threads
    requires m.started.Worker? ==> m.started.worker !in s.threads
    requires m.started.Worker? ==> m.started.worker != t
    requires m.started.Pumps? ==> m.started.fromViewer != t && m.started.fromConnector != t
    ensures Served(ThreadsAfter(s.threads, t, m)) == if Counted(m.frame) then Served(s.threads) + {t}
        else Served(s.threads) - {t}
  {
    match m.started
    case NoThreads =>
    case Pumps(p, q, _) =>
    case Worker(w, _) =>
  }

  lemma RunningAfter(h: Hub, c: Section)
    requires Allowed(h, c)
    ensures Perform(h, c).running ==
            if c.StartingRelay? || c.Registering? then h.running + 1
            else if c.Untracking? && h.running > 0 then h.running - 1
            else h.running
  {
  }

  lemma MoveKeepsRunning(s: System, t: ThreadId, m: Move)
    requires ExactRunning(s) && MoveOk(s, t, m) && CountsRight(s, t, m)
    ensures ExactRunning(Execute(s, t, m))
  {
    ServedAfter(s, t, m);
    RunningAfter(s.hub, m.section);
    assert t in s.threads && Counted(s.threads[t].frame) <==> t in Served(s.threads);
    hide ThreadsAfter, Perform, ConnsAfter, ChannelsAfter, Served, Counted;
  }

  lemma StepKeepsRunning(s: System, a: Action, s': System)
    requires ProtocolInv(s) && ExactRunning(s) && Step(s, a) == Some(s')
    ensures ExactRunning(s')
  {
    var m := MoveOf(s, a).value;
    EveryMoveOk(s, a, m);
    EveryMoveCounts(s, a, m);
    MoveKeepsRunning(s, a.t, m);
  }
}
