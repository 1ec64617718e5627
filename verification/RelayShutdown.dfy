/** What is left to do until nothing is served any more: after Close no step of any thread adds to it. */
module RelayShutdown {
  import opened Options
  import opened RelayModel
  import opened RelayTallies
  import opened RelayProtocol
  import opened RelayThreads
  import opened RelayInvariants
  import opened RelayDuties
  import opened RelayOwnership
  import opened RelayTheorems

  /* ---------- What is left to do ---------- */

  function CallWork(call: Option<EndCall>): nat {
    match call
    case None => 0
    case Some(c) => match c.stage case SignalDone => 4 case TellConnector => 3 case CloseViewer => 2 case CloseData => 1
  }

  function FrameWork(f: Frame): nat {
    match f
    case RelayLoop(_, _, _) => 2
    case RelayJoin(_, _) => 1
    case Pump(_) => 1
    case StopPrevious(_, _, _) => 4
    case Serving(_, _) => 3
    case Teardown(_) => 2
    case Orphans(_, rest) => 1 + |rest|
    case _ => 0
  }

  /** The steps a thread has before it: of a call of end, of a relay or its copying, of a control channel. */
  function WorkOf(th: Thread): nat { FrameWork(th.frame) + CallWork(th.call) }

  ghost function Total(threads: map<ThreadId, Thread>): nat
    decreases threads.Keys
  {
    if threads == map[] then 0
    else
      var t :| t in threads;
      WorkOf(threads[t]) + Total(threads - {t})
  }

  lemma {:induction false} TotalSplit(threads: map<ThreadId, Thread>, t: ThreadId)
    requires t in threads
    ensures Total(threads) == WorkOf(threads[t]) + Total(threads - {t})
    decreases threads.Keys
  {
    hide WorkOf;
    var u :| u in threads && Total(threads) == WorkOf(threads[u]) + Total(threads - {u});
    if u != t {
      TotalSplit(threads - {u}, t);
      TotalSplit(threads - {t}, u);
      assert threads - {u} - {t} == threads - {t} - {u};
    }
  }

  function WorkAt(threads: map<ThreadId, Thread>, t: ThreadId): nat {
    if t in threads then WorkOf(threads[t]) else 0
  }

  lemma TotalUpdate(threads: map<ThreadId, Thread>, t: ThreadId, th: Thread)
    ensures Total(threads[t := th]) + WorkAt(threads, t) == Total(threads) + WorkOf(th)
  {
    hide WorkOf, Total;
    TotalSplit(threads[t := th], t);
    assert threads[t := th] - {t} == threads - {t};
    if t in threads {
      TotalSplit(threads, t);
    } else {
      assert threads - {t} == threads;
    }
  }

  /* ---------- No step adds to it ---------- */

  /** Ending a session has no effect any more, and nothing is taken in. */
  ghost predicate Idles(h: Hub) {
    && (forall frame, sid, code :: End(h, frame, sid, code) == Go(frame))
    && (forall sid, code :: EndingOf(h, sid, code) == Untouched && CallOf(h, sid, code) == None)
    && (forall v :: DecideOpen(h, v).Refused?)
    && (forall sid :: sid in h.table ==> !Relayable(h, sid))
    && (forall connector :: !DecideRegister(h, connector).Registered?)
    && (forall connector, cid :: OrphansOf(h, connector, cid) == {})
  }

  lemma SettledIdles(s: System)
    requires RelayInv(s) && Settled(s)
    ensures Idles(s.hub)
  {
    hide SessionsOk, ThreadsOk, UniqueRoles, ControlsOk, DutiesAttended, ExactRunning, Owned, Stopped;
    assert forall sid :: !Live(s.hub, sid);
  }

  /** Neither more work for the thread that moves, nor threads with work. */
  predicate AddsNothing(s: System, t: ThreadId, m: Move) {
    && WorkOf(Thread(m.frame, m.call)) <= WorkAt(s.threads, t)
    && !m.started.Pumps?
    && (m.started.Worker? ==> m.started.call == None && m.started.worker !in s.threads && t in s.threads)
  }

  lemma StreamMovesAddNothing(s: System, a: Action, m: Move)
    requires Idles(s.hub) && MoveOf(s, a) == Some(m) && OfStreams(a)
    ensures AddsNothing(s, a.t, m)
  {
    hide Allowed, Claimable, RefusalCode, DoneError, CloseCodeFor, End, EndingOf, CallOf, DecideOpen, Relayable,
        DecideRegister, OrphansOf;
  }

  lemma EndOrphanAddsNothing(s: System, t: ThreadId, sid: Id, m: Move)
    requires Idles(s.hub) && MoveEndOrphan(s, t, sid) == Some(m)
    ensures AddsNothing(s, t, m)
  {
    hide End, EndingOf, CallOf, DecideOpen, Relayable, DecideRegister, OrphansOf;
    var rest := FrameOf(s, t).rest;
    assert |rest - {sid}| == |rest| - 1;
    assert m == Go(Orphans(FrameOf(s, t).connector, rest - {sid}));
  }

  lemma TearDownAddsNothing(s: System, t: ThreadId, m: Move)
    requires Idles(s.hub) && MoveTearDown(s, t) == Some(m)
    ensures AddsNothing(s, t, m)
  {
    hide End, EndingOf, CallOf, DecideOpen, Relayable, DecideRegister, OrphansOf;
  }

  lemma ServeControlAddsNothing(s: System, t: ThreadId, connector: Id, cid: Id, conn: Conn, m: Move)
    requires Idles(s.hub) && MoveServeControl(s, t, connector, cid, conn) == Some(m)
    ensures AddsNothing(s, t, m)
  {
    hide End, EndingOf, CallOf, DecideOpen, Relayable, DecideRegister, OrphansOf;
  }

  lemma CloseEndsSessionAddsNothing(s: System, t: ThreadId, worker: ThreadId, sid: Id, m: Move)
    requires Idles(s.hub) && MoveCloseEndsSession(s, t, worker, sid) == Some(m)
    ensures AddsNothing(s, t, m)
  {
    hide End, EndingOf, CallOf, DecideOpen, Relayable, DecideRegister, OrphansOf;
  }

  lemma CallAddsNothing(s: System, t: ThreadId, m: Move)
    requires CallMove(s, t, m)
    ensures AddsNothing(s, t, m)
  {
  }

  lemma ServingAddsNothing(s: System, t: ThreadId, m: Move)
    requires ServingMove(s, t, m)
    ensures AddsNothing(s, t, m)
  {
  }

  lemma ClosingAddsNothing(s: System, t: ThreadId, cid: Id, m: Move)
    requires MoveClose(s, t) == Some(m) || MoveCloseJoins(s, t) == Some(m) || MoveCloseReturns(s, t) == Some(m)
        || MoveCloseStopsChannel(s, t, cid) == Some(m) || MoveDrop(s, t) == Some(m)
    ensures AddsNothing(s, t, m)
  {
    hide Returned;
  }

  lemma ChannelMovesAddNothing(s: System, a: Action, m: Move)
    requires Idles(s.hub) && MoveOf(s, a) == Some(m) && !OfStreams(a)
    ensures AddsNothing(s, a.t, m)
  {
    hide Idles, AddsNothing, MoveDrop, MoveServeControl, MoveStopReplaced, MoveChannelEnds, MoveTearDown,
        MoveEndOrphan, MoveServeReturns, MoveClose, MoveCloseEndsSession, MoveCloseJoins, MoveCloseStopsChannel,
        MoveCloseReturns, MoveEndSignals, MoveEndTells, MoveEndClosesViewer, MoveEndClosesData;
    match a
    case ServeControl(t, connector, cid, conn) => ServeControlAddsNothing(s, t, connector, cid, conn, m);
    case StopReplaced(t) => ServingAddsNothing(s, t, m);
    case ChannelEnds(t) => ServingAddsNothing(s, t, m);
    case TearDown(t) => TearDownAddsNothing(s, t, m);
    case EndOrphan(t, sid) => EndOrphanAddsNothing(s, t, sid, m);
    case ServeReturns(t) => ServingAddsNothing(s, t, m);
    case CloseEndsSession(t, worker, sid) => CloseEndsSessionAddsNothing(s, t, worker, sid, m);
    case CloseStopsChannel(t, cid) => ClosingAddsNothing(s, t, cid, m);
    case Drop(t) => ClosingAddsNothing(s, t, 0, m);
    case Close(t) => ClosingAddsNothing(s, t, 0, m);
    case CloseJoins(t) => ClosingAddsNothing(s, t, 0, m);
    case CloseReturns(t) => ClosingAddsNothing(s, t, 0, m);
    case _ => CallAddsNothing(s, a.t, m);
  }

  lemma EveryMoveAddsNothing(s: System, a: Action, m: Move)
    requires Idles(s.hub) && MoveOf(s, a) == Some(m)
    ensures AddsNothing(s, a.t, m)
  {
    hide MoveOf, AddsNothing, Idles;
    if OfStreams(a) {
      StreamMovesAddNothing(s, a, m);
    } else {
      ChannelMovesAddNothing(s, a, m);
    }
  }

  lemma TotalAfter(s: System, t: ThreadId, m: Move)
    requires AddsNothing(s, t, m)
    ensures Total(ThreadsAfter(s.threads, t, m)) + WorkAt(s.threads, t)
            == Total(s.threads) + WorkOf(Thread(m.frame, m.call))
  {
    hide Total;
    var moved := s.threads[t := Thread(m.frame, m.call)];
    TotalUpdate(s.threads, t, Thread(m.frame, m.call));
    if m.started.Worker? {
      TotalUpdate(moved, m.started.worker, Thread(Finished, None));
    }
  }

  /** After the closing call no step of any thread adds work. */
  lemma WorkNeverGrows(s: System, a: Action, s': System)
    requires Idles(s.hub) && Step(s, a) == Some(s')
    ensures Total(s'.threads) <= Total(s.threads)
  {
    hide Idles, WorkAt, MoveOf, Perform, ChannelsAfter, ConnsAfter;
    EveryMoveAddsNothing(s, a, MoveOf(s, a).value);
    TotalAfter(s, a.t, MoveOf(s, a).value);
  }

  /* ---------- Copying threads ---------- */

  predicate IsPump(threads: map<ThreadId, Thread>, p: ThreadId) {
    p in threads && (threads[p].frame.Pump? || threads[p].frame.Finished?)
  }

  predicate Relays(f: Frame) { f.RelayLoop? || f.RelayJoin? }

  /** The two threads a relay waits for are still copying or have returned. */
  ghost predicate PumpsThere(threads: map<ThreadId, Thread>) {
    forall t {:trigger Relays(threads[t].frame)} :: t in threads && Relays(threads[t].frame) ==>
      HasPumps(threads, threads[t].frame)
  }

  predicate HasPumps(threads: map<ThreadId, Thread>, f: Frame)
    requires Relays(f)
  {
    IsPump(threads, f.fromViewer) && IsPump(threads, f.fromConnector)
  }

  predicate KeepsPumps(s: System, t: ThreadId, m: Move) {
    && (IsPump(s.threads, t) ==> m.frame.Pump? || m.frame.Finished?)
    && (Relays(m.frame) ==>
          || (t in s.threads && Relays(s.threads[t].frame) && m.frame.fromViewer == s.threads[t].frame.fromViewer
              && m.frame.fromConnector == s.threads[t].frame.fromConnector)
          || (m.started.Pumps? && m.started.fromViewer == m.frame.fromViewer
              && m.started.fromConnector == m.frame.fromConnector))
  }

  lemma StreamMovesKeepPumps(s: System, a: Action, m: Move)
    requires MoveOf(s, a) == Some(m) && OfStreams(a)
    ensures KeepsPumps(s, a.t, m)
  {
    hide Allowed, DecideOpen, DecideRegister, OrphansOf, Claimable, Relayable, Returned, RefusalCode, DoneError,
        CloseCodeFor, EndingOf, CallOf;
  }

  lemma ChannelMovesKeepPumps(s: System, a: Action, m: Move)
    requires MoveOf(s, a) == Some(m) && !OfStreams(a)
    ensures KeepsPumps(s, a.t, m)
  {
    hide Allowed, DecideOpen, DecideRegister, OrphansOf, Claimable, Relayable, Returned, RefusalCode, DoneError,
        CloseCodeFor, EndingOf, CallOf;
  }

  lemma EveryMoveKeepsPumps(s: System, a: Action, m: Move)
    requires MoveOf(s, a) == Some(m)
    ensures KeepsPumps(s, a.t, m)
  {
    hide MoveOf, KeepsPumps;
    if OfStreams(a) {
      StreamMovesKeepPumps(s, a, m);
    } else {
      ChannelMovesKeepPumps(s, a, m);
    }
  }

  lemma PumpStays(s: System, t: ThreadId, m: Move, p: ThreadId)
    requires Allowed(s.hub, m.section) && KeepsPumps(s, t, m) && StartedOk(s, m) && IsPump(s.threads, p)
    ensures IsPump(ThreadsAfter(s.threads, t, m), p)
  {
  }

  lemma PumpsAfter(s: System, t: ThreadId, m: Move, u: ThreadId)
    requires Allowed(s.hub, m.section) && PumpsThere(s.threads) && KeepsPumps(s, t, m) && StartedOk(s, m)
        && (m.started.NoThreads? || t in s.threads)
    requires u in ThreadsAfter(s.threads, t, m) && Relays(ThreadsAfter(s.threads, t, m)[u].frame)
    ensures HasPumps(ThreadsAfter(s.threads, t, m), ThreadsAfter(s.threads, t, m)[u].frame)
  {
    if u in s.threads && Relays(s.threads[u].frame) {
      assert HasPumps(s.threads, s.threads[u].frame);
      PumpStays(s, t, m, s.threads[u].frame.fromViewer);
      PumpStays(s, t, m, s.threads[u].frame.fromConnector);
    }
    hide PumpsThere;
  }

  lemma StepKeepsPumps(s: System, a: Action, s': System)
    requires RelayInv(s) && PumpsThere(s.threads) && Step(s, a) == Some(s')
    ensures PumpsThere(s'.threads)
  {
    hide MoveOf, Perform, ChannelsAfter, ConnsAfter, RelayInv, ThreadOk, HoldsRole, TakesVacant, Timely, ThreadsAfter,
        StartedOk, KeepsPumps, HasPumps, Relays;
    var m := MoveOf(s, a).value;
    MoveIsOk(s, a);
    EveryMoveKeepsPumps(s, a, m);
    forall u | u in s'.threads && Relays(s'.threads[u].frame) ensures HasPumps(s'.threads, s'.threads[u].frame) {
      PumpsAfter(s, a.t, m, u);
    }
  }

  lemma MoveIsOk(s: System, a: Action)
    requires RelayInv(s) && MoveOf(s, a).Some?
    ensures MoveOk(s, a.t, MoveOf(s, a).value)
  {
    hide MoveOf, MoveOk;
    EveryMoveOk(s, a, MoveOf(s, a).value);
  }
}
