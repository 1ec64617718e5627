/** Who must close a connection: at every moment exactly one session or one step of one thread, until it is closed. */
module RelayOwnership {
  import opened Options
  import opened RelayModel
  import opened RelayTallies
  import opened RelayProtocol
  import opened RelayThreads
  import opened RelayInvariants
  import opened RelayDuties

  function FrameConn(f: Frame): Option<Conn> {
    if f.Dropping? || f.RelayRefused? || f.StopPrevious? || f.Serving? then Some(f.conn) else None
  }

  /** The connection a thread holds in a slot. */
  function Held(th: Thread, slot: Slot): Option<Conn> {
    match slot
    case FrameSlot => FrameConn(th.frame)
    case DataSlot => if th.call.Some? then th.call.value.data else None
    case ViewerSlot => if th.call.Some? then th.call.value.viewer else None
  }

  /** The connection a session that has not ended holds on a side. */
  function Kept(h: Hub, sid: Id, side: Side): Option<Conn> {
    if !Live(h, sid) then None else if side == DataSide then h.table[sid].data else h.table[sid].viewerConn
  }

  /** The connection somebody holds according to the sessions and threads themselves. */
  function Holding(s: System, o: Owner): Option<Conn> {
    match o
    case BySession(sid, side) => Kept(s.hub, sid, side)
    case ByThread(t, slot) => if t in s.threads then Held(s.threads[t], slot) else None
    case Gone => None
  }

  /** The record of owners says exactly who holds what: nobody else holds a connection, and what nobody holds is closed.
      */
  ghost predicate Owned(s: System) {
    && (forall o :: Holding(s, o).Some? ==> Holding(s, o).value in s.conns && s.conns[Holding(s, o).value] == o)
    && (forall c :: c in s.conns && s.conns[c] != Gone ==> Holding(s, s.conns[c]) == Some(c))
  }

  /* ---------- One move ---------- */

  /** What an owner holds after a move. */
  function Expected(s: System, t: ThreadId, m: Move, o: Owner): Option<Conn>
    requires Allowed(s.hub, m.section)
  {
    if m.section.Ending? && o.BySession? && o.sid == m.section.sid then None
    else if m.section.Ending? && o == ByThread(EnderOf(t, m), DataSlot) then s.hub.table[m.section.sid].data
    else if m.section.Ending? && o == ByThread(EnderOf(t, m), ViewerSlot) then s.hub.table[m.section.sid].viewerConn
    else if m.conn.Some? && m.conn.value.1 == o then if o == Gone then None else Some(m.conn.value.0)
    else if m.conn.Some? && m.conn.value.1 == Gone && Holding(s, o) == Some(m.conn.value.0) then None
    else Holding(s, o)
  }

  /** A move takes on new connections only, in an empty place, and closes only what its own thread holds. */
  predicate ConnRight(s: System, t: ThreadId, m: Move) {
    && (m.section.Delivering? ==> m.conn == Some((m.section.conn, BySession(m.section.sid, DataSide))))
    && (m.section.StartingRelay? ==> m.conn == Some((m.section.conn, BySession(m.section.sid, ViewerSide))))
    && (m.section.Ending? ==>
          && Holding(s, ByThread(EnderOf(t, m), DataSlot)).None?
          && Holding(s, ByThread(EnderOf(t, m), ViewerSlot)).None?)
    && (m.conn.Some? ==>
          var (c, o) := m.conn.value;
          match o
          case BySession(sid, side) =>
            c !in s.conns && Holding(s, o).None? && m.section == (if side == DataSide then Delivering(sid, c)
                else StartingRelay(sid, c))
          case ByThread(u, slot) =>
            c !in s.conns && Holding(s, o).None? && o == ByThread(t, FrameSlot) && !m.section.Ending?
          case Gone =>
            exists slot :: Holding(s, ByThread(t, slot)) == Some(c))
  }

  /** The threads a move changes hold afterwards what the move says. */
  predicate HeldRight(s: System, t: ThreadId, m: Move)
    requires Allowed(s.hub, m.section)
  {
    && (forall slot :: Held(Thread(m.frame, m.call), slot) == Expected(s, t, m, ByThread(t, slot)))
    && (m.started.Worker? ==>
          forall slot :: Held(Thread(Finished, m.started.call), slot)
              == Expected(s, t, m, ByThread(m.started.worker, slot)))
  }

  lemma KeptAfter(h: Hub, c: Section, sid: Id, side: Side)
    requires SessionsOk(h) && Timely(h, c)
    ensures Kept(Perform(h, c), sid, side) ==
            if c.Ending? && c.sid == sid then None
            else if c.Delivering? && c.sid == sid && side == DataSide then Some(c.conn)
            else if c.StartingRelay? && c.sid == sid && side == ViewerSide then Some(c.conn)
            else Kept(h, sid, side)
  {
  }

  /** After a move everybody holds what is expected. */
  lemma SessionsFollow(s: System, t: ThreadId, m: Move, sid: Id, side: Side)
    requires Owned(s) && SessionsOk(s.hub) && Timely(s.hub, m.section) && ConnRight(s, t, m)
    ensures Holding(Execute(s, t, m), BySession(sid, side)) == Expected(s, t, m, BySession(sid, side))
  {
    KeptAfter(s.hub, m.section, sid, side);
    hide Perform, ThreadsAfter, ConnsAfter, ChannelsAfter, Timely, SessionsOk, Kept;
  }

  lemma ThreadsFollow(s: System, t: ThreadId, m: Move, u: ThreadId, slot: Slot)
    requires Owned(s) && MoveOk(s, t, m) && ConnRight(s, t, m) && HeldRight(s, t, m)
    ensures Holding(Execute(s, t, m), ByThread(u, slot)) == Expected(s, t, m, ByThread(u, slot))
  {
    if u !in Actors(t, m) {
      OnlyActorsMove(s, t, m, u);
    }
    hide Perform, ConnsAfter, ChannelsAfter, Timely, ThreadOk, TakesVacant, HoldsRole;
  }

  lemma HeldIsOwned(s: System, t: ThreadId, m: Move, o: Owner)
    requires Owned(s) && Allowed(s.hub, m.section) && ConnRight(s, t, m) && Expected(s, t, m, o).Some?
    ensures var c := Expected(s, t, m, o).value; c in ConnsAfter(s, t, m) && ConnsAfter(s, t, m)[c] == o
  {
    if m.section.Ending? {
      var data, viewer := Holding(s, BySession(m.section.sid, DataSide)), Holding(s,
          BySession(m.section.sid, ViewerSide));
      hide Held;
    }
  }

  lemma OwnedIsHeld(s: System, t: ThreadId, m: Move, c: Conn)
    requires Owned(s) && Allowed(s.hub, m.section) && ConnRight(s, t, m)
    requires c in ConnsAfter(s, t, m) && ConnsAfter(s, t, m)[c] != Gone
    ensures Expected(s, t, m, ConnsAfter(s, t, m)[c]) == Some(c)
  {
    if m.section.Ending? {
      var data, viewer := Holding(s, BySession(m.section.sid, DataSide)), Holding(s,
          BySession(m.section.sid, ViewerSide));
      hide Held;
    }
  }

  lemma OwnedAfter(s: System, t: ThreadId, m: Move, s': System)
    requires Owned(s) && Allowed(s.hub, m.section) && ConnRight(s, t, m)
    requires s'.conns == ConnsAfter(s, t, m)
    requires forall o :: Holding(s', o) == Expected(s, t, m, o)
    ensures Owned(s')
  {
    forall o | Holding(s', o).Some? ensures Holding(s', o).value in s'.conns && s'.conns[Holding(s', o).value] == o {
      HeldIsOwned(s, t, m, o);
    }
    forall c | c in s'.conns && s'.conns[c] != Gone ensures Holding(s', s'.conns[c]) == Some(c) {
      OwnedIsHeld(s, t, m, c);
    }
  }

  lemma MoveKeepsOwned(s: System, t: ThreadId, m: Move)
    requires Owned(s) && SessionsOk(s.hub) && MoveOk(s, t, m) && ConnRight(s, t, m) && HeldRight(s, t, m)
    ensures Owned(Execute(s, t, m))
  {
    var s' := Execute(s, t, m);
    hide Perform, ThreadsAfter, ConnsAfter, ChannelsAfter, Timely, SessionsOk, ThreadOk, ConnRight, HeldRight, Expected,
        Holding, Owned;
    forall o ensures Holding(s', o) == Expected(s, t, m, o) {
      match o
      case BySession(sid, side) => SessionsFollow(s, t, m, sid, side);
      case ByThread(u, slot) => ThreadsFollow(s, t, m, u, slot);
      case Gone => GoneHoldsNothing(s, t, m);
    }
    OwnedAfter(s, t, m, s');
  }

  lemma GoneHoldsNothing(s: System, t: ThreadId, m: Move)
    requires Allowed(s.hub, m.section)
    ensures Holding(Execute(s, t, m), Gone) == Expected(s, t, m, Gone)
  {
    hide Perform, ThreadsAfter, ConnsAfter, ChannelsAfter, Allowed;
  }

  /* ---------- Action by action ---------- */

  ghost predicate Right(s: System, t: ThreadId, m: Move)
  {
    Allowed(s.hub, m.section) && ConnRight(s, t, m) && HeldRight(s, t, m)
  }

  /** Moves that leave every connection where it is. */
  lemma QuietRight(s: System, t: ThreadId, m: Move)
    requires Allowed(s.hub, m.section) && !m.section.Ending? && !m.section.Delivering? && !m.section.StartingRelay?
    requires m.conn.None? && !m.started.Worker?
    requires forall slot :: Held(Thread(m.frame, m.call), slot) == Holding(s, ByThread(t, slot))
    ensures Right(s, t, m)
  {
  }

  lemma EndRight(s: System, t: ThreadId, frame: Frame, sid: Id, code: CloseCode)
    requires Idle(s, t) && FrameConn(FrameOf(s, t)).None? && FrameConn(frame).None?
    ensures Right(s, t, End(s.hub, frame, sid, code))
  {
    if Live(s.hub, sid) {
    } else {
    }
  }

  /** Moves that close the connection in one slot of their own thread. */
  lemma ClosingRight(s: System, t: ThreadId, m: Move, slot: Slot)
    requires Owned(s) && Allowed(s.hub, m.section) && !m.section.Ending? && !m.section.Delivering?
        && !m.section.StartingRelay?
    requires Holding(s, ByThread(t, slot)).Some? && m.conn == Some((Holding(s, ByThread(t, slot)).value, Gone))
        && m.started.NoThreads?
    requires forall other :: Held(Thread(m.frame, m.call), other) == if other == slot then None
        else Holding(s, ByThread(t, other))
    ensures Right(s, t, m)
  {
  }

  lemma DropRefusedViewerRight(s: System, t: ThreadId, m: Move)
    requires Owned(s) && MoveDropRefusedViewer(s, t) == Some(m)
    ensures Right(s, t, m)
  {
    assert Holding(s, ByThread(t, FrameSlot)) == Some(m.conn.value.0);
    if Live(s.hub, FrameOf(s, t).sid) {
    } else {
    }
  }

  lemma DeliverRight(s: System, t: ThreadId, conn: Conn, m: Move)
    requires SessionsOk(s.hub) && MoveDeliver(s, t, conn) == Some(m)
    ensures Right(s, t, m)
  {
    if s.hub.table[FrameOf(s, t).sid].state == Claimed {
    } else {
    }
  }

  lemma RelayRight(s: System, t: ThreadId, conn: Conn, p: ThreadId, q: ThreadId, m: Move)
    requires SessionsOk(s.hub) && MoveRelay(s, t, conn, p, q) == Some(m)
    ensures Right(s, t, m)
  {
    hide RefusalCode;
    if Relayable(s.hub, FrameOf(s, t).sid) {
    } else {
    }
  }

  lemma ServeControlRight(s: System, t: ThreadId, connector: Id, cid: Id, conn: Conn, m: Move)
    requires MoveServeControl(s, t, connector, cid, conn) == Some(m)
    ensures Right(s, t, m)
  {
  }

  lemma FrameClosesRight(s: System, t: ThreadId, m: Move)
    requires Owned(s) && (MoveChannelEnds(s, t) == Some(m) || MoveDrop(s, t) == Some(m))
    ensures Right(s, t, m)
  {
    ClosingRight(s, t, m, FrameSlot);
  }

  lemma CloserRight(s: System, t: ThreadId, worker: ThreadId, sid: Id, m: Move)
    requires MoveCloseEndsSession(s, t, worker, sid) == Some(m)
    ensures Right(s, t, m)
  {
    if Live(s.hub, sid) {
    } else {
    }
  }

  lemma CallRight(s: System, t: ThreadId, m: Move)
    requires Owned(s) && ThreadsOk(s) && CallMove(s, t, m)
    ensures Right(s, t, m)
  {
    assert ThreadOk(s.hub, s.channels, s.threads[t]);
    hide SessionFrameOk, ShutdownFrameOk, ChannelFrameOk;
    if m.conn.None? {
      QuietRight(s, t, m);
    } else {
      ClosingRight(s, t, m, if s.threads[t].call.value.stage == CloseViewer then ViewerSlot else DataSlot);
    }
  }

  lemma EveryStreamMoveRight(s: System, a: Action, m: Move)
    requires Owned(s) && SessionsOk(s.hub) && ThreadsOk(s) && MoveOf(s, a) == Some(m) && OfStreams(a)
    ensures Right(s, a.t, m)
  {
    hide ThreadsOk, Right, Owned, SessionsOk, Allowed, DecideOpen, DecideRegister, OrphansOf, Claimable, Relayable,
        RefusalCode, CloseCodeFor, Live, DoneError, Returned;
    hide MoveDropRefusedViewer, MoveDeliver, MoveRelay, MoveServeControl, MoveChannelEnds, MoveDrop,
        MoveCloseEndsSession;
    hide MoveEndSignals, MoveEndTells, MoveEndClosesViewer, MoveEndClosesData;
    match a
    case DropRefusedViewer(t) => DropRefusedViewerRight(s, t, m);
    case Deliver(t, conn) => DeliverRight(s, t, conn, m);
    case Relay(t, conn, p, q) => RelayRight(s, t, conn, p, q, m);
    case SendOpen(t, queued) => if queued { QuietRight(s, t, m); }
        else { EndRight(s, t, m.frame, FrameOf(s, t).sid, ConnectorOffline); }
    case WaitGivesUp(t, error) => EndRight(s, t, m.frame, FrameOf(s, t).sid, NormalClosure);
    case WaitDone(t) => EndRight(s, t, m.frame, FrameOf(s, t).sid, NormalClosure);
    case Release(t) => EndRight(s, t, m.frame, FrameOf(s, t).sid, NormalClosure);
    case Abort(t) => EndRight(s, t, m.frame, FrameOf(s, t).sid, NormalClosure);
    case RelayEnds(t, failed) => EndRight(s, t, m.frame, FrameOf(s, t).sid, if failed.Some?
        then CloseCodeFor(failed.value) else GoingAway);
    case PumpEnds(t, code) => EndRight(s, t, m.frame, FrameOf(s, t).sid, code);
    case _ => QuietRight(s, a.t, m);
  }

  lemma EveryOtherMoveRight(s: System, a: Action, m: Move)
    requires Owned(s) && SessionsOk(s.hub) && ThreadsOk(s) && MoveOf(s, a) == Some(m) && !OfStreams(a)
    ensures Right(s, a.t, m)
  {
    hide ThreadsOk, Right, Owned, SessionsOk, Allowed, DecideOpen, DecideRegister, OrphansOf, Claimable, Relayable,
        RefusalCode, CloseCodeFor, Live, DoneError, Returned;
    hide MoveDropRefusedViewer, MoveDeliver, MoveRelay, MoveServeControl, MoveChannelEnds, MoveDrop,
        MoveCloseEndsSession;
    hide MoveEndSignals, MoveEndTells, MoveEndClosesViewer, MoveEndClosesData;
    match a
    case ServeControl(t, connector, cid, conn) => ServeControlRight(s, t, connector, cid, conn, m);
    case ChannelEnds(t) => FrameClosesRight(s, t, m);
    case Drop(t) => FrameClosesRight(s, t, m);
    case CloseEndsSession(t, worker, sid) => CloserRight(s, t, worker, sid, m);
    case EndSignals(t) => CallRight(s, t, m);
    case EndTells(t) => CallRight(s, t, m);
    case EndClosesViewer(t) => CallRight(s, t, m);
    case EndClosesData(t) => CallRight(s, t, m);
    case EndOrphan(t, sid) => EndRight(s, t, m.frame, sid, ConnectorOffline);
    case _ => QuietRight(s, a.t, m);
  }

  lemma EveryMoveRight(s: System, a: Action, m: Move)
    requires Owned(s) && SessionsOk(s.hub) && ThreadsOk(s) && MoveOf(s, a) == Some(m)
    ensures Right(s, a.t, m)
  {
    hide MoveOf, Right, Owned, SessionsOk, ThreadsOk;
    if OfStreams(a) {
      EveryStreamMoveRight(s, a, m);
    } else {
      EveryOtherMoveRight(s, a, m);
    }
  }

  /** Every connection has exactly one owner, or is closed, after every step of every thread. */
  lemma StepKeepsOwned(s: System, a: Action, s': System)
    requires ProtocolInv(s) && Owned(s) && Step(s, a) == Some(s')
    ensures Owned(s')
  {
    var m := MoveOf(s, a).value;
    EveryMoveOk(s, a, m);
    EveryMoveRight(s, a, m);
    MoveKeepsOwned(s, a.t, m);
  }

  lemma OwnerAfter(s: System, t: ThreadId, m: Move, c: Conn)
    requires Owned(s) && Allowed(s.hub, m.section) && ConnRight(s, t, m) && c in s.conns
    ensures var conns := ConnsAfter(s, t, m);
            c in conns && (s.conns[c] == Gone ==> conns[c] == Gone)
            && (s.conns[c] != Gone && conns[c] == Gone ==> s.conns[c].ByThread? && s.conns[c].thread == t)
  {
    if m.section.Ending? {
      var data, viewer := Holding(s, BySession(m.section.sid, DataSide)), Holding(s,
          BySession(m.section.sid, ViewerSide));
    }
    hide Held;
  }

  /** A connection is closed only by the thread that holds it, and once closed it stays closed. */
  lemma ClosedByItsHolder(s: System, a: Action, s': System, c: Conn)
    requires ProtocolInv(s) && Owned(s) && Step(s, a) == Some(s') && c in s.conns
    ensures c in s'.conns
    ensures s.conns[c] == Gone ==> s'.conns[c] == Gone
    ensures s.conns[c] != Gone && s'.conns[c] == Gone ==> s.conns[c].ByThread? && s.conns[c].thread == a.t
  {
    var m := MoveOf(s, a).value;
    EveryMoveRight(s, a, m);
    OwnerAfter(s, a.t, m, c);
    hide ConnsAfter;
  }

  /* ---------- What becomes of a session's connections ---------- */

  predicate Uses(session: Session, c: Conn) { session.data == Some(c) || session.viewerConn == Some(c) }

  predicate InFrame(o: Owner) { o.ByThread? && o.slot == FrameSlot }

  /** A connection that a session has had is closed by its end only. */
  ghost predicate EndsClose(s: System) {
    forall sid, c :: sid in s.hub.table && Uses(s.hub.table[sid], c) ==> c in s.conns && !InFrame(s.conns[c])
  }

  lemma UsedBefore(h: Hub, section: Section, sid: Id, c: Conn)
    requires Allowed(h, section) && sid in Perform(h, section).table && Uses(Perform(h, section).table[sid], c)
    ensures || (sid in h.table && Uses(h.table[sid], c))
            || (section.Delivering? && section.sid == sid && section.conn == c)
            || (section.StartingRelay? && section.sid == sid && section.conn == c)
  {
    hide Increment, Decrement;
  }

  lemma NeverIntoFrame(s: System, t: ThreadId, m: Move, c: Conn)
    requires Allowed(s.hub, m.section) && ConnRight(s, t, m) && c in s.conns && !InFrame(s.conns[c])
    ensures c in ConnsAfter(s, t, m) && !InFrame(ConnsAfter(s, t, m)[c])
  {
    hide Allowed, Holding;
  }

  lemma TakenIntoSession(s: System, t: ThreadId, m: Move)
    requires Allowed(s.hub, m.section) && ConnRight(s, t, m) && (m.section.Delivering? || m.section.StartingRelay?)
    ensures var conns := ConnsAfter(s, t, m); m.section.conn in conns && !InFrame(conns[m.section.conn])
  {
    hide Allowed, Holding;
  }

  lemma StepKeepsEndsClose(s: System, a: Action, s': System)
    requires ProtocolInv(s) && Owned(s) && EndsClose(s) && Step(s, a) == Some(s')
    ensures EndsClose(s')
  {
    hide MoveOf, Perform, ConnsAfter, ThreadsAfter, ChannelsAfter, ConnRight, HeldRight, Uses, InFrame, Owned, HubInv,
        UniqueRoles, ControlsOk, Allowed, SessionsOk, ThreadsOk;
    var m := MoveOf(s, a).value;
    EveryMoveRight(s, a, m);
    forall sid, c | sid in s'.hub.table && Uses(s'.hub.table[sid], c) ensures c in s'.conns && !InFrame(s'.conns[c]) {
      UsedBefore(s.hub, m.section, sid, c);
      if sid in s.hub.table && Uses(s.hub.table[sid], c) {
        NeverIntoFrame(s, a.t, m, c);
      } else {
        TakenIntoSession(s, a.t, m);
      }
    }
  }
}
