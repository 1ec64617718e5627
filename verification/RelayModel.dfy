/** The camera relay's hub as a state machine: every critical section under the hub's mutex is one step, and so is every
    action between critical sections. Any number of threads interleave freely. */
module RelayModel {
  import opened Options

  type Id = nat
  type Conn = nat
  type ThreadId = nat

  const MAX_STREAMS_PER_DEVICE_MACHINE := 4
  const MAX_STREAMS_PER_DEVICE := 20
  const MAX_SESSIONS_PER_CONNECTOR := 32
  const MAX_SESSIONS := 1024
  const MAX_CONTROL_CHANNELS := 256

  datatype Viewer = Viewer(device: Id, machine: Id, connector: Id, assignment: Id)

  /** Close codes of RFC 6455 sections 7.4.1 and 7.4.2 that the relay sends. */
  datatype CloseCode =
    | NormalClosure | GoingAway | UnsupportedData | PolicyViolation | MessageTooBig | InternalError | TryAgainLater
    | Forbidden | CameraGone | Replaced | ConnectorOffline

  datatype CheckError = NotFound | Unauthenticated | PermissionDenied | OtherFailure

  function CloseCodeFor(e: CheckError): CloseCode {
    match e
    case NotFound => CameraGone
    case Unauthenticated => Forbidden
    case PermissionDenied => Forbidden
    case OtherFailure => InternalError
  }

  datatype SessionState = Pending | Claimed | Connected | Relaying | Ended

  /** One viewer's stream. `claimedBy` lists the connectors whose Claim succeeded; `readyCloses` and `doneCloses` count
      the close calls on the two channels, each of which panics when it comes a second time. */
  datatype Session = Session(
    viewer: Viewer,
    state: SessionState,
    data: Option<Conn>,
    viewerConn: Option<Conn>,
    endCode: Option<CloseCode>,
    claimedBy: seq<Id>,
    readyCloses: nat,
    doneCloses: nat)

  datatype Hub = Hub(
    closed: bool,
    controls: map<Id, Id>,
    sessions: set<Id>,
    table: map<Id, Session>,
    byDevice: map<Id, nat>,
    byDeviceMachine: map<(Id, Id), nat>,
    byConnector: map<Id, nat>,
    running: nat)

  const NEW_HUB := Hub(false, map[], {}, map[], map[], map[], map[], 0)

  /* ---------- Critical sections ---------- */

  /** Which limit a viewer has reached. */
  datatype Limit = ThisCamera | ThisDevice | LocalService

  datatype OpenError = ShuttingDown | CameraOffline | StreamLimit(limit: Limit) | ConnectorTimeout | ContextEnded

  datatype OpenDecision = Reserved(channel: Id) | Refused(error: OpenError)

  function DeviceMachine(v: Viewer): (Id, Id) { (v.device, v.machine) }

  function DecideOpen(h: Hub, v: Viewer): OpenDecision {
    if h.closed then Refused(ShuttingDown)
    else if v.connector !in h.controls then Refused(CameraOffline)
    else if Count(h.byDeviceMachine, DeviceMachine(v)) >= MAX_STREAMS_PER_DEVICE_MACHINE
        then Refused(StreamLimit(ThisCamera))
    else if Count(h.byDevice, v.device) >= MAX_STREAMS_PER_DEVICE then Refused(StreamLimit(ThisDevice))
    else if Count(h.byConnector, v.connector) >= MAX_SESSIONS_PER_CONNECTOR || |h.sessions| >= MAX_SESSIONS
        then Refused(StreamLimit(LocalService))
    else Reserved(h.controls[v.connector])
  }

  function Increment<K>(counts: map<K, nat>, key: K): map<K, nat> { counts[key := Count(counts, key) + 1] }

  /** Lowers a counter and drops it at zero. */
  function Decrement<K>(counts: map<K, nat>, key: K): map<K, nat> {
    if Count(counts, key) <= 1 then counts - {key} else counts[key := counts[key] - 1]
  }

  function NewSession(v: Viewer): Session { Session(v, Pending, None, None, None, [], 0, 0) }

  function Reserve(h: Hub, sid: Id, v: Viewer): Hub {
    h.(sessions := h.sessions + {sid},
       table := h.table[sid := NewSession(v)],
       byDeviceMachine := Increment(h.byDeviceMachine, DeviceMachine(v)),
       byDevice := Increment(h.byDevice, v.device),
       byConnector := Increment(h.byConnector, v.connector))
  }

  predicate Claimable(h: Hub, connector: Id, sid: Id) {
    sid in h.sessions && sid in h.table && h.table[sid].viewer.connector == connector && h.table[sid].state == Pending
  }

  function Update(h: Hub, sid: Id, s: Session): Hub { h.(table := h.table[sid := s]) }

  function ClaimSession(h: Hub, connector: Id, sid: Id): Hub
    requires sid in h.table
  {
    var s := h.table[sid];
    Update(h, sid, s.(state := Claimed, claimedBy := s.claimedBy + [connector]))
  }

  function DeliverData(h: Hub, sid: Id, conn: Conn): Hub
    requires sid in h.table
  {
    Update(h, sid, h.table[sid].(state := Connected, data := Some(conn)))
  }

  function EndSession(h: Hub, sid: Id, code: CloseCode): Hub
    requires sid in h.table
  {
    var s := h.table[sid];
    Update(h, sid, s.(state := Ended, endCode := Some(code))).(
      sessions := h.sessions - {sid},
      byDeviceMachine := Decrement(h.byDeviceMachine, DeviceMachine(s.viewer)),
      byDevice := Decrement(h.byDevice, s.viewer.device),
      byConnector := Decrement(h.byConnector, s.viewer.connector))
  }

  predicate Relayable(h: Hub, sid: Id)
    requires sid in h.table
  {
    h.table[sid].state == Connected && !h.closed
  }

  function RefusalCode(h: Hub, sid: Id): CloseCode
    requires sid in h.table
  {
    if h.table[sid].state == Ended && h.table[sid].endCode.Some? then h.table[sid].endCode.value else GoingAway
  }

  function StartRelay(h: Hub, sid: Id, conn: Conn): Hub
    requires sid in h.table
  {
    Update(h, sid, h.table[sid].(state := Relaying, viewerConn := Some(conn))).(running := h.running + 1)
  }

  datatype RegisterDecision = Registered(previous: Option<Id>) | TooMany | HubClosed

  function DecideRegister(h: Hub, connector: Id): RegisterDecision {
    if connector !in h.controls && |h.controls| >= MAX_CONTROL_CHANNELS then TooMany
    else if h.closed then HubClosed
    else Registered(if connector in h.controls then Some(h.controls[connector]) else None)
  }

  function Register(h: Hub, connector: Id, cid: Id): Hub {
    h.(controls := h.controls[connector := cid], running := h.running + 1)
  }

  function SessionsOf(h: Hub, connector: Id): set<Id> {
    set sid | sid in h.sessions && sid in h.table && h.table[sid].viewer.connector == connector
  }

  /** The sessions a channel that ends leaves behind: none when a successor took its place. */
  function OrphansOf(h: Hub, connector: Id, cid: Id): set<Id> {
    if connector in h.controls && h.controls[connector] == cid then SessionsOf(h, connector) else {}
  }

  function Unregister(h: Hub, connector: Id, cid: Id): Hub {
    if connector in h.controls && h.controls[connector] == cid then h.(controls := h.controls - {connector}) else h
  }

  function Shut(h: Hub): Hub { h.(closed := true) }

  /** WaitGroup.Done; going below zero would panic. */
  function Untrack(h: Hub): Hub { h.(running := if h.running > 0 then h.running - 1 else 0) }

  /** What one step does to the hub while it holds the mutex (or, for the two channels, right after it). */
  datatype Section =
    | Untouched
    | Reserving(sid: Id, viewer: Viewer)
    | Claiming(connector: Id, sid: Id)
    | Delivering(sid: Id, conn: Conn)
    | Ending(sid: Id, code: CloseCode)
    | StartingRelay(sid: Id, conn: Conn)
    | ClosingReady(sid: Id)
    | ClosingDone(sid: Id)
    | Registering(connector: Id, cid: Id)
    | Unregistering(connector: Id, cid: Id)
    | Untracking
    | Shutting

  predicate Allowed(h: Hub, c: Section) {
    match c
    case Reserving(sid, v) => sid !in h.table && DecideOpen(h, v).Reserved?
    case Claiming(connector, sid) => Claimable(h, connector, sid)
    case Delivering(sid, _) => sid in h.table && h.table[sid].state == Claimed
    case Ending(sid, _) => sid in h.table && h.table[sid].state != Ended
    case StartingRelay(sid, _) => sid in h.table && Relayable(h, sid)
    case ClosingReady(sid) => sid in h.table
    case ClosingDone(sid) => sid in h.table
    case Registering(connector, _) => DecideRegister(h, connector).Registered?
    case Shutting => !h.closed
    case _ => true
  }

  function Perform(h: Hub, c: Section): Hub
    requires Allowed(h, c)
  {
    match c
    case Untouched => h
    case Reserving(sid, v) => Reserve(h, sid, v)
    case Claiming(connector, sid) => ClaimSession(h, connector, sid)
    case Delivering(sid, conn) => DeliverData(h, sid, conn)
    case Ending(sid, code) => EndSession(h, sid, code)
    case StartingRelay(sid, conn) => StartRelay(h, sid, conn)
    case ClosingReady(sid) => Update(h, sid, h.table[sid].(readyCloses := h.table[sid].readyCloses + 1))
    case ClosingDone(sid) => Update(h, sid, h.table[sid].(doneCloses := h.table[sid].doneCloses + 1))
    case Registering(connector, cid) => Register(h, connector, cid)
    case Unregistering(connector, cid) => Unregister(h, connector, cid)
    case Untracking => Untrack(h)
    case Shutting => Shut(h)
  }

  /* ---------- Threads ---------- */

  datatype Channel = Channel(connector: Id, stop: Option<CloseCode>)

  /** Where a thread stands between two steps. */
  datatype Frame =
    | OpenSend(sid: Id, cid: Id)
    | OpenWait(sid: Id)
    | Opened(sid: Id)
    | OpenFailed(error: OpenError)
    | HoldsClaim(sid: Id)
    | SignalReady(sid: Id)
    | Dropping(conn: Conn)
    | RelayRefused(sid: Id, conn: Conn, code: CloseCode)
    | RelayLoop(sid: Id, fromViewer: ThreadId, fromConnector: ThreadId)
    | RelayJoin(fromViewer: ThreadId, fromConnector: ThreadId)
    | Pump(sid: Id)
    | StopPrevious(cid: Id, conn: Conn, previous: Option<Id>)
    | Serving(cid: Id, conn: Conn)
    | Teardown(cid: Id)
    | Orphans(connector: Id, rest: set<Id>)
    | Closing(toEnd: set<Id>, stopping: set<Id>, workers: set<ThreadId>)
    | Stopping(rest: set<Id>)
    | CloseReturned
    | Finished

  datatype Stage = SignalDone | TellConnector | CloseViewer | CloseData

  /** A call of Session.end after its critical section. */
  datatype EndCall = EndCall(sid: Id, code: CloseCode, channel: Option<Id>, data: Option<Conn>, viewer: Option<Conn>,
      stage: Stage)

  datatype Thread = Thread(frame: Frame, call: Option<EndCall>)

  datatype Side = DataSide | ViewerSide
  datatype Slot = FrameSlot | DataSlot | ViewerSlot

  /** Who must close a connection: a session, a step of one thread, or nobody because it is closed. */
  datatype Owner = BySession(sid: Id, side: Side) | ByThread(thread: ThreadId, slot: Slot) | Gone

  datatype System = System(hub: Hub, channels: map<Id, Channel>, conns: map<Conn, Owner>,
      threads: map<ThreadId, Thread>)

  const INIT := System(NEW_HUB, map[], map[], map[])

  datatype Action =
    | Open(t: ThreadId, sid: Id, viewer: Viewer)
    | SendOpen(t: ThreadId, queued: bool)
    | WaitReady(t: ThreadId)
    | WaitGivesUp(t: ThreadId, error: OpenError)
    | WaitDone(t: ThreadId)
    | Claim(t: ThreadId, connector: Id, sid: Id)
    | Deliver(t: ThreadId, conn: Conn)
    | CloseReady(t: ThreadId)
    | Release(t: ThreadId)
    | Abort(t: ThreadId)
    | Relay(t: ThreadId, conn: Conn, fromViewer: ThreadId, fromConnector: ThreadId)
    | DropRefusedViewer(t: ThreadId)
    | RelayEnds(t: ThreadId, failed: Option<CheckError>)
    | RelaySeesDone(t: ThreadId)
    | RelayReturns(t: ThreadId)
    | PumpEnds(t: ThreadId, code: CloseCode)
    | Drop(t: ThreadId)
    | ServeControl(t: ThreadId, connector: Id, cid: Id, conn: Conn)
    | StopReplaced(t: ThreadId)
    | ChannelEnds(t: ThreadId)
    | TearDown(t: ThreadId)
    | EndOrphan(t: ThreadId, sid: Id)
    | ServeReturns(t: ThreadId)
    | Close(t: ThreadId)
    | CloseEndsSession(t: ThreadId, worker: ThreadId, sid: Id)
    | CloseJoins(t: ThreadId)
    | CloseStopsChannel(t: ThreadId, cid: Id)
    | CloseReturns(t: ThreadId)
    | EndSignals(t: ThreadId)
    | EndTells(t: ThreadId)
    | EndClosesViewer(t: ThreadId)
    | EndClosesData(t: ThreadId)

  /* ---------- Moves ---------- */

  datatype ChannelEffect = NoEffect | Opens(cid: Id, connector: Id) | Stops(cid: Id, code: CloseCode)

  datatype Started = NoThreads | Pumps(fromViewer: ThreadId, fromConnector: ThreadId,
      sid: Id) | Worker(worker: ThreadId, call: Option<EndCall>)

  /** One step of a thread: its critical section, where the thread stands afterwards, who owns a connection from now on,
      what happens to a control channel, and which threads start. */
  datatype Move = Move(
    section: Section,
    frame: Frame,
    call: Option<EndCall>,
    conn: Option<(Conn, Owner)>,
    channel: ChannelEffect,
    started: Started)

  function Go(frame: Frame): Move { Move(Untouched, frame, None, None, NoEffect, NoThreads) }

  function Into(section: Section, frame: Frame): Move { Go(frame).(section := section) }

  predicate Known(s: System, sid: Id) { sid in s.hub.table }

  predicate Live(h: Hub, sid: Id) { sid in h.table && h.table[sid].state != Ended }

  /** Session.end has no effect on a session that has ended already. */
  function EndingOf(h: Hub, sid: Id, code: CloseCode): Section { if Live(h, sid) then Ending(sid, code) else Untouched }

  /** The call of end that follows its critical section: it takes the session's connections along to close them. */
  function CallOf(h: Hub, sid: Id, code: CloseCode): Option<EndCall> {
    if Live(h, sid) then
      var session := h.table[sid];
      var connector := session.viewer.connector;
      Some(EndCall(sid, code, if connector in h.controls then Some(h.controls[connector])
          else None, session.data, session.viewerConn, SignalDone))
    else None
  }

  function End(h: Hub, frame: Frame, sid: Id, code: CloseCode): Move {
    Into(EndingOf(h, sid, code), frame).(call := CallOf(h, sid, code))
  }

  predicate Idle(s: System, t: ThreadId) { t in s.threads && s.threads[t].call.None? }

  function FrameOf(s: System, t: ThreadId): Frame
    requires t in s.threads
  {
    s.threads[t].frame
  }

  predicate Returned(s: System, t: ThreadId) { t in s.threads && s.threads[t] == Thread(Finished, None) }

  function MoveOpen(s: System, t: ThreadId, sid: Id, v: Viewer): (m: Option<Move>)
    ensures m.Some? ==> Allowed(s.hub, m.value.section)
  {
    if t in s.threads || Known(s, sid) then None
    else match DecideOpen(s.hub, v)
      case Refused(error) => Some(Go(OpenFailed(error)))
      case Reserved(cid) => Some(Into(Reserving(sid, v), OpenSend(sid, cid)))
  }

  function MoveSendOpen(s: System, t: ThreadId, queued: bool): (m: Option<Move>)
    ensures m.Some? ==> Allowed(s.hub, m.value.section)
  {
    if Idle(s, t) && FrameOf(s, t).OpenSend? && FrameOf(s, t).cid in s.channels
       && (queued ==> s.channels[FrameOf(s, t).cid].stop.None?)
    then
      var sid := FrameOf(s, t).sid;
      Some(if queued then Go(OpenWait(sid)) else End(s.hub, OpenFailed(CameraOffline), sid, ConnectorOffline))
    else None
  }

  function MoveWaitReady(s: System, t: ThreadId): (m: Option<Move>)
    ensures m.Some? ==> Allowed(s.hub, m.value.section)
  {
    if Idle(s, t) && FrameOf(s, t).OpenWait? && Known(s, FrameOf(s, t).sid)
        && s.hub.table[FrameOf(s, t).sid].readyCloses > 0
    then Some(Go(Opened(FrameOf(s, t).sid))) else None
  }

  function MoveWaitGivesUp(s: System, t: ThreadId, error: OpenError): (m: Option<Move>)
    ensures m.Some? ==> Allowed(s.hub, m.value.section)
  {
    if Idle(s, t) && FrameOf(s, t).OpenWait? && (error == ConnectorTimeout || error == ContextEnded)
    then Some(End(s.hub, OpenFailed(error), FrameOf(s, t).sid, NormalClosure)) else None
  }

  function DoneError(h: Hub, sid: Id): OpenError
    requires sid in h.table
  {
    if h.closed then ShuttingDown
    else if h.table[sid].endCode == Some(ConnectorOffline) then CameraOffline
    else ConnectorTimeout
  }

  function MoveWaitDone(s: System, t: ThreadId): (m: Option<Move>)
    ensures m.Some? ==> Allowed(s.hub, m.value.section)
  {
    if Idle(s, t) && FrameOf(s, t).OpenWait? && Known(s, FrameOf(s, t).sid)
        && s.hub.table[FrameOf(s, t).sid].doneCloses > 0
    then Some(End(s.hub, OpenFailed(DoneError(s.hub, FrameOf(s, t).sid)), FrameOf(s, t).sid, NormalClosure)) else None
  }

  function MoveClaim(s: System, t: ThreadId, connector: Id, sid: Id): (m: Option<Move>)
    ensures m.Some? ==> Allowed(s.hub, m.value.section)
  {
    if t in s.threads then None
    else if Claimable(s.hub, connector, sid) then Some(Into(Claiming(connector, sid), HoldsClaim(sid)))
    else Some(Go(Finished))
  }

  function MoveDeliver(s: System, t: ThreadId, conn: Conn): (m: Option<Move>)
    ensures m.Some? ==> Allowed(s.hub, m.value.section)
  {
    if Idle(s, t) && FrameOf(s, t).HoldsClaim? && Known(s, FrameOf(s, t).sid) && conn !in s.conns then
      var sid := FrameOf(s, t).sid;
      if s.hub.table[sid].state != Claimed then Some(Go(Dropping(conn)).(conn := Some((conn, ByThread(t, FrameSlot)))))
      else Some(Into(Delivering(sid, conn), SignalReady(sid)).(conn := Some((conn, BySession(sid, DataSide)))))
    else None
  }

  function MoveCloseReady(s: System, t: ThreadId): (m: Option<Move>)
    ensures m.Some? ==> Allowed(s.hub, m.value.section)
  {
    if Idle(s, t) && FrameOf(s, t).SignalReady? && Known(s, FrameOf(s, t).sid)
    then Some(Into(ClosingReady(FrameOf(s, t).sid), Finished)) else None
  }

  function MoveRelease(s: System, t: ThreadId): (m: Option<Move>)
    ensures m.Some? ==> Allowed(s.hub, m.value.section)
  {
    if Idle(s, t) && FrameOf(s, t).HoldsClaim? then Some(End(s.hub, Finished, FrameOf(s, t).sid, NormalClosure))
        else None
  }

  function MoveAbort(s: System, t: ThreadId): (m: Option<Move>)
    ensures m.Some? ==> Allowed(s.hub, m.value.section)
  {
    if Idle(s, t) && FrameOf(s, t).Opened? then Some(End(s.hub, Finished, FrameOf(s, t).sid, NormalClosure)) else None
  }

  function MoveRelay(s: System, t: ThreadId, conn: Conn, fromViewer: ThreadId,
                     fromConnector: ThreadId): (m: Option<Move>)
    ensures m.Some? ==> Allowed(s.hub, m.value.section)
  {
    if Idle(s, t) && FrameOf(s, t).Opened? && Known(s, FrameOf(s, t).sid) && conn !in s.conns
       && fromViewer !in s.threads && fromConnector !in s.threads && fromViewer != fromConnector
    then
      var sid := FrameOf(s, t).sid;
      if !Relayable(s.hub, sid)
      then Some(Go(RelayRefused(sid, conn, RefusalCode(s.hub, sid))).(conn := Some((conn, ByThread(t, FrameSlot)))))
      else Some(Into(StartingRelay(sid, conn), RelayLoop(sid, fromViewer, fromConnector)).(
                  conn := Some((conn, BySession(sid, ViewerSide))), started := Pumps(fromViewer, fromConnector, sid)))
    else None
  }

  function MoveDropRefusedViewer(s: System, t: ThreadId): (m: Option<Move>)
    ensures m.Some? ==> Allowed(s.hub, m.value.section)
  {
    if Idle(s, t) && FrameOf(s, t).RelayRefused?
    then Some(End(s.hub, Finished, FrameOf(s, t).sid, GoingAway).(conn := Some((FrameOf(s, t).conn, Gone)))) else None
  }

  /** A missed ping (None) or a failed re-authorization ends the session from the relay's own loop. */
  function MoveRelayEnds(s: System, t: ThreadId, failed: Option<CheckError>): (m: Option<Move>)
    ensures m.Some? ==> Allowed(s.hub, m.value.section)
  {
    if Idle(s, t) && FrameOf(s, t).RelayLoop?
    then Some(End(s.hub, FrameOf(s, t), FrameOf(s, t).sid, if failed.Some? then CloseCodeFor(failed.value)
        else GoingAway)) else None
  }

  function MoveRelaySeesDone(s: System, t: ThreadId): (m: Option<Move>)
    ensures m.Some? ==> Allowed(s.hub, m.value.section)
  {
    if Idle(s, t) && FrameOf(s, t).RelayLoop? && Known(s, FrameOf(s, t).sid)
        && s.hub.table[FrameOf(s, t).sid].doneCloses > 0
    then Some(Go(RelayJoin(FrameOf(s, t).fromViewer, FrameOf(s, t).fromConnector))) else None
  }

  function MoveRelayReturns(s: System, t: ThreadId): (m: Option<Move>)
    ensures m.Some? ==> Allowed(s.hub, m.value.section)
  {
    if Idle(s, t) && FrameOf(s, t).RelayJoin? && Returned(s, FrameOf(s, t).fromViewer)
        && Returned(s, FrameOf(s, t).fromConnector)
    then Some(Into(Untracking, Finished)) else None
  }

  function MovePumpEnds(s: System, t: ThreadId, code: CloseCode): (m: Option<Move>)
    ensures m.Some? ==> Allowed(s.hub, m.value.section)
  {
    if Idle(s, t) && FrameOf(s, t).Pump?
        && code in {NormalClosure, UnsupportedData, PolicyViolation, MessageTooBig, ConnectorOffline}
    then Some(End(s.hub, Finished, FrameOf(s, t).sid, code)) else None
  }

  function MoveDrop(s: System, t: ThreadId): (m: Option<Move>)
    ensures m.Some? ==> Allowed(s.hub, m.value.section)
  {
    if Idle(s, t) && FrameOf(s, t).Dropping? then Some(Go(Finished).(conn := Some((FrameOf(s, t).conn, Gone))))
        else None
  }

  function MoveServeControl(s: System, t: ThreadId, connector: Id, cid: Id, conn: Conn): (m: Option<Move>)
    ensures m.Some? ==> Allowed(s.hub, m.value.section)
  {
    if t in s.threads || cid in s.channels || conn in s.conns then None
    else
      var dropped := Go(Dropping(conn)).(conn := Some((conn, ByThread(t, FrameSlot))),
          channel := Opens(cid, connector));
      match DecideRegister(s.hub, connector)
      case Registered(previous) => Some(dropped.(section := Registering(connector, cid),
          frame := StopPrevious(cid, conn, previous)))
      case TooMany => Some(dropped)
      case HubClosed => Some(dropped)
  }

  function MoveStopReplaced(s: System, t: ThreadId): (m: Option<Move>)
    ensures m.Some? ==> Allowed(s.hub, m.value.section)
  {
    if Idle(s, t) && FrameOf(s, t).StopPrevious? then
      var f := FrameOf(s, t);
      Some(Go(Serving(f.cid, f.conn)).(channel := if f.previous.Some? then Stops(f.previous.value, Replaced)
          else NoEffect))
    else None
  }

  /** runControl returns, whatever the reason, with its connection closed. */
  function MoveChannelEnds(s: System, t: ThreadId): (m: Option<Move>)
    ensures m.Some? ==> Allowed(s.hub, m.value.section)
  {
    if Idle(s, t) && FrameOf(s, t).Serving?
    then Some(Go(Teardown(FrameOf(s, t).cid)).(conn := Some((FrameOf(s, t).conn, Gone)))) else None
  }

  function MoveTearDown(s: System, t: ThreadId): (m: Option<Move>)
    ensures m.Some? ==> Allowed(s.hub, m.value.section)
  {
    if Idle(s, t) && FrameOf(s, t).Teardown? && FrameOf(s, t).cid in s.channels then
      var cid := FrameOf(s, t).cid;
      var connector := s.channels[cid].connector;
      Some(Into(Unregistering(connector, cid), Orphans(connector, OrphansOf(s.hub, connector, cid))))
    else None
  }

  function MoveEndOrphan(s: System, t: ThreadId, sid: Id): (m: Option<Move>)
    ensures m.Some? ==> Allowed(s.hub, m.value.section)
  {
    if Idle(s, t) && FrameOf(s, t).Orphans? && sid in FrameOf(s, t).rest
    then Some(End(s.hub, Orphans(FrameOf(s, t).connector, FrameOf(s, t).rest - {sid}), sid, ConnectorOffline)) else None
  }

  function MoveServeReturns(s: System, t: ThreadId): (m: Option<Move>)
    ensures m.Some? ==> Allowed(s.hub, m.value.section)
  {
    if Idle(s, t) && FrameOf(s, t).Orphans? && FrameOf(s, t).rest == {} then Some(Into(Untracking, Finished)) else None
  }

  function MoveClose(s: System, t: ThreadId): (m: Option<Move>)
    ensures m.Some? ==> Allowed(s.hub, m.value.section)
  {
    if t in s.threads then None
    else if s.hub.closed then Some(Go(Finished))
    else Some(Into(Shutting, Closing(s.hub.sessions, s.hub.controls.Values, {})))
  }

  function MoveCloseEndsSession(s: System, t: ThreadId, worker: ThreadId, sid: Id): (m: Option<Move>)
    ensures m.Some? ==> Allowed(s.hub, m.value.section)
  {
    if Idle(s, t) && FrameOf(s, t).Closing? && sid in FrameOf(s, t).toEnd && worker !in s.threads then
      var f := FrameOf(s, t);
      Some(Into(EndingOf(s.hub, sid, GoingAway), Closing(f.toEnd - {sid}, f.stopping, f.workers + {worker})).(
             started := Worker(worker, CallOf(s.hub, sid, GoingAway))))
    else None
  }

  function MoveCloseJoins(s: System, t: ThreadId): (m: Option<Move>)
    ensures m.Some? ==> Allowed(s.hub, m.value.section)
  {
    if Idle(s, t) && FrameOf(s, t).Closing? && FrameOf(s, t).toEnd == {}
       && forall w :: w in FrameOf(s, t).workers ==> Returned(s, w)
    then Some(Go(Stopping(FrameOf(s, t).stopping))) else None
  }

  function MoveCloseStopsChannel(s: System, t: ThreadId, cid: Id): (m: Option<Move>)
    ensures m.Some? ==> Allowed(s.hub, m.value.section)
  {
    if Idle(s, t) && FrameOf(s, t).Stopping? && cid in FrameOf(s, t).rest
    then Some(Go(Stopping(FrameOf(s, t).rest - {cid})).(channel := Stops(cid, GoingAway))) else None
  }

  function MoveCloseReturns(s: System, t: ThreadId): (m: Option<Move>)
    ensures m.Some? ==> Allowed(s.hub, m.value.section)
  {
    if Idle(s, t) && FrameOf(s, t).Stopping? && FrameOf(s, t).rest == {} then Some(Go(CloseReturned)) else None
  }

  predicate InCall(s: System, t: ThreadId, stage: Stage) {
    t in s.threads && s.threads[t].call.Some? && s.threads[t].call.value.stage == stage
  }

  function Resume(s: System, t: ThreadId, call: Option<EndCall>): Move
    requires t in s.threads
  {
    Go(FrameOf(s, t)).(call := call)
  }

  function Closes(conn: Option<Conn>): Option<(Conn, Owner)> { if conn.Some? then Some((conn.value, Gone)) else None }

  function MoveEndSignals(s: System, t: ThreadId): (m: Option<Move>)
    ensures m.Some? ==> Allowed(s.hub, m.value.section)
  {
    if InCall(s, t, SignalDone) && Known(s, s.threads[t].call.value.sid) then
      var call := s.threads[t].call.value;
      Some(Resume(s, t, Some(call.(stage := TellConnector))).(section := ClosingDone(call.sid)))
    else None
  }

  /** The close message to the connector is queued or lost; nothing waits for it. */
  function MoveEndTells(s: System, t: ThreadId): (m: Option<Move>)
    ensures m.Some? ==> Allowed(s.hub, m.value.section)
  {
    if InCall(s, t, TellConnector) then Some(Resume(s, t, Some(s.threads[t].call.value.(stage := CloseViewer))))
        else None
  }

  function MoveEndClosesViewer(s: System, t: ThreadId): (m: Option<Move>)
    ensures m.Some? ==> Allowed(s.hub, m.value.section)
  {
    if InCall(s, t, CloseViewer) then
      var call := s.threads[t].call.value;
      Some(Resume(s, t, Some(call.(viewer := None, stage := CloseData))).(conn := Closes(call.viewer)))
    else None
  }

  function MoveEndClosesData(s: System, t: ThreadId): (m: Option<Move>)
    ensures m.Some? ==> Allowed(s.hub, m.value.section)
  {
    if InCall(s, t, CloseData) then Some(Resume(s, t, None).(conn := Closes(s.threads[t].call.value.data))) else None
  }

  /** What an action does now, or None when it cannot happen. */
  function MoveOf(s: System, a: Action): (m: Option<Move>)
    ensures m.Some? ==> Allowed(s.hub, m.value.section)
  {
    match a
    case Open(t, sid, v) => MoveOpen(s, t, sid, v)
    case SendOpen(t, queued) => MoveSendOpen(s, t, queued)
    case WaitReady(t) => MoveWaitReady(s, t)
    case WaitGivesUp(t, error) => MoveWaitGivesUp(s, t, error)
    case WaitDone(t) => MoveWaitDone(s, t)
    case Claim(t, connector, sid) => MoveClaim(s, t, connector, sid)
    case Deliver(t, conn) => MoveDeliver(s, t, conn)
    case CloseReady(t) => MoveCloseReady(s, t)
    case Release(t) => MoveRelease(s, t)
    case Abort(t) => MoveAbort(s, t)
    case Relay(t, conn, fromViewer, fromConnector) => MoveRelay(s, t, conn, fromViewer, fromConnector)
    case DropRefusedViewer(t) => MoveDropRefusedViewer(s, t)
    case RelayEnds(t, failed) => MoveRelayEnds(s, t, failed)
    case RelaySeesDone(t) => MoveRelaySeesDone(s, t)
    case RelayReturns(t) => MoveRelayReturns(s, t)
    case PumpEnds(t, code) => MovePumpEnds(s, t, code)
    case Drop(t) => MoveDrop(s, t)
    case ServeControl(t, connector, cid, conn) => MoveServeControl(s, t, connector, cid, conn)
    case StopReplaced(t) => MoveStopReplaced(s, t)
    case ChannelEnds(t) => MoveChannelEnds(s, t)
    case TearDown(t) => MoveTearDown(s, t)
    case EndOrphan(t, sid) => MoveEndOrphan(s, t, sid)
    case ServeReturns(t) => MoveServeReturns(s, t)
    case Close(t) => MoveClose(s, t)
    case CloseEndsSession(t, worker, sid) => MoveCloseEndsSession(s, t, worker, sid)
    case CloseJoins(t) => MoveCloseJoins(s, t)
    case CloseStopsChannel(t, cid) => MoveCloseStopsChannel(s, t, cid)
    case CloseReturns(t) => MoveCloseReturns(s, t)
    case EndSignals(t) => MoveEndSignals(s, t)
    case EndTells(t) => MoveEndTells(s, t)
    case EndClosesViewer(t) => MoveEndClosesViewer(s, t)
    case EndClosesData(t) => MoveEndClosesData(s, t)
  }

  /* ---------- Executing a move ---------- */

  /** Opening a channel creates it; stopping one records the first reason only. */
  function ChannelsAfter(channels: map<Id, Channel>, e: ChannelEffect): map<Id, Channel> {
    match e
    case NoEffect => channels
    case Opens(cid, connector) => channels[cid := Channel(connector, None)]
    case Stops(cid, code) =>
      if cid in channels && channels[cid].stop.None? then channels[cid := channels[cid].(stop := Some(code))]
          else channels
  }

  function SetOwner(conns: map<Conn, Owner>, conn: Option<Conn>, owner: Owner): map<Conn, Owner> {
    if conn.Some? then conns[conn.value := owner] else conns
  }

  /** The thread that runs end after its critical section. */
  function EnderOf(t: ThreadId, m: Move): ThreadId { if m.started.Worker? then m.started.worker else t }

  function ConnsAfter(s: System, t: ThreadId, m: Move): map<Conn, Owner>
    requires Allowed(s.hub, m.section)
  {
    var conns := if m.conn.Some? then s.conns[m.conn.value.0 := m.conn.value.1] else s.conns;
    if m.section.Ending? then
      var session := s.hub.table[m.section.sid];
      SetOwner(SetOwner(conns, session.data, ByThread(EnderOf(t, m), DataSlot)), session.viewerConn,
          ByThread(EnderOf(t, m), ViewerSlot))
    else conns
  }

  function ThreadsAfter(threads: map<ThreadId, Thread>, t: ThreadId, m: Move): map<ThreadId, Thread> {
    var moved := threads[t := Thread(m.frame, m.call)];
    match m.started
    case NoThreads => moved
    case Pumps(p, q, sid) => moved[p := Thread(Pump(sid), None)][q := Thread(Pump(sid), None)]
    case Worker(w, call) => moved[w := Thread(Finished, call)]
  }

  function Execute(s: System, t: ThreadId, m: Move): System
    requires Allowed(s.hub, m.section)
  {
    System(Perform(s.hub, m.section), ChannelsAfter(s.channels, m.channel), ConnsAfter(s, t, m),
        ThreadsAfter(s.threads, t, m))
  }

  /** The state after an action, or None when the action cannot happen now. */
  function Step(s: System, a: Action): Option<System> {
    var m := MoveOf(s, a);
    if m.Some? then Some(Execute(s, a.t, m.value)) else None
  }

  /** The state after a run, or None when one of its actions cannot happen. */
  function Run(s: System, actions: seq<Action>): Option<System> {
    if actions == [] then Some(s)
    else
      var before := Run(s, actions[..|actions| - 1]);
      if before.Some? then Step(before.value, actions[|actions| - 1]) else None
  }
}
