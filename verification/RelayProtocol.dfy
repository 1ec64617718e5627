/** What every step of the relay keeps about sessions, channels and the threads between their critical sections. */
module RelayProtocol {
  import opened Options
  import opened RelayModel
  import opened RelayTallies

  /* ---------- One session ---------- */

  /** A session claimed at most once and only by its own connector, with its connections set as its state says, and with
      neither of its channels closed twice. */
  ghost predicate SessionOk(s: Session) {
    && (match s.state
        case Pending => s.claimedBy == [] && s.data.None? && s.viewerConn.None? && s.readyCloses == 0
        case Claimed => s.claimedBy == [s.viewer.connector] && s.data.None? && s.viewerConn.None? && s.readyCloses == 0
        case Connected => s.claimedBy == [s.viewer.connector] && s.data.Some? && s.viewerConn.None?
        case Relaying => s.claimedBy == [s.viewer.connector] && s.data.Some? && s.viewerConn.Some?
        case Ended => s.claimedBy == [] || s.claimedBy == [s.viewer.connector])
    && (s.endCode.Some? <==> s.state == Ended)
    && s.readyCloses <= 1 && s.doneCloses <= 1 && (s.doneCloses == 1 ==> s.state == Ended)
  }

  function StateRank(s: SessionState): nat {
    match s case Pending => 0 case Claimed => 1 case Connected => 2 case Relaying => 3 case Ended => 4
  }

  /** What the future keeps of a session: states move forward only, and what was decided stays decided. */
  ghost predicate Evolves(a: Session, b: Session) {
    && a.viewer == b.viewer && StateRank(a.state) <= StateRank(b.state) && a.claimedBy <= b.claimedBy
    && (a.data.Some? ==> b.data == a.data) && (a.viewerConn.Some? ==> b.viewerConn == a.viewerConn)
    && (a.endCode.Some? ==> b.endCode == a.endCode)
    && a.readyCloses <= b.readyCloses && a.doneCloses <= b.doneCloses
  }

  ghost predicate SessionsOk(h: Hub) { forall sid :: sid in h.table ==> SessionOk(h.table[sid]) }

  ghost predicate HubEvolves(h: Hub, h': Hub) {
    && (h.closed ==>
          && h'.closed && h'.sessions <= h.sessions && h'.running <= h.running
          && h'.controls.Items <= h.controls.Items)
    && forall sid :: sid in h.table ==> sid in h'.table && Evolves(h.table[sid], h'.table[sid])
  }

  /** The channel closes are allowed only where the protocol places them. */
  ghost predicate Timely(h: Hub, c: Section) {
    && Allowed(h, c)
    && (c.ClosingReady? ==> h.table[c.sid].readyCloses == 0 && h.table[c.sid].state !in {Pending, Claimed})
    && (c.ClosingDone? ==> h.table[c.sid].doneCloses == 0 && h.table[c.sid].state == Ended)
  }

  lemma SectionKeepsSessions(h: Hub, c: Section)
    requires SessionsOk(h) && Timely(h, c)
    ensures SessionsOk(Perform(h, c))
  {
  }

  lemma SessionEvolves(h: Hub, c: Section, sid: Id)
    requires Timely(h, c) && sid in h.table && SessionOk(h.table[sid])
    ensures sid in Perform(h, c).table && Evolves(h.table[sid], Perform(h, c).table[sid])
  {
    hide Increment, Decrement, DecideRegister;
  }

  lemma ClosedHubShrinks(h: Hub, c: Section)
    requires Timely(h, c) && h.closed
    ensures var h' := Perform(h, c);
            && h'.closed && h'.sessions <= h.sessions && h'.running <= h.running
            && h'.controls.Items <= h.controls.Items
  {
    hide Increment, Decrement;
  }

  lemma SectionEvolves(h: Hub, c: Section)
    requires SessionsOk(h) && Timely(h, c)
    ensures HubEvolves(h, Perform(h, c))
  {
    hide Perform, Allowed, SessionOk, Evolves;
    forall sid | sid in h.table ensures sid in Perform(h, c).table && Evolves(h.table[sid], Perform(h, c).table[sid]) {
      SessionEvolves(h, c, sid);
    }
    if h.closed {
      ClosedHubShrinks(h, c);
    }
  }

  /* ---------- One thread ---------- */

  /** The session a frame is working for. */
  function FrameSession(f: Frame): Option<Id> {
    if f.OpenSend? || f.OpenWait? || f.Opened? || f.HoldsClaim? || f.SignalReady? || f.RelayRefused? || f.RelayLoop?
        || f.Pump?
    then Some(f.sid) else None
  }

  /** What a frame may rely on about its session. */
  predicate Fits(f: Frame, s: Session, closed: bool) {
    && (f.OpenSend? || f.OpenWait? ==> s.state != Relaying)
    && (f.Opened? ==> (s.state == Connected || s.state == Ended) && s.readyCloses == 1)
    && (f.HoldsClaim? ==> (s.state == Claimed || s.state == Ended) && s.readyCloses == 0)
    && (f.SignalReady? ==> s.state != Pending && s.state != Claimed && s.readyCloses == 0)
    && (f.RelayRefused? ==> s.state == Ended || closed)
    && (f.RelayLoop? || f.Pump? ==>
          (s.state == Relaying || s.state == Ended) && s.data.Some? && s.viewerConn.Some?)
  }

  ghost predicate SessionFrameOk(h: Hub, f: Frame) {
    && (FrameSession(f).Some? ==> FrameSession(f).value in h.table && Fits(f, h.table[FrameSession(f).value], h.closed))
    && (f.Orphans? ==> forall sid :: sid in f.rest ==> sid in h.table && h.table[sid].viewer.connector == f.connector)
  }

  /** Frames that serve or stop control channels. */
  predicate ChannelFrameOk(channels: map<Id, Channel>, f: Frame) {
    && (f.OpenSend? || f.StopPrevious? || f.Serving? || f.Teardown? ==> f.cid in channels)
    && (f.StopPrevious? && f.previous.Some? ==> f.previous.value in channels)
  }

  /** Every registered channel has been told to stop, except the given ones. */
  ghost predicate Stopped(h: Hub, channels: map<Id, Channel>, except: set<Id>) {
    forall k :: k in h.controls ==>
      h.controls[k] in channels && (h.controls[k] in except || channels[h.controls[k]].stop.Some?)
  }

  /** Frames of the Close call that closed the hub. */
  ghost predicate ShutdownFrameOk(h: Hub, channels: map<Id, Channel>, f: Frame) {
    && (f.Closing? ==>
          && h.closed && h.sessions <= f.toEnd <= h.table.Keys
          && Stopped(h, channels, f.stopping) && f.stopping <= channels.Keys)
    && (f.Stopping? ==> h.closed && h.sessions == {} && Stopped(h, channels, f.rest) && f.rest <= channels.Keys)
    && (f.CloseReturned? ==> h.closed && h.sessions == {} && Stopped(h, channels, {}))
  }

  ghost predicate CallOk(h: Hub, call: EndCall) {
    && call.sid in h.table && h.table[call.sid].state == Ended
    && h.table[call.sid].doneCloses == (if call.stage == SignalDone then 0 else 1)
    && (call.stage == CloseData ==> call.viewer.None?)
  }

  ghost predicate ThreadOk(h: Hub, channels: map<Id, Channel>, th: Thread) {
    && SessionFrameOk(h, th.frame) && ChannelFrameOk(channels, th.frame) && ShutdownFrameOk(h, channels, th.frame)
    && (th.call.Some? ==> CallOk(h, th.call.value))
  }

  /** What at most one thread may be at a time: the caller of Open for a session, the holder of its claim, the thread
      that tears it down, and the thread that closes the hub. */
  datatype Role = Opener(sid: Id) | Claimer(sid: Id) | Ender(sid: Id) | Closer

  predicate HasRole(th: Thread, r: Role) {
    match r
    case Opener(sid) => (th.frame.OpenSend? || th.frame.OpenWait? || th.frame.Opened?) && th.frame.sid == sid
    case Claimer(sid) => (th.frame.HoldsClaim? || th.frame.SignalReady?) && th.frame.sid == sid
    case Ender(sid) => th.call.Some? && th.call.value.sid == sid
    case Closer => th.frame.Closing? || th.frame.Stopping? || th.frame.CloseReturned?
  }

  ghost predicate ChannelsGrow(a: map<Id, Channel>, b: map<Id, Channel>) {
    forall c :: c in a ==> c in b && b[c].connector == a[c].connector && (a[c].stop.Some? ==> b[c].stop == a[c].stop)
  }

  lemma SessionFramesUndisturbed(h: Hub, c: Section, f: Frame, call: Option<EndCall>)
    requires SessionsOk(h) && Timely(h, c) && SessionFrameOk(h, f)
    requires c.StartingRelay? ==> !HasRole(Thread(f, call), Opener(c.sid))
    requires c.Delivering? || c.ClosingReady? ==> !HasRole(Thread(f, call), Claimer(c.sid))
    ensures SessionFrameOk(Perform(h, c), f)
  {
    hide Perform, Fits, SessionOk, HasRole, Allowed;
    if FrameSession(f).Some? {
      FitsUndisturbed(h, c, f, call, FrameSession(f).value);
    }
    if f.Orphans? {
      forall sid | sid in f.rest ensures sid in Perform(h, c).table
          && Perform(h, c).table[sid].viewer == h.table[sid].viewer {
        SessionEvolves(h, c, sid);
      }
    }
  }

  lemma FitsUndisturbed(h: Hub, c: Section, f: Frame, call: Option<EndCall>, sid: Id)
    requires FrameSession(f) == Some(sid) && Timely(h, c) && sid in h.table && SessionOk(h.table[sid])
        && Fits(f, h.table[sid], h.closed)
    requires c.StartingRelay? ==> !HasRole(Thread(f, call), Opener(c.sid))
    requires c.Delivering? || c.ClosingReady? ==> !HasRole(Thread(f, call), Claimer(c.sid))
    ensures sid in Perform(h, c).table && Fits(f, Perform(h, c).table[sid], Perform(h, c).closed)
  {
    hide Increment, Decrement;
    SessionEvolves(h, c, sid);
  }

  lemma ShutdownFramesUndisturbed(h: Hub, c: Section, channels: map<Id, Channel>, channels': map<Id, Channel>, f: Frame)
    requires SessionsOk(h) && Timely(h, c) && ChannelsGrow(channels, channels') && ShutdownFrameOk(h, channels, f)
    ensures ShutdownFrameOk(Perform(h, c), channels', f)
  {
    SectionEvolves(h, c);
    var h' := Perform(h, c);
    if h.closed {
      forall k | k in h'.controls ensures k in h.controls && h'.controls[k] == h.controls[k] {
        assert (k, h'.controls[k]) in h'.controls.Items;
      }
    }
  }

  lemma CallsUndisturbed(h: Hub, c: Section, call: EndCall)
    requires SessionsOk(h) && Timely(h, c) && CallOk(h, call)
    requires c.ClosingDone? ==> c.sid != call.sid
    ensures CallOk(Perform(h, c), call)
  {
    SectionEvolves(h, c);
  }

  /** No step of one thread disturbs another, because the roles are exclusive. */
  lemma OthersUndisturbed(h: Hub, c: Section, channels: map<Id, Channel>, channels': map<Id, Channel>, th: Thread)
    requires SessionsOk(h) && Timely(h, c) && ChannelsGrow(channels, channels')
    requires ThreadOk(h, channels, th)
    requires c.StartingRelay? ==> !HasRole(th, Opener(c.sid))
    requires c.Delivering? || c.ClosingReady? ==> !HasRole(th, Claimer(c.sid))
    requires c.ClosingDone? ==> !HasRole(th, Ender(c.sid))
    ensures ThreadOk(Perform(h, c), channels', th)
  {
    SessionFramesUndisturbed(h, c, th.frame, th.call);
    ShutdownFramesUndisturbed(h, c, channels, channels', th.frame);
    if th.call.Some? {
      CallsUndisturbed(h, c, th.call.value);
    }
  }

  /* ---------- All threads ---------- */

  ghost predicate ThreadsOk(s: System) {
    forall t :: t in s.threads ==> ThreadOk(s.hub, s.channels, s.threads[t])
  }

  ghost predicate UniqueRoles(s: System) {
    forall t, u, r :: t in s.threads && u in s.threads && HasRole(s.threads[t], r) && HasRole(s.threads[u], r)
        ==> t == u
  }

  ghost predicate ControlsOk(s: System) {
    forall k :: k in s.hub.controls ==> s.hub.controls[k] in s.channels && s.channels[s.hub.controls[k]].connector == k
  }

  ghost predicate ProtocolInv(s: System) {
    HubInv(s.hub) && SessionsOk(s.hub) && ThreadsOk(s) && UniqueRoles(s) && ControlsOk(s)
  }

  /* ---------- One move ---------- */

  /** Nobody can hold the role: its session is new, pending, not ended; the hub is open. */
  predicate Vacant(h: Hub, r: Role) {
    match r
    case Opener(sid) => sid !in h.table
    case Claimer(sid) => sid in h.table && h.table[sid].state == Pending
    case Ender(sid) => Live(h, sid)
    case Closer => !h.closed
  }

  /** What the thread takes over in the move, nobody else can hold. */
  ghost predicate TakesVacant(s: System, t: ThreadId, after: Thread) {
    forall r :: HasRole(after, r) ==> (t in s.threads && HasRole(s.threads[t], r)) || Vacant(s.hub, r)
  }

  /** A critical section that needs a role is run by the thread that holds it. */
  predicate HoldsRole(s: System, t: ThreadId, c: Section) {
    && (c.StartingRelay? ==> t in s.threads && HasRole(s.threads[t], Opener(c.sid)))
    && (c.Delivering? || c.ClosingReady? ==> t in s.threads && HasRole(s.threads[t], Claimer(c.sid)))
    && (c.ClosingDone? ==> t in s.threads && HasRole(s.threads[t], Ender(c.sid)))
  }

  ghost predicate StartedOk(s: System, m: Move)
    requires Allowed(s.hub, m.section)
  {
    var h, channels := Perform(s.hub, m.section), ChannelsAfter(s.channels, m.channel);
    match m.started
    case NoThreads => true
    case Pumps(p, q, sid) => p !in s.threads && q !in s.threads && ThreadOk(h, channels, Thread(Pump(sid), None))
    case Worker(w, call) =>
      w !in s.threads && m.call.None? && ThreadOk(h, channels, Thread(Finished, call))
          && (call.Some? ==> Live(s.hub, call.value.sid))
  }

  /** A move that leaves its own thread and the ones it starts in order, and respects the roles. */
  ghost predicate MoveOk(s: System, t: ThreadId, m: Move) {
    && Timely(s.hub, m.section) && HoldsRole(s, t, m.section)
    && ThreadOk(Perform(s.hub, m.section), ChannelsAfter(s.channels, m.channel), Thread(m.frame, m.call))
    && TakesVacant(s, t, Thread(m.frame, m.call)) && StartedOk(s, m) && (m.started.NoThreads? || t in s.threads)
    && (m.section.Registering? ==> m.channel == Opens(m.section.cid, m.section.connector))
    && (m.channel.Opens? ==> m.channel.cid !in s.channels)
  }

  ghost predicate Ready(s: System) { SessionsOk(s.hub) && LiveSessions(s.hub) && ThreadsOk(s) && ControlsOk(s) }
}
