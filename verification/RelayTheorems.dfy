/** What holds in every state that any number of threads can reach, and along every run. */
module RelayTheorems {
  import opened Options
  import opened RelayModel
  import opened RelayTallies
  import opened RelayProtocol
  import opened RelayThreads
  import opened RelayInvariants
  import opened RelayDuties
  import opened RelayOwnership

  ghost predicate RelayInv(s: System) { ProtocolInv(s) && DutiesAttended(s) && ExactRunning(s) && Owned(s) }

  lemma InitInv()
    ensures RelayInv(INIT)
  {
    NewHubInv();
    assert Served(map[]) == {};
  }

  lemma StepKeepsInv(s: System, a: Action, s': System)
    requires RelayInv(s) && Step(s, a) == Some(s')
    ensures RelayInv(s')
  {
    StepKeepsProtocol(s, a, s');
    StepKeepsDuties(s, a, s');
    StepKeepsRunning(s, a, s');
    StepKeepsOwned(s, a, s');
  }

  lemma {:induction false} RunKeepsInv(s: System, actions: seq<Action>, s': System)
    requires RelayInv(s) && Run(s, actions) == Some(s')
    ensures RelayInv(s')
  {
    if actions != [] {
      var before := Run(s, actions[..|actions| - 1]).value;
      RunKeepsInv(s, actions[..|actions| - 1], before);
      StepKeepsInv(before, actions[|actions| - 1], s');
    }
  }

  ghost predicate Reachable(s: System) { exists actions :: Run(INIT, actions) == Some(s) }

  lemma ReachableInv(s: System)
    requires Reachable(s)
    ensures RelayInv(s)
  {
    var actions :| Run(INIT, actions) == Some(s);
    InitInv();
    RunKeepsInv(INIT, actions, s);
  }

  /* ---------- Counters and limits ---------- */

  function LiveOn(h: Hub, device: Id): set<Id>
  {
    set sid | sid in h.table && h.table[sid].state != Ended && h.table[sid].viewer.device == device
  }

  function LiveOnMachine(h: Hub, device: Id, machine: Id): set<Id> {
    set sid | sid in LiveOn(h, device) && h.table[sid].viewer.machine == machine
  }

  function LiveThrough(h: Hub, connector: Id): set<Id> {
    set sid | sid in h.table && h.table[sid].state != Ended && h.table[sid].viewer.connector == connector
  }

  lemma TallyOf<K(!new)>(counts: map<K, nat>, viewers: map<Id, Viewer>, key: Viewer -> K, k: K, live: set<Id>)
    requires Tallies(counts, KeysBy(viewers, key))
    requires forall sid :: sid in live <==> sid in viewers && key(viewers[sid]) == k
    ensures Count(counts, k) == |live| && (k in counts <==> live != {})
  {
    assert Members(KeysBy(viewers, key), k) == live;
  }

  lemma TalliesOfLive(h: Hub, device: Id, machine: Id, connector: Id)
    requires LiveSessions(h) && ExactCounters(h)
    ensures Count(h.byDevice, device) == |LiveOn(h, device)| && (device in h.byDevice <==> LiveOn(h, device) != {})
    ensures Count(h.byDeviceMachine, (device, machine)) == |LiveOnMachine(h, device, machine)|
    ensures (device, machine) in h.byDeviceMachine <==> LiveOnMachine(h, device, machine) != {}
    ensures Count(h.byConnector, connector) == |LiveThrough(h, connector)|
        && (connector in h.byConnector <==> LiveThrough(h, connector) != {})
  {
    hide Tallies, KeysBy, Count;
    TallyOf(h.byDevice, Viewers(h), DeviceOf, device, LiveOn(h, device));
    TallyOf(h.byDeviceMachine, Viewers(h), DeviceMachine, (device, machine), LiveOnMachine(h, device, machine));
    TallyOf(h.byConnector, Viewers(h), ConnectorOf, connector, LiveThrough(h, connector));
  }

  /** In every reachable state each counter is the number of live sessions it stands for, a key is there only while it
      counts something, and the limits hold. */
  lemma CountersAreExact(s: System, device: Id, machine: Id, connector: Id)
    requires Reachable(s)
    ensures Count(s.hub.byDevice, device) == |LiveOn(s.hub, device)| <= MAX_STREAMS_PER_DEVICE
    ensures Count(s.hub.byDeviceMachine, (device, machine))
        == |LiveOnMachine(s.hub, device, machine)| <= MAX_STREAMS_PER_DEVICE_MACHINE
    ensures Count(s.hub.byConnector, connector) == |LiveThrough(s.hub, connector)| <= MAX_SESSIONS_PER_CONNECTOR
    ensures device in s.hub.byDevice <==> LiveOn(s.hub, device) != {}
    ensures (device, machine) in s.hub.byDeviceMachine <==> LiveOnMachine(s.hub, device, machine) != {}
    ensures connector in s.hub.byConnector <==> LiveThrough(s.hub, connector) != {}
    ensures |s.hub.sessions| <= MAX_SESSIONS && |s.hub.controls| <= MAX_CONTROL_CHANNELS
  {
    ReachableInv(s);
    hide SessionsOk, ThreadsOk, UniqueRoles, ControlsOk, DutiesAttended, ExactRunning, Owned, Reachable, LiveOn,
        LiveOnMachine, LiveThrough;
    TalliesOfLive(s.hub, device, machine, connector);
    hide Tallies, LiveSessions;
  }

  /** A session is in the hub's map exactly while it is admitted and has not ended. */
  lemma SessionsAreTheLiveOnes(s: System, sid: Id)
    requires Reachable(s)
    ensures sid in s.hub.sessions <==> Live(s.hub, sid)
  {
    ReachableInv(s);
  }

  /* ---------- One session ---------- */

  /** At most one claim succeeds, and only by the session's own connector; ready and done are each closed at most once.
      */
  lemma ClaimedOnceByItsConnector(s: System, sid: Id)
    requires Reachable(s) && sid in s.hub.table
    ensures var session := s.hub.table[sid];
            && |session.claimedBy| <= 1 && (forall c :: c in session.claimedBy ==> c == session.viewer.connector)
            && session.readyCloses <= 1 && session.doneCloses <= 1
                && (session.doneCloses == 1 ==> session.state == Ended)
  {
    ReachableInv(s);
    hide HubInv, ThreadsOk, UniqueRoles, ControlsOk, DutiesAttended, ExactRunning, Owned, Reachable;
  }

  lemma EvolvesTransitive(a: Session, b: Session, c: Session)
    requires Evolves(a, b) && Evolves(b, c)
    ensures Evolves(a, c)
  {
  }

  lemma HubEvolvesTransitive(a: Hub, b: Hub, c: Hub)
    requires HubEvolves(a, b) && HubEvolves(b, c)
    ensures HubEvolves(a, c)
  {
    forall sid | sid in a.table ensures sid in c.table && Evolves(a.table[sid], c.table[sid]) {
      EvolvesTransitive(a.table[sid], b.table[sid], c.table[sid]);
    }
  }

  lemma StepEvolves(s: System, a: Action, s': System)
    requires RelayInv(s) && Step(s, a) == Some(s')
    ensures HubEvolves(s.hub, s'.hub)
  {
    EveryMoveOk(s, a, MoveOf(s, a).value);
    SectionEvolves(s.hub, MoveOf(s, a).value.section);
  }

  /** Along every run session states move forward only, what was decided about a session stays decided, and a closed hub
      takes in nothing. */
  lemma {:induction false} RunEvolves(s: System, actions: seq<Action>, s': System)
    requires RelayInv(s) && Run(s, actions) == Some(s')
    ensures HubEvolves(s.hub, s'.hub)
  {
    if actions != [] {
      var before := Run(s, actions[..|actions| - 1]).value;
      RunKeepsInv(s, actions[..|actions| - 1], before);
      RunEvolves(s, actions[..|actions| - 1], before);
      StepEvolves(before, actions[|actions| - 1], s');
      HubEvolvesTransitive(s.hub, before.hub, s'.hub);
    }
  }

  /* ---------- Shutdown ---------- */

  /** The hub after its Close: closed, without sessions, and every channel still registered told to stop. */
  ghost predicate Settled(s: System) { s.hub.closed && s.hub.sessions == {} && Stopped(s.hub, s.channels, {}) }

  lemma StepKeepsSettled(s: System, a: Action, s': System)
    requires RelayInv(s) && Settled(s) && Step(s, a) == Some(s')
    ensures Settled(s')
  {
    var m := MoveOf(s, a).value;
    EveryMoveOk(s, a, m);
    ChannelsOnlyGrow(s, m);
    assert ShutdownFrameOk(s.hub, s.channels, CloseReturned);
    ShutdownFramesUndisturbed(s.hub, m.section, s.channels, s'.channels, CloseReturned);
    hide MoveOf, MoveOk, Perform, Stopped;
  }

  lemma {:induction false} RunKeepsSettled(s: System, actions: seq<Action>, s': System)
    requires RelayInv(s) && Settled(s) && Run(s, actions) == Some(s')
    ensures Settled(s')
  {
    if actions != [] {
      var before := Run(s, actions[..|actions| - 1]).value;
      RunKeepsInv(s, actions[..|actions| - 1], before);
      RunKeepsSettled(s, actions[..|actions| - 1], before);
      StepKeepsSettled(before, actions[|actions| - 1], s');
    }
  }

  lemma NoLiveNoCounters(h: Hub)
    requires LiveSessions(h) && ExactCounters(h) && h.sessions == {}
    ensures h.byDevice == map[] && h.byDeviceMachine == map[] && h.byConnector == map[]
  {
    forall device: Id, machine: Id, connector: Id
      ensures device !in h.byDevice && (device, machine) !in h.byDeviceMachine && connector !in h.byConnector
    {
      TalliesOfLive(h, device, machine, connector);
    }
  }

  /** Once the Close call that closed the hub returns, the session map and all counters are empty and stay empty in
      every later state, every channel still registered has been told to stop, and the wait group only falls. */
  lemma ClosedForGood(s: System, closer: ThreadId, actions: seq<Action>, s': System)
    requires Reachable(s) && closer in s.threads && s.threads[closer].frame.CloseReturned?
    requires Run(s, actions) == Some(s')
    ensures s'.hub.closed && s'.hub.sessions == {} && (forall sid :: !Live(s'.hub, sid))
    ensures s'.hub.byDevice == map[] && s'.hub.byDeviceMachine == map[] && s'.hub.byConnector == map[]
    ensures forall k ::
          k in s'.hub.controls ==> s'.hub.controls[k] in s'.channels && s'.channels[s'.hub.controls[k]].stop.Some?
    ensures s'.hub.running <= s.hub.running
  {
    ReachableInv(s);
    assert ThreadOk(s.hub, s.channels, s.threads[closer]);
    RunKeepsSettled(s, actions, s');
    RunKeepsInv(s, actions, s');
    RunEvolves(s, actions, s');
    NoLiveNoCounters(s'.hub);
  }

  /** When Wait on a closed hub finds nothing running, nothing is being served and nothing will be. */
  lemma WaitIsStable(s: System, actions: seq<Action>, s': System)
    requires Reachable(s) && s.hub.closed && s.hub.running == 0 && Run(s, actions) == Some(s')
    ensures s'.hub.running == 0 && forall t :: t in s'.threads ==> !Counted(s'.threads[t].frame)
  {
    ReachableInv(s);
    RunKeepsInv(s, actions, s');
    RunEvolves(s, actions, s');
    forall t | t in s'.threads && Counted(s'.threads[t].frame) ensures t in Served(s'.threads) {
    }
    assert Served(s'.threads) == {};
  }

  /** The wait group is never lowered below zero, which would panic. */
  lemma WaitGroupNeverNegative(s: System, a: Action)
    requires Reachable(s) && Step(s, a).Some? && MoveOf(s, a).value.section.Untracking?
    ensures s.hub.running > 0
  {
    ReachableInv(s);
    EveryMoveCounts(s, a, MoveOf(s, a).value);
    hide MoveOf, ProtocolInv, DutiesAttended, Owned, Step, Reachable;
    assert a.t in Served(s.threads);
  }

  /* ---------- Control channels ---------- */

  /** Every live session's connector has a control channel, or the teardown that removed it still has the session on its
      list, and ends it as offline the next time it is that session's turn. */
  lemma NoSessionIsStranded(s: System, sid: Id)
    requires Reachable(s) && Live(s.hub, sid) && s.hub.table[sid].viewer.connector !in s.hub.controls
    ensures exists t :: t in s.threads && s.threads[t].frame.Orphans? && sid in s.threads[t].frame.rest
  {
    ReachableInv(s);
    assert Needs(s.hub, EndsOrphan(sid));
    hide ProtocolInv, Owned, ExactRunning, Needs;
    assert Attended(s, EndsOrphan(sid));
  }

  lemma OrphanEndsOffline(s: System, t: ThreadId, sid: Id, s': System)
    requires Live(s.hub, sid) && Step(s, EndOrphan(t, sid)) == Some(s')
    ensures sid in s'.hub.table && s'.hub.table[sid].state == Ended
        && s'.hub.table[sid].endCode == Some(ConnectorOffline)
  {
    hide EndSession, ConnsAfter, ThreadsAfter, ChannelsAfter, CallOf;
    assert s'.hub == EndSession(s.hub, sid, ConnectorOffline);
    EndedSession(s.hub, sid, ConnectorOffline);
  }

  /** A registered channel has a thread that will unregister it once it ends. */
  lemma RegisteredIsServed(s: System, connector: Id)
    requires Reachable(s) && connector in s.hub.controls
    ensures exists t :: t in s.threads && HasDuty(s.threads[t], Serves(s.hub.controls[connector]))
  {
    ReachableInv(s);
    assert Needs(s.hub, Serves(s.hub.controls[connector]));
    hide ProtocolInv, Owned, ExactRunning, Needs, HasDuty;
    assert Attended(s, Serves(s.hub.controls[connector]));
  }

  /** A channel that exists and is not registered: it has been replaced or torn down. */
  predicate Retired(s: System, cid: Id) { cid in s.channels && cid !in s.hub.controls.Values }

  lemma StepKeepsRetired(s: System, a: Action, s': System, cid: Id)
    requires RelayInv(s) && Step(s, a) == Some(s') && Retired(s, cid)
    ensures Retired(s', cid)
  {
    var m := MoveOf(s, a).value;
    EveryMoveOk(s, a, m);
    ChannelsOnlyGrow(s, m);
    hide MoveOf, Perform, ChannelsAfter, ThreadOk, TakesVacant, StartedOk, HoldsRole, Timely, RelayInv;
    forall k | k in s'.hub.controls ensures s'.hub.controls[k] != cid {
      ControlsAfter(s.hub, m.section, k);
    }
  }

  lemma {:induction false} RunKeepsRetired(s: System, actions: seq<Action>, s': System, cid: Id)
    requires RelayInv(s) && Run(s, actions) == Some(s') && Retired(s, cid)
    ensures Retired(s', cid)
  {
    if actions != [] {
      var before := Run(s, actions[..|actions| - 1]).value;
      RunKeepsInv(s, actions[..|actions| - 1], before);
      RunKeepsRetired(s, actions[..|actions| - 1], before, cid);
      StepKeepsRetired(before, actions[|actions| - 1], s', cid);
    }
  }

  lemma ReplacingEndsNothing(s: System, u: ThreadId, connector: Id, cid: Id, conn: Conn, s': System)
    requires RelayInv(s) && Step(s, ServeControl(u, connector, cid, conn)) == Some(s')
    requires connector in s.hub.controls && !s.hub.closed
    ensures s'.hub.sessions == s.hub.sessions && s'.hub.table == s.hub.table && Retired(s', s.hub.controls[connector])
  {
    var m := MoveOf(s, ServeControl(u, connector, cid, conn)).value;
    assert m.section == Registering(connector, cid) && m.channel == Opens(cid, connector);
    hide MoveOf, HubInv, SessionsOk, ThreadsOk, UniqueRoles, DutiesAttended, ExactRunning, Owned, ConnsAfter,
        ThreadsAfter;
  }

  lemma RetiredTeardown(s: System, t: ThreadId, s': System)
    requires Step(s, TearDown(t)) == Some(s') && Retired(s, FrameOf(s, t).cid)
    ensures s'.hub == s.hub && s'.threads[t].frame.Orphans? && s'.threads[t].frame.rest == {}
  {
    hide ConnsAfter;
  }

  /** Replacing a control channel ends no session, and however late the replaced channel is torn down, its teardown
      unregisters nothing and leaves no session to end. */
  lemma LateTeardownRemovesNothing(s: System, u: ThreadId, connector: Id, cid: Id, conn: Conn, s1: System,
                                   actions: seq<Action>, s2: System, t: ThreadId, s3: System)
    requires Reachable(s) && connector in s.hub.controls && !s.hub.closed
    requires Step(s, ServeControl(u, connector, cid, conn)) == Some(s1) && Run(s1, actions) == Some(s2)
    requires t in s2.threads && s2.threads[t].frame == Teardown(s.hub.controls[connector])
        && Step(s2, TearDown(t)) == Some(s3)
    ensures s1.hub.sessions == s.hub.sessions && s1.hub.table == s.hub.table
    ensures s3.hub == s2.hub && s3.threads[t].frame.Orphans? && s3.threads[t].frame.rest == {}
  {
    ReachableInv(s);
    StepKeepsInv(s, ServeControl(u, connector, cid, conn), s1);
    hide RelayInv, Reachable, Step, Run, Retired;
    ReplacingEndsNothing(s, u, connector, cid, conn, s1);
    RunKeepsRetired(s1, actions, s2, s.hub.controls[connector]);
    RetiredTeardown(s2, t, s3);
  }

  /** No wakeup is lost: when a session's data channel has been delivered or the session has ended, the channel its
      waiting viewer or its relay watches is closed, or some thread is about to close it. */
  lemma NoLostWakeup(s: System, sid: Id)
    requires Reachable(s) && sid in s.hub.table
    ensures s.hub.table[sid].state == Connected || s.hub.table[sid].state == Relaying
            ==> s.hub.table[sid].readyCloses == 1 || Attended(s, WakesViewer(sid))
    ensures s.hub.table[sid].state == Ended ==> s.hub.table[sid].doneCloses == 1 || Attended(s, AnnouncesEnd(sid))
  {
    ReachableInv(s);
    assert SessionOk(s.hub.table[sid]);
    assert Needs(s.hub, WakesViewer(sid)) ==> Attended(s, WakesViewer(sid));
    assert Needs(s.hub, AnnouncesEnd(sid)) ==> Attended(s, AnnouncesEnd(sid));
    hide RelayInv, Attended, Reachable;
  }

  /* ---------- Connections ---------- */

  /** In every reachable state a connection that was handed over has exactly one holder, or it is closed. */
  lemma OneHolderOrClosed(s: System, c: Conn)
    requires Reachable(s) && c in s.conns
    ensures forall o, p :: Holding(s, o) == Some(c) && Holding(s, p) == Some(c) ==> o == p
    ensures s.conns[c] == Gone <==> forall o :: Holding(s, o) != Some(c)
  {
    ReachableInv(s);
    hide ProtocolInv, DutiesAttended, ExactRunning, Holding, Reachable;
    if s.conns[c] != Gone {
      assert Holding(s, s.conns[c]) == Some(c);
    }
  }

  lemma NobodyLosesAConnection(s: System, a: Action, s': System, o: Owner, c: Conn)
    requires Reachable(s) && Step(s, a) == Some(s') && Holding(s, o) == Some(c)
    ensures c in s'.conns && s'.conns[c] != Gone ==> Holding(s', s'.conns[c]) == Some(c)
    ensures (forall p :: Holding(s', p) != Some(c)) ==> o.ByThread? && o.thread == a.t
  {
    ReachableInv(s);
    StepKeepsInv(s, a, s');
    ClosedByItsHolder(s, a, s', c);
    hide ProtocolInv, DutiesAttended, ExactRunning, Holding, Reachable, Step;
  }
}
