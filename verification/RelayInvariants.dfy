/** Bookkeeping and protocol are kept by every step, so they hold in every reachable state. */
module RelayInvariants {
  import opened Options
  import opened RelayModel
  import opened RelayTallies
  import opened RelayProtocol
  import opened RelayThreads

  /** The threads a move leaves changed: its own and the ones it starts. */
  function Actors(t: ThreadId, m: Move): set<ThreadId> {
    match m.started
    case NoThreads => {t}
    case Pumps(p, q, _) => {t, p, q}
    case Worker(w, _) => {t, w}
  }

  lemma OnlyActorsMove(s: System, t: ThreadId, m: Move, u: ThreadId)
    requires u !in Actors(t, m)
    ensures var after := ThreadsAfter(s.threads, t, m);
            (u in after <==> u in s.threads) && (u in s.threads ==> after[u] == s.threads[u])
  {
  }

  lemma ChannelsOnlyGrow(s: System, m: Move)
    requires m.channel.Opens? ==> m.channel.cid !in s.channels
    ensures ChannelsGrow(s.channels, ChannelsAfter(s.channels, m.channel))
  {
  }

  lemma OtherOk(s: System, t: ThreadId, m: Move, u: ThreadId)
    requires Ready(s) && UniqueRoles(s) && MoveOk(s, t, m) && u in s.threads && u != t
    ensures ThreadOk(Perform(s.hub, m.section), ChannelsAfter(s.channels, m.channel), s.threads[u])
  {
    ChannelsOnlyGrow(s, m);
    assert ThreadOk(s.hub, s.channels, s.threads[u]);
    hide ThreadOk, HasRole, Perform, ChannelsAfter;
    OthersUndisturbed(s.hub, m.section, s.channels, ChannelsAfter(s.channels, m.channel), s.threads[u]);
  }

  lemma ThreadsStayOk(s: System, t: ThreadId, m: Move)
    requires Ready(s) && UniqueRoles(s) && MoveOk(s, t, m)
    ensures ThreadsOk(Execute(s, t, m))
  {
    var s' := Execute(s, t, m);
    forall u | u in s'.threads ensures ThreadOk(s'.hub, s'.channels, s'.threads[u]) {
      hide ThreadOk, Perform, ChannelsAfter, HasRole, Timely, SessionsOk;
      if u !in Actors(t, m) {
        OnlyActorsMove(s, t, m, u);
        OtherOk(s, t, m, u);
      }
    }
  }

  /** A role that somebody could hold before the move was held before by whoever holds it now. */
  lemma HeldBefore(s: System, t: ThreadId, m: Move, u: ThreadId, r: Role)
    requires MoveOk(s, t, m) && !Vacant(s.hub, r)
    requires u in ThreadsAfter(s.threads, t, m) && HasRole(ThreadsAfter(s.threads, t, m)[u], r)
    ensures u in s.threads && HasRole(s.threads[u], r)
  {
    hide ThreadOk, Perform, ChannelsAfter, Timely;
    if u !in Actors(t, m) {
      OnlyActorsMove(s, t, m, u);
    }
  }

  lemma VacantRolesAreFree(s: System, u: ThreadId, r: Role)
    requires ThreadsOk(s) && u in s.threads && Vacant(s.hub, r)
    ensures !HasRole(s.threads[u], r)
  {
    assert ThreadOk(s.hub, s.channels, s.threads[u]);
  }

  /** A role that nobody could hold before the move has one holder after it. */
  lemma NewHolder(s: System, t: ThreadId, m: Move, u: ThreadId, r: Role)
    requires ThreadsOk(s) && MoveOk(s, t, m) && Vacant(s.hub, r)
    requires u in ThreadsAfter(s.threads, t, m) && HasRole(ThreadsAfter(s.threads, t, m)[u], r)
    ensures u == if m.started.Worker? && r.Ender? then m.started.worker else t
  {
    if u !in Actors(t, m) {
      OnlyActorsMove(s, t, m, u);
      VacantRolesAreFree(s, u, r);
    }
  }

  lemma RolesStayUnique(s: System, t: ThreadId, m: Move)
    requires Ready(s) && UniqueRoles(s) && MoveOk(s, t, m)
    ensures UniqueRoles(Execute(s, t, m))
  {
    hide HasRole, MoveOk, Vacant, ThreadsAfter, Perform, ChannelsAfter, ConnsAfter, ThreadOk;
    var after := ThreadsAfter(s.threads, t, m);
    forall u, v, r | u in after && v in after && HasRole(after[u], r) && HasRole(after[v], r) ensures u == v {
      if Vacant(s.hub, r) {
        NewHolder(s, t, m, u, r);
        NewHolder(s, t, m, v, r);
      } else {
        HeldBefore(s, t, m, u, r);
        HeldBefore(s, t, m, v, r);
      }
    }
  }

  lemma ControlsAfter(h: Hub, c: Section, k: Id)
    requires Allowed(h, c) && k in Perform(h, c).controls
    ensures (c.Registering? && k == c.connector && Perform(h, c).controls[k] == c.cid)
            || (k in h.controls && Perform(h, c).controls[k] == h.controls[k])
  {
  }

  lemma ControlsStayOk(s: System, t: ThreadId, m: Move)
    requires ControlsOk(s) && MoveOk(s, t, m)
    ensures ControlsOk(Execute(s, t, m))
  {
    ChannelsOnlyGrow(s, m);
    hide ThreadOk, Perform, ConnsAfter, ThreadsAfter, TakesVacant, StartedOk, Timely, HoldsRole;
    var s' := Execute(s, t, m);
    forall k | k in s'.hub.controls
      ensures s'.hub.controls[k] in s'.channels && s'.channels[s'.hub.controls[k]].connector == k
    {
      ControlsAfter(s.hub, m.section, k);
    }
  }

  lemma MoveKeepsProtocol(s: System, t: ThreadId, m: Move)
    requires ProtocolInv(s) && MoveOk(s, t, m)
    ensures ProtocolInv(Execute(s, t, m))
  {
    SectionKeepsHub(s.hub, m.section);
    SectionKeepsSessions(s.hub, m.section);
    ThreadsStayOk(s, t, m);
    RolesStayUnique(s, t, m);
    ControlsStayOk(s, t, m);
    hide HubInv, SessionsOk, ThreadsOk, UniqueRoles, ControlsOk, MoveOk, Perform;
  }

  /** Bookkeeping and protocol hold after every step of every thread. */
  lemma StepKeepsProtocol(s: System, a: Action, s': System)
    requires ProtocolInv(s) && Step(s, a) == Some(s')
    ensures ProtocolInv(s')
  {
    EveryMoveOk(s, a, MoveOf(s, a).value);
    MoveKeepsProtocol(s, a.t, MoveOf(s, a).value);
  }
}
