/** Every control channel being served is registered, told to stop, or about to be told by the one that replaced it. */
module RelayChannels {
  import opened Options
  import opened RelayModel
  import opened RelayProtocol
  import opened RelayThreads
  import opened RelayInvariants

  /** The channel a thread serves until it is torn down. */
  function ChannelOf(f: Frame): Option<Id> {
    if f.StopPrevious? || f.Serving? || f.Teardown? then Some(f.cid) else None
  }

  /** The channel a thread has replaced and is about to stop. */
  function Replaces(f: Frame): Option<Id> { if f.StopPrevious? then f.previous else None }

  predicate Runs(f: Frame) { f.StopPrevious? || f.Serving? }

  predicate IsStopped(channels: map<Id, Channel>, cid: Id) { cid in channels && channels[cid].stop.Some? }

  /** Some thread is about to stop the channel. */
  ghost predicate ToBeStopped(threads: map<ThreadId, Thread>, cid: Id) {
    exists u :: u in threads && Replaces(threads[u].frame) == Some(cid)
  }

  ghost predicate AccountedFor(s: System, cid: Id) {
    cid in s.hub.controls.Values || IsStopped(s.channels, cid) || ToBeStopped(s.threads, cid)
  }

  ghost predicate OneServer(threads: map<ThreadId, Thread>) {
    forall t, u {:trigger ChannelOf(threads[t].frame), ChannelOf(threads[u].frame)} ::
      (t in threads && u in threads && ChannelOf(threads[t].frame).Some?
       && ChannelOf(threads[t].frame) == ChannelOf(threads[u].frame)) ==> t == u
  }

  /** One thread serves a channel, and none is served that nothing will end. */
  ghost predicate ChannelsOk(s: System) {
    && OneServer(s.threads)
    && forall t {:trigger Runs(s.threads[t].frame)} ::
         t in s.threads && Runs(s.threads[t].frame) ==> AccountedFor(s, s.threads[t].frame.cid)
  }

  /* ---------- One move ---------- */

  function FrameBefore(s: System, t: ThreadId): Frame { if t in s.threads then s.threads[t].frame else Finished }

  /** A thread gets a channel by registering or refusing nobody else's, keeps it while it serves, and stops the one it
      replaced before it serves; only its teardown unregisters it. */
  predicate ServesRight(s: System, t: ThreadId, m: Move) {
    var f := FrameBefore(s, t);
    && (ChannelOf(m.frame).Some? && ChannelOf(m.frame) != ChannelOf(f) ==>
          && t !in s.threads && m.section.Registering? && m.section.cid == m.frame.cid && m.frame.cid !in s.channels)
    && (Runs(m.frame) && !Runs(f) ==> m.section.Registering? && m.section.cid == m.frame.cid)
    && (Replaces(f).Some? && Replaces(m.frame) != Replaces(f) ==>
          m.channel.Stops? && m.channel.cid == Replaces(f).value)
    && (m.section.Registering? && m.section.connector in s.hub.controls ==>
          Replaces(m.frame) == Some(s.hub.controls[m.section.connector]))
    && (m.section.Unregistering? ==> f == Teardown(m.section.cid))
  }

  lemma StreamMovesServeRight(s: System, a: Action, m: Move)
    requires MoveOf(s, a) == Some(m) && OfStreams(a)
    ensures ServesRight(s, a.t, m)
  {
    hide Allowed, DecideOpen, DecideRegister, OrphansOf, Claimable, Relayable, Returned, RefusalCode, DoneError,
        CloseCodeFor, CallOf;
  }

  lemma ChannelMovesServeRight(s: System, a: Action, m: Move)
    requires MoveOf(s, a) == Some(m) && !OfStreams(a)
    ensures ServesRight(s, a.t, m)
  {
    hide Allowed, DecideOpen, OrphansOf, Claimable, Relayable, Returned, RefusalCode, DoneError, CloseCodeFor,
        CallOf;
  }

  lemma EveryMoveServesRight(s: System, a: Action, m: Move)
    requires MoveOf(s, a) == Some(m)
    ensures ServesRight(s, a.t, m)
  {
    hide MoveOf, ServesRight;
    if OfStreams(a) {
      StreamMovesServeRight(s, a, m);
    } else {
      ChannelMovesServeRight(s, a, m);
    }
  }

  /* ---------- Every step ---------- */

  lemma OneServerStays(s: System, t: ThreadId, m: Move)
    requires ThreadsOk(s) && OneServer(s.threads) && ServesRight(s, t, m) && MoveOk(s, t, m)
    ensures OneServer(ThreadsAfter(s.threads, t, m))
  {
    hide Perform, ChannelsAfter, HoldsRole, TakesVacant, Timely, ThreadOk, Allowed;
    var after := ThreadsAfter(s.threads, t, m);
    forall u, v | u in after && v in after && ChannelOf(after[u].frame).Some?
        && ChannelOf(after[u].frame) == ChannelOf(after[v].frame)
      ensures u == v
    {
      ServerBefore(s, t, m, u);
      ServerBefore(s, t, m, v);
      hide ThreadsAfter, ThreadsOk, ServesRight;
    }
  }

  /** Who serves a channel after a move served it before, or has just opened it. */
  lemma ServerBefore(s: System, t: ThreadId, m: Move, u: ThreadId)
    requires ThreadsOk(s) && ServesRight(s, t, m) && MoveOk(s, t, m)
    requires u in ThreadsAfter(s.threads, t, m) && ChannelOf(ThreadsAfter(s.threads, t, m)[u].frame).Some?
    ensures var cid := ChannelOf(ThreadsAfter(s.threads, t, m)[u].frame);
            || (u in s.threads && ChannelOf(s.threads[u].frame) == cid && cid.value in s.channels)
            || (u == t && cid.value !in s.channels)
  {
    hide Perform, ChannelsAfter, HoldsRole, TakesVacant, Timely, Allowed;
    if u in s.threads {
      assert ThreadOk(s.hub, s.channels, s.threads[u]);
    }
    if u !in Actors(t, m) {
      OnlyActorsMove(s, t, m, u);
    }
  }

  lemma RunsBefore(s: System, t: ThreadId, m: Move, u: ThreadId)
    requires ServesRight(s, t, m) && MoveOk(s, t, m)
    requires u in ThreadsAfter(s.threads, t, m) && Runs(ThreadsAfter(s.threads, t, m)[u].frame)
    ensures var cid := ThreadsAfter(s.threads, t, m)[u].frame.cid;
            || (u in s.threads && Runs(s.threads[u].frame) && s.threads[u].frame.cid == cid)
            || (m.section.Registering? && m.section.cid == cid)
  {
    hide Perform, ChannelsAfter, HoldsRole, TakesVacant, Timely, Allowed, ThreadOk;
    if u !in Actors(t, m) {
      OnlyActorsMove(s, t, m, u);
    }
  }

  /** A registered channel stays registered until it is replaced or torn down. */
  lemma RegisteredAfter(h: Hub, c: Section, cid: Id)
    requires Allowed(h, c)
    ensures c.Registering? && c.cid == cid ==> cid in Perform(h, c).controls.Values
    ensures cid in h.controls.Values ==>
              || cid in Perform(h, c).controls.Values
              || (c.Registering? && c.connector in h.controls && h.controls[c.connector] == cid)
              || (c.Unregistering? && c.cid == cid)
  {
    hide Increment, Decrement;
    var after := Perform(h, c).controls;
    if c.Registering? {
      assert after[c.connector] == c.cid;
    }
    if cid in h.controls.Values {
      var k :| k in h.controls && h.controls[k] == cid;
      assert k in after && after[k] == cid ==> cid in after.Values;
    }
  }

  /** Who is about to stop a channel still is, or stops it in this move. */
  lemma StopsWhatItReplaced(s: System, t: ThreadId, m: Move, cid: Id)
    requires ThreadsOk(s) && ServesRight(s, t, m) && MoveOk(s, t, m) && ToBeStopped(s.threads, cid)
    ensures ToBeStopped(ThreadsAfter(s.threads, t, m), cid) || IsStopped(ChannelsAfter(s.channels, m.channel), cid)
  {
    hide Perform, HoldsRole, TakesVacant, Timely, Allowed;
    var u :| u in s.threads && Replaces(s.threads[u].frame) == Some(cid);
    assert ThreadOk(s.hub, s.channels, s.threads[u]);
    hide ThreadOk, ThreadsOk;
    if u !in Actors(t, m) {
      OnlyActorsMove(s, t, m, u);
    }
    assert u in ThreadsAfter(s.threads, t, m);
  }

  lemma NotTornDown(s: System, t: ThreadId, u: ThreadId)
    requires OneServer(s.threads) && u in s.threads && Runs(s.threads[u].frame)
    ensures FrameBefore(s, t) != Teardown(s.threads[u].frame.cid)
  {
    assert t in s.threads ==> ChannelOf(s.threads[t].frame) != ChannelOf(s.threads[u].frame) || t == u;
  }

  lemma AccountedAfter(s: System, t: ThreadId, m: Move, u: ThreadId)
    requires ThreadsOk(s) && ChannelsOk(s) && ServesRight(s, t, m) && MoveOk(s, t, m)
    requires u in s.threads && Runs(s.threads[u].frame)
    ensures AccountedFor(Execute(s, t, m), s.threads[u].frame.cid)
  {
    hide Perform, HoldsRole, TakesVacant, Allowed, ThreadOk, ConnsAfter, ThreadsAfter, ToBeStopped, StartedOk;
    var cid := s.threads[u].frame.cid;
    assert AccountedFor(s, cid);
    RegisteredAfter(s.hub, m.section, cid);
    if ToBeStopped(s.threads, cid) {
      StopsWhatItReplaced(s, t, m, cid);
    }
    if m.section.Registering? && m.section.connector in s.hub.controls {
      ReplacerStops(s, t, m);
    }
    NotTornDown(s, t, u);
  }

  lemma ReplacerStops(s: System, t: ThreadId, m: Move)
    requires ServesRight(s, t, m) && MoveOk(s, t, m)
    requires m.section.Registering? && m.section.connector in s.hub.controls
    ensures ToBeStopped(ThreadsAfter(s.threads, t, m), s.hub.controls[m.section.connector])
  {
    hide Perform, HoldsRole, TakesVacant, Timely, Allowed, ThreadOk;
    assert Replaces(ThreadsAfter(s.threads, t, m)[t].frame) == Some(s.hub.controls[m.section.connector]);
  }

  /** After every step one thread serves a channel, and each one being served is registered, stopped, or about to be. */
  lemma StepKeepsChannels(s: System, a: Action, s': System)
    requires ProtocolInv(s) && ChannelsOk(s) && Step(s, a) == Some(s')
    ensures ChannelsOk(s')
  {
    hide MoveOf, MoveOk, ServesRight, Perform, ThreadsAfter, ChannelsAfter, ConnsAfter, OneServer, SessionsOk,
        ThreadsOk, UniqueRoles, ControlsOk, AccountedFor;
    var m := MoveOf(s, a).value;
    EveryMoveOk(s, a, m);
    EveryMoveServesRight(s, a, m);
    OneServerStays(s, a.t, m);
    forall u | u in s'.threads && Runs(s'.threads[u].frame) ensures AccountedFor(s', s'.threads[u].frame.cid) {
      RunsBefore(s, a.t, m, u);
      if m.section.Registering? && m.section.cid == s'.threads[u].frame.cid {
        NewChannelCounts(s, a.t, m);
      } else {
        AccountedAfter(s, a.t, m, u);
      }
    }
  }

  lemma NewChannelCounts(s: System, t: ThreadId, m: Move)
    requires Allowed(s.hub, m.section) && m.section.Registering?
    ensures AccountedFor(Execute(s, t, m), m.section.cid)
  {
    hide Perform;
    RegisteredAfter(s.hub, m.section, m.section.cid);
  }
}
