/** The hub as the program keeps it: objects whose fields change in place under the mutex. Each method is one critical
    section, proved against the hub updates that the protocol is proved about. */
module RelayHub {
  import opened Options
  import opened RelayModel

  /** A connector's control channel. */
  class Control {
    const cid: Id
    const connector: Id
    var stopCode: Option<CloseCode>

    constructor (cid: Id, connector: Id)
      ensures this.cid == cid && this.connector == connector && stopCode == None
    {
      this.cid, this.connector, stopCode := cid, connector, None;
    }

    function Value(): Channel
      reads this
    {
      Channel(connector, stopCode)
    }

    /** Ends the channel; the first call wins. */
    method Stop(code: CloseCode)
      modifies this
      ensures ChannelsAfter(map[cid := old(Value())], Stops(cid, code)) == map[cid := Value()]
    {
      if stopCode.None? {
        stopCode := Some(code);
      }
    }
  }

  class StreamSession {
    const id: Id
    const viewer: Viewer
    var state: SessionState
    var data: Option<Conn>
    var viewerConn: Option<Conn>
    var endCode: Option<CloseCode>
    var readyCloses: nat
    var doneCloses: nat
    ghost var claimedBy: seq<Id>

    constructor (id: Id, viewer: Viewer)
      ensures this.id == id && Value() == NewSession(viewer)
    {
      this.id, this.viewer := id, viewer;
      state, data, viewerConn, endCode := Pending, None, None, None;
      readyCloses, doneCloses, claimedBy := 0, 0, [];
    }

    ghost function Value(): Session
      reads this
    {
      Session(viewer, state, data, viewerConn, endCode, claimedBy, readyCloses, doneCloses)
    }
  }

  class CameraHub {
    var closed: bool
    var controls: map<Id, Control>
    var sessions: map<Id, StreamSession>
    var byDevice: map<Id, nat>
    var byDeviceMachine: map<(Id, Id), nat>
    var byConnector: map<Id, nat>
    var running: nat
    /** Every session ever admitted. */
    ghost var admitted: map<Id, StreamSession>

    ghost predicate Valid()
      reads this, admitted.Values
    {
      && (forall sid :: sid in sessions ==> sid in admitted && sessions[sid] == admitted[sid])
      && (forall sid :: sid in admitted ==> admitted[sid].id == sid)
    }

    ghost function Table(): map<Id, Session>
      reads this`admitted, admitted.Values
    {
      map sid | sid in admitted :: admitted[sid].Value()
    }

    ghost function Channels(): map<Id, Id>
      reads this`controls
    {
      map k | k in controls :: controls[k].cid
    }

    ghost function View(): Hub
      reads this, admitted.Values
    {
      Hub(closed, Channels(), sessions.Keys, Table(), byDevice, byDeviceMachine, byConnector, running)
    }

    /** A section that changes one session's fields changes its entry of the table only. */
    twostate lemma OneSessionChanged(s: StreamSession)
      requires old(Valid()) && s.id in admitted && admitted[s.id] == s && admitted == old(admitted)
      requires forall sid :: sid in admitted && sid != s.id ==> unchanged(admitted[sid])
      ensures Table() == old(Table())[s.id := s.Value()]
    {
    }

    twostate lemma OneSessionAdded(s: StreamSession)
      requires old(Valid()) && s.id !in old(admitted) && admitted == old(admitted)[s.id := s]
      requires forall sid :: sid in old(admitted) ==> unchanged(admitted[sid])
      ensures Table() == old(Table())[s.id := s.Value()]
    {
    }

    twostate lemma ChannelsKept()
      requires controls == old(controls)
      ensures Channels() == old(Channels())
    {
    }

    constructor ()
      ensures Valid() && View() == NEW_HUB && fresh(admitted.Values)
    {
      closed, controls, sessions, running := false, map[], map[], 0;
      byDevice, byDeviceMachine, byConnector, admitted := map[], map[], map[], map[];
    }

    /** The reservation at the start of Open; newID is an id that no session had before. */
    method Open(newID: Id, v: Viewer) returns (s: StreamSession?, decision: OpenDecision)
      requires Valid() && newID !in admitted
      modifies this
      ensures Valid() && decision == DecideOpen(old(View()), v)
      ensures decision.Reserved? <==>
                && !old(closed) && v.connector in old(controls)
                && Count(old(byDeviceMachine), (v.device, v.machine)) < 4 && Count(old(byDevice), v.device) < 20
                && Count(old(byConnector), v.connector) < 32 && |old(sessions)| < 1024
      ensures decision.Reserved? ==> decision.channel == old(controls)[v.connector].cid
      ensures decision.Refused? ==> s == null && View() == old(View())
      ensures decision.Reserved? ==> s != null && fresh(s) && View() == Reserve(old(View()), newID, v)
      ensures decision.Reserved? ==> s.id == newID && admitted == old(admitted)[newID := s]
    {
      hide Count;
      s := null;
      if closed {
        return s, Refused(ShuttingDown);
      }
      if v.connector !in controls {
        return s, Refused(CameraOffline);
      }
      if Count(byDeviceMachine, DeviceMachine(v)) >= MAX_STREAMS_PER_DEVICE_MACHINE {
        return s, Refused(StreamLimit(ThisCamera));
      }
      if Count(byDevice, v.device) >= MAX_STREAMS_PER_DEVICE {
        return s, Refused(StreamLimit(ThisDevice));
      }
      assert View().sessions == sessions.Keys && |sessions| == |sessions.Keys|;
      if Count(byConnector, v.connector) >= MAX_SESSIONS_PER_CONNECTOR || |sessions| >= MAX_SESSIONS {
        return s, Refused(StreamLimit(LocalService));
      }
      s := new StreamSession(newID, v);
      Admit(s);
      decision := Reserved(controls[v.connector].cid);
    }

    method Admit(s: StreamSession)
      requires Valid() && s.id !in admitted && s.Value() == NewSession(s.viewer)
      modifies this
      ensures Valid() && View() == Reserve(old(View()), s.id, s.viewer) && controls == old(controls)
      ensures admitted == old(admitted)[s.id := s]
    {
      hide Table, Channels, Increment;
      CountIn(s.viewer);
      sessions := sessions[s.id := s];
      admitted := admitted[s.id := s];
      OneSessionAdded(s);
      ChannelsKept();
      assert sessions.Keys == old(sessions).Keys + {s.id};
    }

    method CountIn(v: Viewer)
      modifies `byDevice, `byDeviceMachine, `byConnector
      ensures byDeviceMachine == Increment(old(byDeviceMachine), DeviceMachine(v))
      ensures byDevice == Increment(old(byDevice), v.device) && byConnector == Increment(old(byConnector), v.connector)
    {
      byDeviceMachine := byDeviceMachine[DeviceMachine(v) := Count(byDeviceMachine, DeviceMachine(v)) + 1];
      byDevice := byDevice[v.device := Count(byDevice, v.device) + 1];
      byConnector := byConnector[v.connector := Count(byConnector, v.connector) + 1];
    }

    method CountOut(v: Viewer)
      modifies `byDevice, `byDeviceMachine, `byConnector
      ensures byDeviceMachine == Decrement(old(byDeviceMachine), DeviceMachine(v))
      ensures byDevice == Decrement(old(byDevice), v.device) && byConnector == Decrement(old(byConnector), v.connector)
    {
      byDeviceMachine := Lowered(byDeviceMachine, DeviceMachine(v));
      LoweredIsDecrement(old(byDeviceMachine), DeviceMachine(v), byDeviceMachine);
      byDevice := Lowered(byDevice, v.device);
      LoweredIsDecrement(old(byDevice), v.device, byDevice);
      byConnector := Lowered(byConnector, v.connector);
      LoweredIsDecrement(old(byConnector), v.connector, byConnector);
    }

    /** Lowering one key's count and keeping all others determines the counters. */
    static lemma LoweredIsDecrement<K>(counts: map<K, nat>, key: K, after: map<K, nat>)
      requires Count(after, key) == if Count(counts, key) > 0 then Count(counts, key) - 1 else 0
      requires key in after <==> Count(counts, key) > 1
      requires forall k :: k != key ==> (k in after <==> k in counts) && (k in counts ==> after[k] == counts[k])
      ensures after == Decrement(counts, key)
    {
    }

    method Claim(connector: Id, sid: Id) returns (s: StreamSession?)
      requires Valid()
      modifies sessions.Values
      ensures Valid() && (s != null <==> Claimable(old(View()), connector, sid))
      ensures s == null ==> View() == old(View())
      ensures s != null ==> sid in admitted && s == admitted[sid] && View() == ClaimSession(old(View()), connector, sid)
    {
      if sid !in sessions {
        return null;
      }
      s := sessions[sid];
      if s.viewer.connector != connector || s.state != Pending {
        return null;
      }
      s.state := Claimed;
      s.claimedBy := s.claimedBy + [connector];
    }

    /** Deliver up to the close of the ready channel; false when the connection is to be dropped instead. */
    method Deliver(s: StreamSession, conn: Conn) returns (delivered: bool)
      requires Valid() && s.id in admitted && admitted[s.id] == s
      modifies s
      ensures Valid() && delivered == (old(s.state) == Claimed)
      ensures View() == if delivered then DeliverData(old(View()), s.id, conn) else old(View())
    {
      if s.state != Claimed {
        return false;
      }
      s.data := Some(conn);
      s.state := Connected;
      delivered := true;
      OneSessionChanged(s);
      hide Table;
    }

    /** The end of Deliver, after the mutex is released. */
    method CloseReady(s: StreamSession)
      requires Valid() && s.id in admitted && admitted[s.id] == s
      modifies s
      ensures Valid() && View() == Perform(old(View()), ClosingReady(s.id))
    {
      s.readyCloses := s.readyCloses + 1;
      OneSessionChanged(s);
      ChannelsKept();
    }

    /** The first step of end after the mutex is released. */
    method CloseDone(s: StreamSession)
      requires Valid() && s.id in admitted && admitted[s.id] == s
      modifies s
      ensures Valid() && View() == Perform(old(View()), ClosingDone(s.id))
    {
      s.doneCloses := s.doneCloses + 1;
      OneSessionChanged(s);
      ChannelsKept();
    }

    /** Lowers a counter and drops it at zero, so the maps only hold live keys. */
    static method Lowered<K(==)>(counts: map<K, nat>, key: K) returns (after: map<K, nat>)
      ensures Count(after, key) == if Count(counts, key) > 0 then Count(counts, key) - 1 else 0
      ensures key in after <==> Count(counts, key) > 1
      ensures forall k :: k != key ==> (k in after <==> k in counts) && (k in counts ==> after[k] == counts[k])
    {
      if Count(counts, key) <= 1 {
        return counts - {key};
      }
      after := counts[key := counts[key] - 1];
    }

    /** The critical section of end; call is None when the session had ended before. */
    method End(s: StreamSession, code: CloseCode) returns (call: Option<EndCall>)
      requires Valid() && s.id in admitted && admitted[s.id] == s
      modifies this, s
      ensures Valid() && call == CallOf(old(View()), s.id, code)
      ensures View() == if Live(old(View()), s.id) then EndSession(old(View()), s.id, code) else old(View())
    {
      assert Table()[s.id] == s.Value();
      hide EndSession, Table;
      if s.state == Ended {
        return None;
      }
      Remove(s, code);
      var channel := if s.viewer.connector in controls then Some(controls[s.viewer.connector].cid) else None;
      call := Some(EndCall(s.id, code, channel, s.data, s.viewerConn, SignalDone));
    }

    method Remove(s: StreamSession, code: CloseCode)
      requires Valid() && s.id in admitted && admitted[s.id] == s
      modifies this, s
      ensures Valid() && View() == EndSession(old(View()), s.id, code)
      ensures controls == old(controls) && s.data == old(s.data) && s.viewerConn == old(s.viewerConn)
    {
      assert Table()[s.id] == s.Value();
      hide Decrement, Count, Table, Channels;
      s.state := Ended;
      s.endCode := Some(code);
      sessions := sessions - {s.id};
      CountOut(s.viewer);
      OneSessionChanged(s);
      ChannelsKept();
    }

    /** Counts one more served connection unless the hub is closed. */
    method Track() returns (ok: bool)
      requires Valid()
      modifies this
      ensures Valid() && ok == !old(closed) && View() == old(View()).(running := old(running) + if ok then 1 else 0)
      ensures admitted == old(admitted) && sessions == old(sessions) && controls == old(controls)
    {
      if closed {
        return false;
      }
      running := running + 1;
      ok := true;
    }

    /** The critical section of Relay; refused is the code the viewer's connection is closed with. */
    method StartRelaying(s: StreamSession, conn: Conn) returns (refused: Option<CloseCode>)
      requires Valid() && s.id in admitted && admitted[s.id] == s
      modifies this, s
      ensures Valid() && (refused.None? <==> Relayable(old(View()), s.id))
      ensures refused.Some? ==> refused == Some(RefusalCode(old(View()), s.id)) && View() == old(View())
      ensures refused.None? ==> View() == StartRelay(old(View()), s.id, conn)
    {
      var tracked := false;
      if s.state == Connected {
        tracked := Track();
      }
      if !tracked {
        var code := GoingAway;
        if s.state == Ended && s.endCode.Some? {
          code := s.endCode.value;
        }
        return Some(code);
      }
      s.state := Relaying;
      s.viewerConn := Some(conn);
      refused := None;
      OneSessionChanged(s);
      hide Table;
    }

    /** The registration at the start of ServeControl. */
    method RegisterControl(c: Control) returns (decision: RegisterDecision, previous: Control?)
      requires Valid() && forall k :: k in controls ==> controls[k].cid != c.cid
      modifies this
      ensures Valid() && decision == DecideRegister(old(View()), c.connector)
      ensures var successor := c.connector in old(controls);
              && (decision.TooMany? <==> !successor && |old(controls)| >= 256)
              && (decision.HubClosed? <==> old(closed) && (successor || |old(controls)| < 256))
      ensures decision.Registered? ==> View() == Register(old(View()), c.connector, c.cid)
      ensures !decision.Registered? ==> View() == old(View())
      ensures decision.Registered? ==>
                && (previous == null <==> decision.previous.None?)
                && (previous != null ==> previous.cid == decision.previous.value)
    {
      previous := if c.connector in controls then controls[c.connector] else null;
      assert |Channels()| == |Channels().Keys| && Channels().Keys == controls.Keys && |controls| == |controls.Keys|;
      if previous == null && |controls| >= MAX_CONTROL_CHANNELS {
        return TooMany, previous;
      }
      var tracked := Track();
      if !tracked {
        return HubClosed, previous;
      }
      controls := controls[c.connector := c];
      assert Channels() == old(Channels())[c.connector := c.cid];
      hide Table, Channels;
      decision := Registered(if previous == null then None else Some(previous.cid));
    }

    /** The teardown at the end of ServeControl: the sessions to end, none when a successor took over. */
    method RemoveControl(c: Control) returns (orphaned: set<StreamSession>)
      requires Valid() && forall k :: k in controls && controls[k].cid == c.cid ==> controls[k] == c
      modifies this
      ensures Valid() && View() == Unregister(old(View()), c.connector, c.cid)
      ensures forall s :: s in orphaned ==> s.id in admitted && admitted[s.id] == s
      ensures (set s | s in orphaned :: s.id) == OrphansOf(old(View()), c.connector, c.cid)
    {
      orphaned := {};
      ghost var before := View();
      if c.connector in controls && controls[c.connector] == c {
        controls := controls - {c.connector};
        var rest := sessions.Keys;
        while rest != {}
          invariant rest <= sessions.Keys && Valid()
          invariant forall s :: s in orphaned <==>
                      s.id in sessions && sessions[s.id] == s && s.id !in rest && s.viewer.connector == c.connector
        {
          var sid :| sid in rest;
          if sessions[sid].viewer.connector == c.connector {
            orphaned := orphaned + {sessions[sid]};
          }
          rest := rest - {sid};
        }
        assert Channels() == before.controls - {c.connector};
      }
    }

    /** The critical section of Close: what the call that closes the hub ends and stops; false for every later call. */
    method Close() returns (first: bool, toEnd: set<StreamSession>, stopping: set<Control>)
      requires Valid()
      modifies this`closed
      ensures Valid() && first == !old(closed) && View() == Shut(old(View()))
      ensures !first ==> toEnd == {} && stopping == {}
      ensures first ==>
                && (set s | s in toEnd :: s.id) == View().sessions
                && (set c | c in stopping :: c.cid) == View().controls.Values
      ensures forall s :: s in toEnd ==> s.id in admitted && admitted[s.id] == s
    {
      toEnd, stopping := {}, {};
      if closed {
        return false, toEnd, stopping;
      }
      first, closed := true, true;
      var keys := controls.Keys;
      while keys != {}
        invariant keys <= controls.Keys
        invariant forall c :: c in stopping <==> exists k :: k in controls && k !in keys && controls[k] == c
      {
        var k :| k in keys;
        stopping := stopping + {controls[k]};
        keys := keys - {k};
      }
      var rest := sessions.Keys;
      while rest != {}
        invariant rest <= sessions.Keys
        invariant forall s :: s in toEnd <==> s.id in sessions && sessions[s.id] == s && s.id !in rest
      {
        var sid :| sid in rest;
        toEnd := toEnd + {sessions[sid]};
        rest := rest - {sid};
      }
      assert (set s | s in toEnd :: s.id) == sessions.Keys by {
        assert forall sid :: sid in sessions ==> sessions[sid] in toEnd && sessions[sid].id == sid;
      }
      assert (set c | c in stopping :: c.cid) == Channels().Values by {
        assert forall k :: k in controls ==> controls[k] in stopping && Channels()[k] == controls[k].cid;
      }
    }
  }
}
