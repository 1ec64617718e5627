/** The hub's own bookkeeping: what every critical section keeps about the session map, the counters and the limits. */
module RelayTallies {
  import opened Options
  import opened RelayModel

  function Members<K(==)>(keys: map<Id, K>, key: K): set<Id> { set id | id in keys && keys[id] == key }

  /** The counters are exactly the tallies of the keys, and no key stands at zero. */
  ghost predicate Tallies<K(!new)>(counts: map<K, nat>, keys: map<Id, K>) {
    forall k :: Count(counts, k) == |Members(keys, k)| && (k in counts ==> counts[k] > 0)
  }

  lemma MembersGrow<K>(keys: map<Id, K>, id: Id, key: K, k: K)
    requires id !in keys
    ensures |Members(keys[id := key], k)| == |Members(keys, k)| + if k == key then 1 else 0
  {
    assert Members(keys[id := key], k) == Members(keys, k) + if k == key then {id} else {};
  }

  lemma IncrementTallies<K(!new)>(counts: map<K, nat>, keys: map<Id, K>, id: Id, key: K)
    requires Tallies(counts, keys) && id !in keys
    ensures Tallies(Increment(counts, key), keys[id := key])
  {
    hide Members;
    forall k ensures Count(Increment(counts, key), k) == |Members(keys[id := key], k)| {
      MembersGrow(keys, id, key, k);
    }
  }

  lemma DecrementTallies<K(!new)>(counts: map<K, nat>, keys: map<Id, K>, id: Id)
    requires Tallies(counts, keys) && id in keys
    ensures Tallies(Decrement(counts, keys[id]), keys - {id})
  {
    var key := keys[id];
    assert id in Members(keys, key);
    forall k ensures Count(Decrement(counts, key), k) == |Members(keys - {id}, k)| {
      if k == key {
        assert Members(keys - {id}, k) == Members(keys, k) - {id};
      } else {
        assert Members(keys - {id}, k) == Members(keys, k);
      }
    }
  }

  function Viewers(h: Hub): map<Id, Viewer> { map sid | sid in h.sessions && sid in h.table :: h.table[sid].viewer }

  function KeysBy<K>(viewers: map<Id, Viewer>, key: Viewer -> K): map<Id,
                     K> { map sid | sid in viewers :: key(viewers[sid]) }

  function DeviceOf(v: Viewer): Id { v.device }

  function ConnectorOf(v: Viewer): Id { v.connector }

  lemma ReserveTallies<K(!new)>(counts: map<K, nat>, viewers: map<Id, Viewer>, key: Viewer -> K, sid: Id, v: Viewer)
    requires Tallies(counts, KeysBy(viewers, key)) && sid !in viewers
    ensures Tallies(Increment(counts, key(v)), KeysBy(viewers[sid := v], key))
  {
    IncrementTallies(counts, KeysBy(viewers, key), sid, key(v));
    assert KeysBy(viewers[sid := v], key) == KeysBy(viewers, key)[sid := key(v)];
  }

  lemma EndTallies<K(!new)>(counts: map<K, nat>, viewers: map<Id, Viewer>, key: Viewer -> K, sid: Id)
    requires Tallies(counts, KeysBy(viewers, key)) && sid in viewers
    ensures Tallies(Decrement(counts, key(viewers[sid])), KeysBy(viewers - {sid}, key))
  {
    DecrementTallies(counts, KeysBy(viewers, key), sid);
    assert KeysBy(viewers - {sid}, key) == KeysBy(viewers, key) - {sid};
  }

  ghost predicate AtMost<K(!new)>(counts: map<K, nat>, limit: nat) {
    forall k :: k in counts ==> counts[k] <= limit
  }

  lemma DecrementAtMost<K(!new)>(counts: map<K, nat>, key: K, limit: nat)
    requires AtMost(counts, limit)
    ensures AtMost(Decrement(counts, key), limit)
  {
  }

  /** A session is in the map exactly while it is admitted and not ended. */
  ghost predicate LiveSessions(h: Hub) {
    && h.sessions <= h.table.Keys
    && forall sid :: sid in h.table ==> (sid in h.sessions <==> h.table[sid].state != Ended)
  }

  ghost predicate ExactCounters(h: Hub) {
    && Tallies(h.byDevice, KeysBy(Viewers(h), DeviceOf))
    && Tallies(h.byDeviceMachine, KeysBy(Viewers(h), DeviceMachine))
    && Tallies(h.byConnector, KeysBy(Viewers(h), ConnectorOf))
  }

  ghost predicate WithinLimits(h: Hub) {
    && AtMost(h.byDevice, MAX_STREAMS_PER_DEVICE)
    && AtMost(h.byDeviceMachine, MAX_STREAMS_PER_DEVICE_MACHINE)
    && AtMost(h.byConnector, MAX_SESSIONS_PER_CONNECTOR)
    && |h.sessions| <= MAX_SESSIONS && |h.controls| <= MAX_CONTROL_CHANNELS
  }

  ghost predicate HubInv(h: Hub) { LiveSessions(h) && ExactCounters(h) && WithinLimits(h) }

  lemma NewHubInv()
    ensures HubInv(NEW_HUB)
  {
  }

  lemma ReserveKeepsCounters(h: Hub, sid: Id, v: Viewer)
    requires LiveSessions(h) && ExactCounters(h) && sid !in h.table
    ensures ExactCounters(Reserve(h, sid, v))
  {
    hide Tallies, KeysBy, Increment, Decrement;
    var before := Viewers(h);
    assert Viewers(Reserve(h, sid, v)) == before[sid := v];
    ReserveTallies(h.byDevice, before, DeviceOf, sid, v);
    ReserveTallies(h.byDeviceMachine, before, DeviceMachine, sid, v);
    ReserveTallies(h.byConnector, before, ConnectorOf, sid, v);
  }

  lemma ReserveKeepsLimits(h: Hub, sid: Id, v: Viewer)
    requires WithinLimits(h) && DecideOpen(h, v).Reserved?
    ensures WithinLimits(Reserve(h, sid, v))
  {
  }

  lemma ReserveKeepsHub(h: Hub, sid: Id, v: Viewer)
    requires HubInv(h) && sid !in h.table && DecideOpen(h, v).Reserved?
    ensures HubInv(Reserve(h, sid, v))
  {
    ReserveKeepsCounters(h, sid, v);
    ReserveKeepsLimits(h, sid, v);
  }

  lemma EndKeepsCounters(h: Hub, sid: Id, code: CloseCode)
    requires LiveSessions(h) && ExactCounters(h) && sid in h.sessions
    ensures ExactCounters(EndSession(h, sid, code))
  {
    hide Tallies, KeysBy, Increment, Decrement;
    var before := Viewers(h);
    assert Viewers(EndSession(h, sid, code)) == before - {sid};
    EndTallies(h.byDevice, before, DeviceOf, sid);
    EndTallies(h.byDeviceMachine, before, DeviceMachine, sid);
    EndTallies(h.byConnector, before, ConnectorOf, sid);
  }

  lemma EndKeepsLimits(h: Hub, sid: Id, code: CloseCode)
    requires WithinLimits(h) && sid in h.table
    ensures WithinLimits(EndSession(h, sid, code))
  {
    var v := h.table[sid].viewer;
    DecrementAtMost(h.byDevice, v.device, MAX_STREAMS_PER_DEVICE);
    DecrementAtMost(h.byDeviceMachine, DeviceMachine(v), MAX_STREAMS_PER_DEVICE_MACHINE);
    DecrementAtMost(h.byConnector, v.connector, MAX_SESSIONS_PER_CONNECTOR);
    assert |h.sessions - {sid}| <= |h.sessions|;
  }

  lemma EndKeepsLive(h: Hub, sid: Id, code: CloseCode)
    requires LiveSessions(h) && sid in h.sessions
    ensures LiveSessions(EndSession(h, sid, code))
  {
  }

  lemma EndKeepsHub(h: Hub, sid: Id, code: CloseCode)
    requires HubInv(h) && sid in h.table && h.table[sid].state != Ended
    ensures HubInv(EndSession(h, sid, code))
  {
    EndKeepsLive(h, sid, code);
    EndKeepsCounters(h, sid, code);
    EndKeepsLimits(h, sid, code);
  }

  /** Changes to a session other than ending it leave the bookkeeping alone. */
  lemma UpdateKeepsHub(h: Hub, sid: Id, s: Session)
    requires HubInv(h) && sid in h.table
    requires s.viewer == h.table[sid].viewer && (s.state == Ended <==> h.table[sid].state == Ended)
    ensures HubInv(Update(h, sid, s))
  {
    assert Viewers(Update(h, sid, s)) == Viewers(h);
  }

  lemma ControlsKeepHub(h: Hub, h': Hub)
    requires HubInv(h) && |h'.controls| <= MAX_CONTROL_CHANNELS
    requires h' == h.(controls := h'.controls, running := h'.running, closed := h'.closed)
    ensures HubInv(h')
  {
    assert Viewers(h') == Viewers(h);
  }

  lemma RegisterFits(h: Hub, connector: Id, cid: Id)
    requires HubInv(h) && DecideRegister(h, connector).Registered?
    ensures |Register(h, connector, cid).controls| <= MAX_CONTROL_CHANNELS
  {
    var after := Register(h, connector, cid).controls;
    assert after.Keys == h.controls.Keys + {connector};
    assert |after| == |after.Keys| && |h.controls| == |h.controls.Keys|;
  }

  lemma UnregisterFits(h: Hub, connector: Id, cid: Id)
    requires HubInv(h)
    ensures |Unregister(h, connector, cid).controls| <= MAX_CONTROL_CHANNELS
  {
    var after := Unregister(h, connector, cid).controls;
    if connector in h.controls && h.controls[connector] == cid {
      assert after.Keys == h.controls.Keys - {connector};
      assert |after| == |after.Keys| && |h.controls| == |h.controls.Keys|;
    }
  }

  lemma SessionSectionKeepsHub(h: Hub, c: Section)
    requires HubInv(h) && Allowed(h, c)
    requires c.Claiming? || c.Delivering? || c.StartingRelay? || c.ClosingReady? || c.ClosingDone?
    ensures HubInv(Perform(h, c))
  {
    var sid := c.sid;
    var updated := Perform(h, c).table[sid];
    UpdateKeepsHub(h, sid, updated);
    if c.StartingRelay? {
      ControlsKeepHub(Update(h, sid, updated), Perform(h, c));
    } else {
      assert Perform(h, c) == Update(h, sid, updated);
    }
  }

  lemma ControlSectionKeepsHub(h: Hub, c: Section)
    requires HubInv(h) && Allowed(h, c)
    requires c.Registering? || c.Unregistering? || c.Untracking? || c.Shutting?
    ensures HubInv(Perform(h, c))
  {
    if c.Registering? {
      RegisterFits(h, c.connector, c.cid);
    }
    if c.Unregistering? {
      UnregisterFits(h, c.connector, c.cid);
    }
    ControlsKeepHub(h, Perform(h, c));
  }

  /** Every critical section keeps the session map, the counters and the limits. */
  lemma SectionKeepsHub(h: Hub, c: Section)
    requires HubInv(h) && Allowed(h, c)
    ensures HubInv(Perform(h, c))
  {
    match c
    case Untouched =>
    case Reserving(sid, v) => ReserveKeepsHub(h, sid, v);
    case Ending(sid, code) => EndKeepsHub(h, sid, code);
    case Claiming(_, _) => SessionSectionKeepsHub(h, c);
    case Delivering(_, _) => SessionSectionKeepsHub(h, c);
    case StartingRelay(_, _) => SessionSectionKeepsHub(h, c);
    case ClosingReady(_) => SessionSectionKeepsHub(h, c);
    case ClosingDone(_) => SessionSectionKeepsHub(h, c);
    case _ => ControlSectionKeepsHub(h, c);
  }
}
