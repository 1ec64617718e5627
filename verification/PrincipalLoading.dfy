/** Rebuilding a principal's permissions from the joined role, grant and device-type rows. */
module PrincipalLoading {
  import opened Options
  import opened Grants

  /** One row of the join. The grant columns repeat on every device-type row of a grant. */
  datatype Row = Row(
    masterRole: bool,
    grantId: Option<nat>,
    permission: Option<Permission>,
    scope: Option<Scope>,
    minimum: Option<Assurance>,
    window: Option<int>,
    deviceType: Option<DeviceType>)

  datatype Requirement = Requirement(assurance: Assurance, withinMinutes: int)

  datatype Loaded = Loaded(
    session: Context,
    holdsMasterRole: bool,
    master: bool,
    permissions: set<Permission>,
    grants: map<Permission, seq<Grant>>,
    pending: map<Permission, Requirement>)

  /** Prefers the lower assurance, then the longer window. */
  predicate Easier(candidate: Requirement, current: Requirement) {
    if Rank(candidate.assurance) != Rank(current.assurance)
    then Rank(candidate.assurance) < Rank(current.assurance)
    else candidate.withinMinutes > current.withinMinutes
  }

  /** Whoever can meet the other requirement can meet this one: it asks for less, or for the same not longer ago. */
  predicate AsEasy(q: Requirement, other: Requirement) {
    || Rank(q.assurance) < Rank(other.assurance)
    || (Rank(q.assurance) == Rank(other.assurance) && q.withinMinutes >= other.withinMinutes)
  }

  function RowScope(r: Row): Scope { if r.scope.Some? then r.scope.value else Everywhere }

  function RowMinimum(r: Row): Assurance { if r.minimum.Some? then r.minimum.value else Low }

  predicate Accepted(known: set<Permission>, r: Row) {
    && r.permission.Some? && r.grantId.Some? && r.permission.value in known
    && ValidScope(RowScope(r)) && ValidAssurance(RowMinimum(r))
  }

  function RowSet(rows: seq<Row>): set<Row> { set r | r in rows }

  /** What the join guarantees: the rows of one grant differ in their device type only. */
  ghost predicate Consistent(rows: set<Row>) {
    forall r, r' :: r in rows && r' in rows && r.grantId.Some? && r.grantId == r'.grantId ==>
      r.permission == r'.permission && r.scope == r'.scope && r.minimum == r'.minimum && r.window == r'.window
  }

  function Normalized(session: Context): Context {
    if ValidAssurance(session.assurance) then session else session.(assurance := Normal)
  }

  /* ---------- Specification, in terms of row membership only ---------- */

  /** The row's grant, whatever row of it is taken, covers the device. */
  ghost predicate RowReaches(known: set<Permission>, rows: set<Row>, r: Row, device: Option<DeviceType>)
    requires r.grantId.Some?
  {
    || RowScope(r) == Everywhere
    || (device.Some? && (RowScope(r) == AnyManagedDevice
                         || HasDeviceRow(known, rows, r.grantId.value, device.value)))
  }

  ghost predicate RowApplies(known: set<Permission>, rows: set<Row>, r: Row, session: Context) {
    && r in rows && Accepted(known, r) && ValidWindow(r.window)
    && ValidAssurance(session.assurance) && Rank(session.assurance) >= Rank(RowMinimum(r))
    && RowReaches(known, rows, r, session.device)
  }

  ghost predicate RowGrants(known: set<Permission>, rows: set<Row>, session: Context, permission: Permission) {
    exists r :: RowApplies(known, rows, r, session) && r.permission == Some(permission)
        && Fresh(session, RowMinimum(r), r.window)
  }

  ghost predicate RowWithholds(known: set<Permission>, rows: set<Row>, session: Context, permission: Permission,
                               q: Requirement) {
    exists r :: && RowApplies(known, rows, r, session) && r.permission == Some(permission)
                && !Fresh(session, RowMinimum(r), r.window) && q == Requirement(RowMinimum(r), r.window.value)
  }

  ghost predicate IsMaster(rows: set<Row>, session: Context) {
    HoldsMasterRole(rows) && Rank(session.assurance) >= Rank(StrongMFA)
  }

  ghost predicate MasterGrants(known: set<Permission>, rows: set<Row>, session: Context, policy: map<Permission, int>,
                               permission: Permission) {
    && IsMaster(rows, session) && permission in known
    && (permission in policy ==> Fresh(session, StrongMFA, Some(policy[permission])))
  }

  ghost predicate MasterWithholds(known: set<Permission>, rows: set<Row>, session: Context,
                                  policy: map<Permission, int>, permission: Permission, q: Requirement) {
    && IsMaster(rows, session) && permission in known && permission in policy
    && !Fresh(session, StrongMFA, Some(policy[permission])) && q == Requirement(StrongMFA, policy[permission])
  }

  ghost predicate Effective(known: set<Permission>, rows: set<Row>, session: Context, policy: map<Permission, int>,
                            permission: Permission) {
    RowGrants(known, rows, session, permission) || MasterGrants(known, rows, session, policy, permission)
  }

  ghost predicate Withheld(known: set<Permission>, rows: set<Row>, session: Context, policy: map<Permission, int>,
                           permission: Permission, q: Requirement) {
    RowWithholds(known, rows, session, permission, q) || MasterWithholds(known, rows, session, policy, permission, q)
  }

  ghost predicate Easiest(known: set<Permission>, rows: set<Row>, session: Context, policy: map<Permission, int>,
                          permission: Permission, q: Requirement) {
    && Withheld(known, rows, session, policy, permission, q)
    && forall other :: Withheld(known, rows, session, policy, permission, other) ==> AsEasy(q, other)
  }

  /** The effective permissions are those some applicable grant or the master role gives; the pending ones are the
      others that are withheld only for a sign-in, each with the easiest sign-in that would do. */
  ghost predicate LoadsAs(known: set<Permission>, rows: set<Row>, session: Context, policy: map<Permission, int>,
                          permissions: set<Permission>, pending: map<Permission, Requirement>) {
    && (forall p :: p in permissions <==> Effective(known, rows, session, policy, p))
    && (forall p :: p in pending <==> p !in permissions && exists q :: Withheld(known, rows, session, policy, p, q))
    && (forall p :: p in pending ==> Easiest(known, rows, session, policy, p, pending[p]))
  }

  /* ---------- First loop: assembling the grants ---------- */

  ghost predicate RowOf(known: set<Permission>, r: Row, g: Grant) {
    && Accepted(known, r) && r.grantId == Some(g.id) && r.permission == Some(g.permission)
    && RowScope(r) == g.scope && RowMinimum(r) == g.minimum && r.window == g.window
  }

  ghost predicate HasRowOf(known: set<Permission>, rows: set<Row>, g: Grant) {
    exists r :: r in rows && RowOf(known, r, g)
  }

  ghost predicate HasGrantOf(known: set<Permission>, r: Row, grants: seq<Grant>) {
    exists i :: 0 <= i < |grants| && RowOf(known, r, grants[i])
  }

  predicate DeviceRow(known: set<Permission>, r: Row, id: nat, device: DeviceType) {
    Accepted(known, r) && r.grantId == Some(id) && r.deviceType == Some(device)
  }

  ghost predicate HasDeviceRow(known: set<Permission>, rows: set<Row>, id: nat, device: DeviceType) {
    exists r :: r in rows && DeviceRow(known, r, id, device)
  }

  ghost predicate ListsDevices(known: set<Permission>, rows: set<Row>, g: Grant) {
    forall d :: d in g.deviceTypes <==> HasDeviceRow(known, rows, g.id, d)
  }

  ghost predicate DistinctIds(grants: seq<Grant>) {
    forall i, j :: 0 <= i < j < |grants| ==> grants[i].id != grants[j].id
  }

  /** The grants are exactly the accepted rows, merged by grant identity, each once. */
  ghost predicate Assembled(known: set<Permission>, rows: set<Row>, grants: seq<Grant>) {
    && DistinctIds(grants)
    && (forall r :: r in rows && Accepted(known, r) ==> HasGrantOf(known, r, grants))
    && (forall i :: 0 <= i < |grants| ==> HasRowOf(known, rows, grants[i]) && ListsDevices(known, rows, grants[i]))
  }

  function AppendUnique(values: seq<DeviceType>, candidate: DeviceType): seq<DeviceType> {
    if candidate in values then values else values + [candidate]
  }

  function NewGrant(r: Row): Grant
    requires r.grantId.Some? && r.permission.Some?
  {
    Grant(r.grantId.value, r.permission.value, RowScope(r), [], RowMinimum(r), r.window)
  }

  function WithDevice(g: Grant, device: Option<DeviceType>): Grant {
    if device.Some? then g.(deviceTypes := AppendUnique(g.deviceTypes, device.value)) else g
  }

  lemma DevicesGrow(known: set<Permission>, before: set<Row>, row: Row, g: Grant, next: Grant)
    requires next == if Accepted(known, row) && row.grantId == Some(g.id) then WithDevice(g, row.deviceType) else g
    requires ListsDevices(known, before, g)
    ensures ListsDevices(known, before + {row}, next)
  {
    forall d ensures d in next.deviceTypes <==> HasDeviceRow(known, before + {row}, next.id, d) {
      assert HasDeviceRow(known, before + {row}, g.id, d) <==>
          HasDeviceRow(known, before, g.id, d) || DeviceRow(known, row, g.id, d);
    }
  }

  /** The grant's row merged into the table at k: appended when new, extended by the row's device type otherwise. */
  function Merged(grants: seq<Grant>, k: nat, row: Row): seq<Grant>
    requires k <= |grants| && row.grantId.Some? && row.permission.Some?
  {
    if k < |grants| then grants[k := WithDevice(grants[k], row.deviceType)]
    else grants + [WithDevice(NewGrant(row), row.deviceType)]
  }

  lemma FirstRowOfGrant(known: set<Permission>, before: set<Row>, grants: seq<Grant>, row: Row)
    requires Accepted(known, row) && Assembled(known, before, grants)
    requires forall j :: 0 <= j < |grants| ==> grants[j].id != row.grantId.value
    ensures ListsDevices(known, before, NewGrant(row))
  {
    forall r | r in before && Accepted(known, r) ensures r.grantId != row.grantId {
      assert HasGrantOf(known, r, grants);
    }
  }

  lemma MergedRowsCovered(known: set<Permission>, before: set<Row>, row: Row, grants: seq<Grant>, k: nat)
    requires Accepted(known, row) && k <= |grants|
    requires forall r :: r in before && Accepted(known, r) ==> HasGrantOf(known, r, grants)
    requires k < |grants| ==> RowOf(known, row, grants[k])
    ensures forall r :: r in before + {row} && Accepted(known, r) ==> HasGrantOf(known, r, Merged(grants, k, row))
  {
    var next := Merged(grants, k, row);
    assert RowOf(known, row, next[k]);
    forall r | r in before && Accepted(known, r) ensures HasGrantOf(known, r, next) {
      assert HasGrantOf(known, r, grants);
      var m :| 0 <= m < |grants| && RowOf(known, r, grants[m]);
      assert next[m] == grants[m] || next[m] == WithDevice(grants[m], row.deviceType);
      assert RowOf(known, r, next[m]);
    }
  }

  lemma MergedGrantMatches(known: set<Permission>, before: set<Row>, row: Row, grants: seq<Grant>, k: nat, m: nat)
    requires Accepted(known, row) && Assembled(known, before, grants) && k <= |grants|
    requires forall j :: 0 <= j < |grants| ==> (grants[j].id == row.grantId.value <==> j == k)
    requires k < |grants| ==> RowOf(known, row, grants[k])
    requires m < |Merged(grants, k, row)|
    ensures HasRowOf(known, before + {row}, Merged(grants, k, row)[m])
    ensures ListsDevices(known, before + {row}, Merged(grants, k, row)[m])
  {
    var next := Merged(grants, k, row);
    if m == |grants| {
      FirstRowOfGrant(known, before, grants, row);
      DevicesGrow(known, before, row, NewGrant(row), next[m]);
      assert RowOf(known, row, next[m]);
    } else {
      DevicesGrow(known, before, row, grants[m], next[m]);
      var r :| r in before && RowOf(known, r, grants[m]);
      assert RowOf(known, r, next[m]);
    }
  }

  lemma MergedIds(grants: seq<Grant>, k: nat, row: Row)
    requires row.grantId.Some? && row.permission.Some? && k <= |grants| && DistinctIds(grants)
    requires forall j :: 0 <= j < |grants| ==> (grants[j].id == row.grantId.value <==> j == k)
    ensures DistinctIds(Merged(grants, k, row))
    ensures forall j :: 0 <= j < |Merged(grants, k, row)| ==>
              Merged(grants, k, row)[j].id == if j == k then row.grantId.value else grants[j].id
  {
  }

  lemma MergeRow(known: set<Permission>, before: set<Row>, row: Row, grants: seq<Grant>, k: nat)
    requires Accepted(known, row) && Assembled(known, before, grants) && k <= |grants|
    requires forall j :: 0 <= j < |grants| ==> (grants[j].id == row.grantId.value <==> j == k)
    requires k < |grants| ==> RowOf(known, row, grants[k])
    ensures Assembled(known, before + {row}, Merged(grants, k, row))
  {
    MergedRowsCovered(known, before, row, grants, k);
    MergedIds(grants, k, row);
    forall m | 0 <= m < |Merged(grants, k, row)|
      ensures HasRowOf(known, before + {row}, Merged(grants, k, row)[m])
          && ListsDevices(known, before + {row}, Merged(grants, k, row)[m])
    {
      MergedGrantMatches(known, before, row, grants, k, m);
    }
  }

  lemma SkipRow(known: set<Permission>, before: set<Row>, row: Row, grants: seq<Grant>)
    requires !Accepted(known, row) && Assembled(known, before, grants)
    ensures Assembled(known, before + {row}, grants)
  {
    forall i | 0 <= i < |grants| ensures HasRowOf(known, before + {row}, grants[i])
        && ListsDevices(known, before + {row}, grants[i]) {
      var r :| r in before && RowOf(known, r, grants[i]);
      DevicesGrow(known, before, row, grants[i], grants[i]);
    }
  }

  /** The position of a grant identity in the order of first appearance, or the end when it is new. */
  ghost predicate Indexes(byId: map<nat, nat>, grants: seq<Grant>) {
    && (forall id :: id in byId ==> byId[id] < |grants| && grants[byId[id]].id == id)
    && (forall k :: 0 <= k < |grants| ==> grants[k].id in byId && byId[grants[k].id] == k)
  }

  method AssembleGrants(known: set<Permission>, rows: seq<Row>) returns (holdsMasterRole: bool, grants: seq<Grant>)
    requires Consistent(RowSet(rows))
    ensures holdsMasterRole <==> HoldsMasterRole(RowSet(rows))
    ensures Assembled(known, RowSet(rows), grants)
  {
    hide Merged, Consistent, RowSet;
    EmptyAssembly(known);
    assert rows[..0] == [];
    holdsMasterRole, grants := false, [];
    var byId: map<nat, nat> := map[];
    for i := 0 to |rows|
      invariant holdsMasterRole <==> HoldsMasterRole(RowSet(rows[..i]))
      invariant Assembled(known, RowSet(rows[..i]), grants) && Indexes(byId, grants)
    {
      var row := rows[i];
      RowSetGrows(rows, i);
      if row.masterRole {
        holdsMasterRole := true;
      }
      if !Accepted(known, row) {
        AssembleRow(known, RowSet(rows), RowSet(rows[..i]), row, grants, 0);
        continue;
      }
      var k := Position(byId, grants, row);
      IndexesMerged(byId, grants, row);
      AssembleRow(known, RowSet(rows), RowSet(rows[..i]), row, grants, k);
      byId, grants := byId[row.grantId.value := k], Merged(grants, k, row);
    }
    assert rows[..|rows|] == rows;
  }

  lemma EmptyAssembly(known: set<Permission>)
    ensures RowSet([]) == {} && Assembled(known, {}, [])
  {
  }

  function Position(byId: map<nat, nat>, grants: seq<Grant>, row: Row): nat
    requires row.grantId.Some?
  {
    if row.grantId.value in byId then byId[row.grantId.value] else |grants|
  }

  lemma IndexesMerged(byId: map<nat, nat>, grants: seq<Grant>, row: Row)
    requires row.grantId.Some? && row.permission.Some? && DistinctIds(grants) && Indexes(byId, grants)
    ensures var k := Position(byId, grants, row);
            && k <= |grants| && Indexes(byId[row.grantId.value := k], Merged(grants, k, row))
            && forall j :: 0 <= j < |grants| ==> (grants[j].id == row.grantId.value <==> j == k)
  {
    MergedIds(grants, Position(byId, grants, row), row);
  }

  lemma AssembleRow(known: set<Permission>, rows: set<Row>, before: set<Row>, row: Row, grants: seq<Grant>, k: nat)
    requires Consistent(rows) && row in rows && before <= rows
    requires Assembled(known, before, grants)
    requires Accepted(known, row) ==>
               k <= |grants| && forall j :: 0 <= j < |grants| ==> (grants[j].id == row.grantId.value <==> j == k)
    ensures Assembled(known, before + {row}, if Accepted(known, row) then Merged(grants, k, row) else grants)
  {
    if !Accepted(known, row) {
      SkipRow(known, before, row, grants);
    } else {
      if k < |grants| {
        assert HasRowOf(known, before, grants[k]);
        RowAgreesWithGrant(known, rows, before, row, grants[k]);
      }
      MergeRow(known, before, row, grants, k);
    }
  }

  lemma RowSetGrows(rows: seq<Row>, i: nat)
    requires i < |rows|
    ensures RowSet(rows[..i + 1]) == RowSet(rows[..i]) + {rows[i]}
    ensures RowSet(rows[..i + 1]) <= RowSet(rows)
    ensures rows[i] in RowSet(rows)
  {
    assert rows[..i + 1] == rows[..i] + [rows[i]];
  }

  lemma RowAgreesWithGrant(known: set<Permission>, rows: set<Row>, before: set<Row>, row: Row, g: Grant)
    requires Consistent(rows) && row in rows && before <= rows
    requires Accepted(known, row) && row.grantId == Some(g.id) && HasRowOf(known, before, g)
    ensures RowOf(known, row, g)
  {
    var r :| r in before && RowOf(known, r, g);
  }

  ghost predicate HoldsMasterRole(rows: set<Row>) {
    exists r :: r in rows && r.masterRole
  }

  /** The assembled grant and any of its rows agree on the request. */
  lemma GrantMatchesRow(known: set<Permission>, rows: set<Row>, r: Row, g: Grant, session: Context)
    requires r in rows && RowOf(known, r, g) && ListsDevices(known, rows, g)
    ensures GrantEffective(known, g, session.assurance, session.device) <==> RowApplies(known, rows, r, session)
    ensures Fresh(session, g.minimum, g.window) <==> Fresh(session, RowMinimum(r), r.window)
  {
  }

  /* ---------- Second loop: evaluating the grants ---------- */

  function AddPending(pending: map<Permission, Requirement>, permission: Permission, q: Requirement):
                      map<Permission, Requirement> {
    if permission !in pending || Easier(q, pending[permission]) then pending[permission := q] else pending
  }

  ghost predicate SomeGrantGives(known: set<Permission>, grants: seq<Grant>, session: Context, p: Permission) {
    exists i :: 0 <= i < |grants| && grants[i].permission == p && Admits(known, grants[i], session)
  }

  predicate Holds(known: set<Permission>, g: Grant, session: Context) {
    GrantEffective(known, g, session.assurance, session.device) && !Fresh(session, g.minimum, g.window)
  }

  function Needs(g: Grant): Requirement
    requires g.window.Some?
  {
    Requirement(g.minimum, g.window.value)
  }

  /** The pending table holds, per permission, an easiest of the requirements offered so far. */
  ghost predicate KeepsEasiest(offers: set<(Permission, Requirement)>, pending: map<Permission, Requirement>) {
    && (forall p :: p in pending ==> (p, pending[p]) in offers)
    && (forall o :: o in offers ==> o.0 in pending && AsEasy(pending[o.0], o.1))
  }

  lemma AddPendingKeepsEasiest(offers: set<(Permission, Requirement)>, pending: map<Permission, Requirement>,
                               p: Permission, q: Requirement)
    requires KeepsEasiest(offers, pending)
    ensures KeepsEasiest(offers + {(p, q)}, AddPending(pending, p, q))
  {
  }

  ghost function GrantOffers(known: set<Permission>, grants: seq<Grant>, session: Context):
                             set<(Permission, Requirement)> {
    set i | 0 <= i < |grants| && Holds(known, grants[i], session) :: (grants[i].permission, Needs(grants[i]))
  }

  method EvaluateGrants(known: set<Permission>, grants: seq<Grant>, session: Context)
    returns (permissions: set<Permission>, byPermission: map<Permission, seq<Grant>>,
        pending: map<Permission, Requirement>)
    ensures forall p :: p in permissions <==> SomeGrantGives(known, grants, session, p)
    ensures KeepsEasiest(GrantOffers(known, grants, session), pending)
    ensures forall g :: g in grants <==> g.permission in byPermission && g in byPermission[g.permission]
    ensures forall p, g :: p in byPermission && g in byPermission[p] ==> g.permission == p
  {
    permissions, byPermission, pending := {}, map[], map[];
    for i := 0 to |grants|
      invariant forall p :: p in permissions <==> SomeGrantGives(known, grants[..i], session, p)
      invariant KeepsEasiest(GrantOffers(known, grants[..i], session), pending)
      invariant forall g :: g in grants[..i] <==> g.permission in byPermission && g in byPermission[g.permission]
      invariant forall p, g :: p in byPermission && g in byPermission[p] ==> g.permission == p
    {
      var g := grants[i];
      assert grants[..i + 1] == grants[..i] + [g];
      OfferOne(known, grants[..i], g, session);
      byPermission := byPermission[g.permission := (if g.permission in byPermission then byPermission[g.permission]
          else []) + [g]];
      if !GrantEffective(known, g, session.assurance, session.device) {
        continue;
      }
      if Fresh(session, g.minimum, g.window) {
        permissions := permissions + {g.permission};
        continue;
      }
      AddPendingKeepsEasiest(GrantOffers(known, grants[..i], session), pending, g.permission, Needs(g));
      pending := AddPending(pending, g.permission, Needs(g));
    }
    assert grants[..|grants|] == grants;
  }

  lemma OfferOne(known: set<Permission>, grants: seq<Grant>, g: Grant, session: Context)
    ensures GrantOffers(known, grants + [g], session)
            == GrantOffers(known, grants, session) + if Holds(known, g, session) then {(g.permission, Needs(g))} else {}
  {
    var all := grants + [g];
    assert all[|grants|] == g;
    forall o | o in GrantOffers(known, grants, session) ensures o in GrantOffers(known, all, session) {
      var i :| 0 <= i < |grants| && Holds(known, grants[i], session) && o == (grants[i].permission, Needs(grants[i]));
      assert all[i] == grants[i];
    }
    forall o | o in GrantOffers(known, all, session)
      ensures o in GrantOffers(known, grants, session) || (Holds(known, g, session) && o == (g.permission, Needs(g)))
    {
      var i :| 0 <= i < |all| && Holds(known, all[i], session) && o == (all[i].permission, Needs(all[i]));
      if i < |grants| {
        assert grants[i] == all[i];
      }
    }
  }

  /* ---------- The whole load ---------- */

  predicate MasterFresh(session: Context, policy: map<Permission, int>, p: Permission) {
    p in policy ==> Fresh(session, StrongMFA, Some(policy[p]))
  }

  function MasterOffers(registry: seq<Permission>, session: Context, policy: map<Permission, int>):
                        set<(Permission, Requirement)> {
    set p | p in registry && !MasterFresh(session, policy, p) :: (p, Requirement(StrongMFA, policy[p]))
  }

  method LoadPermissions(registry: seq<Permission>, rows: seq<Row>, given: Context, policy: map<Permission, int>)
    returns (r: Loaded)
    requires Consistent(RowSet(rows))
    ensures r.session == if given.assurance.InvalidAssurance? then given.(assurance := Normal) else given
    ensures r.holdsMasterRole <==> HoldsMasterRole(RowSet(rows))
    ensures r.master <==> IsMaster(RowSet(rows), r.session)
    ensures LoadsAs(Known(registry), RowSet(rows), r.session, policy, r.permissions, r.pending)
    ensures forall p :: p in r.grants ==> HeldFor(r.grants[p], p)
    ensures forall p :: RowGrants(Known(registry), RowSet(rows), r.session, p)
              <==> Granted(Known(registry), Held(Principal(r.master, r.grants), p), r.session)
  {
    var known := Known(registry);
    var session := Normalized(given);
    var holdsMasterRole, grants := AssembleGrants(known, rows);
    var permissions, byPermission, pending := EvaluateGrants(known, grants, session);
    var master := holdsMasterRole && Rank(session.assurance) >= Rank(StrongMFA);
    RowsAndGrants(known, RowSet(rows), grants, session);
    GrantsByPermission(known, grants, byPermission, session, master);
    ghost var offers := GrantOffers(known, grants, session);
    if master {
      permissions, pending := AddMasterPermissions(registry, session, policy, offers, permissions, pending);
      offers := offers + MasterOffers(registry, session, policy);
    }
    LoadedSpec(registry, RowSet(rows), session, policy, offers, permissions, pending);
    r := Loaded(session, holdsMasterRole, master, permissions, byPermission, pending - permissions);
  }

  /** The master role's universal permissions, each withheld only by its own fresh-sign-in policy. */
  method AddMasterPermissions(registry: seq<Permission>, session: Context, policy: map<Permission, int>,
                              ghost offers: set<(Permission, Requirement)>, own: set<Permission>,
                                  ownPending: map<Permission, Requirement>)
    returns (permissions: set<Permission>, pending: map<Permission, Requirement>)
    requires KeepsEasiest(offers, ownPending)
    ensures permissions == own + set p | p in registry && MasterFresh(session, policy, p)
    ensures KeepsEasiest(offers + MasterOffers(registry, session, policy), pending)
  {
    permissions, pending := own, ownPending;
    assert offers + MasterOffers(registry[..0], session, policy) == offers;
    for i := 0 to |registry|
      invariant permissions == own + set p | p in registry[..i] && MasterFresh(session, policy, p)
      invariant KeepsEasiest(offers + MasterOffers(registry[..i], session, policy), pending)
    {
      var p := registry[i];
      assert registry[..i + 1] == registry[..i] + [p];
      if !MasterFresh(session, policy, p) {
        var q := Requirement(StrongMFA, policy[p]);
        AddPendingKeepsEasiest(offers + MasterOffers(registry[..i], session, policy), pending, p, q);
        assert offers + MasterOffers(registry[..i + 1], session, policy)
            == offers + MasterOffers(registry[..i], session, policy) + {(p, q)};
        pending := AddPending(pending, p, q);
        continue;
      }
      assert MasterOffers(registry[..i + 1], session, policy) == MasterOffers(registry[..i], session, policy);
      permissions := permissions + {p};
    }
    assert registry[..|registry|] == registry;
  }

  lemma GrantsByPermission(known: set<Permission>, grants: seq<Grant>, byPermission: map<Permission, seq<Grant>>,
                           session: Context, master: bool)
    requires forall g :: g in grants <==> g.permission in byPermission && g in byPermission[g.permission]
    requires forall p, g :: p in byPermission && g in byPermission[p] ==> g.permission == p
    ensures forall p :: p in byPermission ==> HeldFor(byPermission[p], p)
    ensures forall p :: SomeGrantGives(known, grants, session, p) <==>
              Granted(known, Held(Principal(master, byPermission), p), session)
  {
    forall p | SomeGrantGives(known, grants, session, p) ensures Granted(known,
        Held(Principal(master, byPermission), p), session) {
      var held := Held(Principal(master, byPermission), p);
      var i :| 0 <= i < |grants| && grants[i].permission == p && Admits(known, grants[i], session);
      assert grants[i] in grants;
      var k :| 0 <= k < |held| && held[k] == grants[i];
    }
    forall p | Granted(known, Held(Principal(master, byPermission), p), session) ensures
        SomeGrantGives(known, grants, session, p) {
      var held := Held(Principal(master, byPermission), p);
      var k :| 0 <= k < |held| && Admits(known, held[k], session);
      assert held[k] in byPermission[p] && held[k] in grants;
    }
  }

  function Known(registry: seq<Permission>): set<Permission> { set p | p in registry }

  lemma RowsAndGrants(known: set<Permission>, rows: set<Row>, grants: seq<Grant>, session: Context)
    requires Assembled(known, rows, grants)
    ensures forall p :: RowGrants(known, rows, session, p) <==> SomeGrantGives(known, grants, session, p)
    ensures forall p, q :: RowWithholds(known, rows, session, p, q) <==> (p, q) in GrantOffers(known, grants, session)
  {
    forall p ensures RowGrants(known, rows, session, p) <==> SomeGrantGives(known, grants, session, p) {
      if RowGrants(known, rows, session, p) {
        var r :| RowApplies(known, rows, r, session) && r.permission == Some(p)
            && Fresh(session, RowMinimum(r), r.window);
        var i := GrantOfRow(known, rows, grants, r, session);
        assert Admits(known, grants[i], session);
      }
      if SomeGrantGives(known, grants, session, p) {
        var i :| 0 <= i < |grants| && grants[i].permission == p && Admits(known, grants[i], session);
        var r := RowOfGrant(known, rows, grants, i, session);
        assert RowApplies(known, rows, r, session);
      }
    }
    forall p, q ensures RowWithholds(known, rows, session, p, q) <==> (p, q) in GrantOffers(known, grants, session) {
      if RowWithholds(known, rows, session, p, q) {
        var r :| && RowApplies(known, rows, r, session) && r.permission == Some(p)
                 && !Fresh(session, RowMinimum(r), r.window) && q == Requirement(RowMinimum(r), r.window.value);
        var i := GrantOfRow(known, rows, grants, r, session);
        assert Holds(known, grants[i], session);
      }
      if (p, q) in GrantOffers(known, grants, session) {
        var i :| 0 <= i < |grants| && Holds(known, grants[i], session)
            && (p, q) == (grants[i].permission, Needs(grants[i]));
        var r := RowOfGrant(known, rows, grants, i, session);
        assert RowApplies(known, rows, r, session);
      }
    }
  }

  lemma GrantOfRow(known: set<Permission>, rows: set<Row>, grants: seq<Grant>, r: Row, session: Context)
    returns (i: nat)
    requires Assembled(known, rows, grants) && r in rows && Accepted(known, r)
    ensures i < |grants| && RowOf(known, r, grants[i])
    ensures GrantEffective(known, grants[i], session.assurance, session.device) <==> RowApplies(known, rows, r, session)
  {
    assert HasGrantOf(known, r, grants);
    i :| 0 <= i < |grants| && RowOf(known, r, grants[i]);
    GrantMatchesRow(known, rows, r, grants[i], session);
  }

  lemma RowOfGrant(known: set<Permission>, rows: set<Row>, grants: seq<Grant>, i: nat, session: Context)
    returns (r: Row)
    requires Assembled(known, rows, grants) && i < |grants|
    ensures r in rows && RowOf(known, r, grants[i])
    ensures GrantEffective(known, grants[i], session.assurance, session.device) <==> RowApplies(known, rows, r, session)
  {
    assert HasRowOf(known, rows, grants[i]);
    r :| r in rows && RowOf(known, r, grants[i]);
    GrantMatchesRow(known, rows, r, grants[i], session);
  }

  lemma LoadedSpec(registry: seq<Permission>, rows: set<Row>, session: Context, policy: map<Permission, int>,
                   offers: set<(Permission, Requirement)>, permissions: set<Permission>,
                       pending: map<Permission, Requirement>)
    requires KeepsEasiest(offers, pending)
    requires forall p :: p in permissions <==> Effective(Known(registry), rows, session, policy, p)
    requires forall p, q :: (p, q) in offers <==> Withheld(Known(registry), rows, session, policy, p, q)
    ensures LoadsAs(Known(registry), rows, session, policy, permissions, pending - permissions)
  {
    var known := Known(registry);
    forall p ensures p in pending <==> exists q :: Withheld(known, rows, session, policy, p, q) {
      if p in pending {
        assert Withheld(known, rows, session, policy, p, pending[p]);
      }
    }
  }

  /* ---------- Properties of every load ---------- */

  /** The result depends on which rows there are, not on their order or repetition: the specification, which reads the
      rows as a set, leaves one result only. */
  lemma RowOrderIsIrrelevant(known: set<Permission>, rows: seq<Row>, others: seq<Row>, session: Context,
                             policy: map<Permission, int>,
                             permissions: set<Permission>, pending: map<Permission, Requirement>,
                             permissions': set<Permission>, pending': map<Permission, Requirement>)
    requires forall r :: r in rows <==> r in others
    requires LoadsAs(known, RowSet(rows), session, policy, permissions, pending)
    requires LoadsAs(known, RowSet(others), session, policy, permissions', pending')
    ensures permissions == permissions' && pending == pending'
  {
    assert RowSet(rows) == RowSet(others);
    forall p | p in pending ensures p in pending' && pending[p] == pending'[p] {
      EasiestIsUnique(known, RowSet(rows), session, policy, p, pending[p], pending'[p]);
    }
    assert pending.Keys == pending'.Keys;
  }

  /** A permission that no applicable grant carries is effective exactly for a holder of the master role at the second
      factor, and where a policy asks for it only while that second factor is recent enough. */
  lemma MasterExactlyWhen(known: set<Permission>, rows: set<Row>, session: Context, policy: map<Permission, int>,
                          permissions: set<Permission>, pending: map<Permission, Requirement>, p: Permission)
    requires LoadsAs(known, rows, session, policy, permissions, pending)
    requires forall r: Row :: r.permission == Some(p) ==> !RowApplies(known, rows, r, session)
    ensures p in permissions <==>
              && p in known && (exists r :: r in rows && r.masterRole) && session.assurance == StrongMFA
              && (p in policy ==>
                    && session.authenticated !in {Low, Normal, Strong}
                    && session.age.Some? && 0 <= session.age.value <= policy[p] * 60 * 1_000_000_000)
  {
    hide Withheld, Easiest, RowApplies;
    assert !RowGrants(known, rows, session, p);
    assert p in permissions <==> MasterGrants(known, rows, session, policy, p);
    hide LoadsAs;
  }

  /** A row that leaves scope, minimum and window open gives its permission to every session on every device. */
  lemma OpenRowGrants(known: set<Permission>, rows: set<Row>, session: Context, policy: map<Permission, int>,
                      permissions: set<Permission>, pending: map<Permission, Requirement>, r: Row)
    requires LoadsAs(known, rows, session, policy, permissions, pending) && ValidAssurance(session.assurance)
    requires r in rows && r.grantId.Some? && r.permission.Some? && r.permission.value in known
    requires r.scope.None? && r.minimum.None? && r.window.None?
    ensures r.permission.value in permissions
  {
    assert RowApplies(known, rows, r, session);
    assert RowGrants(known, rows, session, r.permission.value);
    assert Effective(known, rows, session, policy, r.permission.value);
  }

  /** What is reported as pending is never harder to meet than any applicable grant that is withheld, nor than the
      master role's own policy: of lower assurance, or of the same and valid for as long. */
  lemma PendingIsEasiest(known: set<Permission>, rows: set<Row>, session: Context, policy: map<Permission, int>,
                         permissions: set<Permission>, pending: map<Permission, Requirement>, p: Permission)
    requires LoadsAs(known, rows, session, policy, permissions, pending) && p in pending
    ensures forall r :: RowApplies(known, rows, r, session) && r.permission == Some(p)
                        && !Fresh(session, RowMinimum(r), r.window) ==>
              || Rank(pending[p].assurance) < Rank(RowMinimum(r))
              || (Rank(pending[p].assurance) == Rank(RowMinimum(r)) && pending[p].withinMinutes >= r.window.value)
    ensures IsMaster(rows, session) && p in known && p in policy
            && !Fresh(session, StrongMFA, Some(policy[p])) ==>
              || Rank(pending[p].assurance) < Rank(StrongMFA)
              || (pending[p].assurance == StrongMFA && pending[p].withinMinutes >= policy[p])
  {
    forall r | RowApplies(known, rows, r, session) && r.permission == Some(p)
               && !Fresh(session, RowMinimum(r), r.window)
      ensures || Rank(pending[p].assurance) < Rank(RowMinimum(r))
              || (Rank(pending[p].assurance) == Rank(RowMinimum(r)) && pending[p].withinMinutes >= r.window.value)
    {
      var q := Requirement(RowMinimum(r), r.window.value);
      assert RowWithholds(known, rows, session, p, q);
      assert Withheld(known, rows, session, policy, p, q);
    }
    if IsMaster(rows, session) && p in known && p in policy && !Fresh(session, StrongMFA, Some(policy[p])) {
      assert Withheld(known, rows, session, policy, p, Requirement(StrongMFA, policy[p]));
    }
  }

  lemma EasiestIsUnique(known: set<Permission>, rows: set<Row>, session: Context, policy: map<Permission, int>,
                        p: Permission, q: Requirement, q': Requirement)
    requires Easiest(known, rows, session, policy, p, q) && Easiest(known, rows, session, policy, p, q')
    ensures q == q'
  {
    assert ValidAssurance(q.assurance) && ValidAssurance(q'.assurance);
  }

  predicate Has(known: set<Permission>, p: Loaded, permission: Permission) {
    && permission in known
    && (permission in p.permissions || (permission !in p.pending && p.master))
  }

  /** For a loaded principal the master fallback of Has adds nothing: Has answers exactly the effective set. */
  lemma HasIsEffective(known: set<Permission>, rows: set<Row>, policy: map<Permission, int>, p: Loaded,
                       permission: Permission)
    requires LoadsAs(known, rows, p.session, policy, p.permissions, p.pending)
    requires p.master ==> IsMaster(rows, p.session)
    ensures Has(known, p, permission) <==> Effective(known, rows, p.session, policy, permission)
  {
    if permission in known && p.master && permission !in p.permissions {
      var q := Requirement(StrongMFA, policy[permission]);
      assert Withheld(known, rows, p.session, policy, permission, q);
    }
  }

  /** The permission checks of one request that failed only for want of a fresh sign-in. */
  class ReauthenticationDenials {
    var permissions: seq<Permission>
    var easiest: Option<Requirement>
    ghost var requirements: seq<Requirement>

    /** What is offered to the client: a requirement of some failed check, and none of them is easier. */
    ghost predicate Valid()
      reads this
    {
      && |requirements| == |permissions|
      && (easiest.None? <==> requirements == [])
      && (easiest.Some? ==>
            && easiest.value in requirements
            && forall q :: q in requirements ==>
                 || Rank(easiest.value.assurance) < Rank(q.assurance)
                 || (Rank(easiest.value.assurance) == Rank(q.assurance)
                     && easiest.value.withinMinutes >= q.withinMinutes))
    }

    constructor ()
      ensures Valid() && permissions == []
    {
      permissions, easiest, requirements := [], None, [];
    }

    method Record(permission: Permission, q: Requirement)
      requires Valid()
      modifies this
      ensures Valid() && permissions == old(permissions) + [permission] && requirements == old(requirements) + [q]
    {
      permissions := permissions + [permission];
      requirements := requirements + [q];
      if easiest.None? || Easier(q, easiest.value) {
        easiest := Some(q);
      }
    }

    /** Principal.Has: answers the check and records a denial that a fresh sign-in would have lifted. */
    method Check(known: set<Permission>, p: Loaded, permission: Permission) returns (has: bool)
      requires Valid()
      modifies this
      ensures Valid() && has == Has(known, p, permission)
      ensures var denied := permission in known && permission !in p.permissions && permission in p.pending;
              && permissions == old(permissions) + (if denied then [permission] else [])
              && requirements == old(requirements) + (if denied then [p.pending[permission]] else [])
    {
      if permission !in known {
        return false;
      }
      if permission in p.permissions {
        return true;
      }
      if permission in p.pending {
        Record(permission, p.pending[permission]);
        return false;
      }
      return p.master;
    }
  }
}
