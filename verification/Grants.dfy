/** Conditional permission grants: when a grant admits a request, and which grants may be delegated. */
module Grants {
  import opened Options

  type Permission = string
  type DeviceType = nat

  datatype Assurance = Low | Normal | Strong | StrongMFA | InvalidAssurance(text: string)

  datatype Scope = Everywhere | AnyManagedDevice | SelectedDeviceTypes | InvalidScope(text: string)

  datatype Grant = Grant(
    id: nat,
    permission: Permission,
    scope: Scope,
    deviceTypes: seq<DeviceType>,
    minimum: Assurance,
    window: Option<int>)

  /** A request: the session's assurance, the assurance its last sign-in proved, the age of that sign-in in nanoseconds
      (None when it never happened) and the managed device's type, if any. */
  datatype Context = Context(assurance: Assurance, authenticated: Assurance, age: Option<int>,
      device: Option<DeviceType>)

  datatype Principal = Principal(master: bool, grants: map<Permission, seq<Grant>>)

  const MIN_WINDOW := 1
  const MAX_WINDOW := 1440
  const MINUTE := 60_000_000_000

  function Rank(a: Assurance): int {
    match a
    case Low => 0
    case Normal => 1
    case Strong => 2
    case StrongMFA => 3
    case InvalidAssurance(_) => -1
  }

  predicate ValidAssurance(a: Assurance) { Rank(a) >= 0 }

  predicate ValidScope(s: Scope) { !s.InvalidScope? }

  predicate ValidWindow(w: Option<int>) { w.Some? ==> MIN_WINDOW <= w.value <= MAX_WINDOW }

  /** The assurance proven by the last sign-in; an unset value means the session's assurance. */
  function Proof(c: Context): Assurance {
    if ValidAssurance(c.authenticated) then c.authenticated else c.assurance
  }

  predicate GrantEffective(known: set<Permission>, g: Grant, assurance: Assurance, device: Option<DeviceType>) {
    && g.permission in known
    && ValidScope(g.scope) && ValidAssurance(g.minimum) && ValidAssurance(assurance) && ValidWindow(g.window)
    && Rank(assurance) >= Rank(g.minimum)
    && (g.scope == Everywhere
        || (device.Some? && (g.scope == AnyManagedDevice || device.value in g.deviceTypes)))
  }

  predicate FreshProof(proof: Assurance, age: Option<int>, minimum: Assurance, maximumAge: int) {
    && ValidAssurance(minimum) && Rank(proof) >= Rank(minimum)
    && age.Some? && 0 <= age.value <= maximumAge
  }

  predicate Fresh(c: Context, minimum: Assurance, window: Option<int>) {
    window.Some? ==> FreshProof(Proof(c), c.age, minimum, window.value * MINUTE)
  }

  /** The grant is effective in the request and its fresh-sign-in window is met. */
  predicate Admits(known: set<Permission>, g: Grant, c: Context) {
    GrantEffective(known, g, c.assurance, c.device) && Fresh(c, g.minimum, g.window)
  }

  ghost predicate Granted(known: set<Permission>, held: seq<Grant>, c: Context) {
    exists i :: 0 <= i < |held| && Admits(known, held[i], c)
  }

  predicate CoveredBy(envelope: Grant, requested: Grant, selected: DeviceType) {
    && ValidScope(envelope.scope) && ValidAssurance(envelope.minimum)
    && Rank(envelope.minimum) <= Rank(requested.minimum)
    && (envelope.window.Some? ==> requested.window.Some? && requested.window.value <= envelope.window.value)
    && match requested.scope {
         case Everywhere => envelope.scope == Everywhere
         case AnyManagedDevice => envelope.scope == Everywhere || envelope.scope == AnyManagedDevice
         case SelectedDeviceTypes =>
           envelope.scope == Everywhere || envelope.scope == AnyManagedDevice || selected in envelope.deviceTypes
         case InvalidScope(_) => false
       }
  }

  /** The checks of the requested grant itself. */
  predicate WellFormed(g: Grant) {
    && ValidScope(g.scope) && (g.scope == SelectedDeviceTypes ==> g.deviceTypes != [])
    && ValidAssurance(g.minimum) && ValidWindow(g.window)
  }

  predicate SomeCovers(held: seq<Grant>, g: Grant, selected: DeviceType) {
    exists i :: 0 <= i < |held| && CoveredBy(held[i], g, selected)
  }

  function Held(p: Principal, permission: Permission): seq<Grant> {
    if permission in p.grants then p.grants[permission] else []
  }

  /** What CanDelegate decides over the grants held for the requested permission. */
  predicate Covers(held: seq<Grant>, g: Grant) {
    if g.scope != SelectedDeviceTypes then SomeCovers(held, g, 0)
    else forall k :: 0 <= k < |g.deviceTypes| ==> SomeCovers(held, g, g.deviceTypes[k])
  }

  predicate Delegable(p: Principal, g: Grant) {
    WellFormed(g) && (p.master || Covers(Held(p, g.permission), g))
  }

  /** One search through the envelopes, as each inner loop of CanDelegate does. */
  method AnyCovers(held: seq<Grant>, g: Grant, selected: DeviceType) returns (covered: bool)
    ensures covered == SomeCovers(held, g, selected)
  {
    covered := false;
    for i := 0 to |held|
      invariant !covered
      invariant forall j :: 0 <= j < i ==> !CoveredBy(held[j], g, selected)
    {
      if CoveredBy(held[i], g, selected) {
        return true;
      }
    }
  }

  method CanDelegate(p: Principal, g: Grant) returns (ok: bool)
    ensures ok == Delegable(p, g)
  {
    if !ValidScope(g.scope) || (g.scope == SelectedDeviceTypes && |g.deviceTypes| == 0) {
      return false;
    }
    if !ValidAssurance(g.minimum) || !ValidWindow(g.window) {
      return false;
    }
    if p.master {
      return true;
    }
    var envelopes := Held(p, g.permission);
    if g.scope != SelectedDeviceTypes {
      ok := AnyCovers(envelopes, g, 0);
      return;
    }
    for k := 0 to |g.deviceTypes|
      invariant forall j :: 0 <= j < k ==> SomeCovers(envelopes, g, g.deviceTypes[j])
    {
      var covered := AnyCovers(envelopes, g, g.deviceTypes[k]);
      if !covered {
        return false;
      }
    }
    return true;
  }

  /** CanDelegate's checks of the requested grant itself let through exactly the grants that some request could use. */
  lemma WellFormedIsUsable(g: Grant)
    ensures WellFormed(g) <==> exists c :: Admits({g.permission}, g, c)
    ensures WellFormed(g) ==> (g.window.Some? ==> 1 <= g.window.value <= 1440)
  {
    if WellFormed(g) {
      var device := if g.deviceTypes == [] then 0 else g.deviceTypes[0];
      assert Admits({g.permission}, g, Context(g.minimum, g.minimum, Some(0), Some(device)));
    }
  }

  /* ---------- Delegation is exact ---------- */

  ghost predicate Contained(known: set<Permission>, held: seq<Grant>, g: Grant) {
    forall c :: Admits(known, g, c) ==> Granted(known, held, c)
  }

  ghost predicate HeldFor(held: seq<Grant>, permission: Permission) {
    forall i :: 0 <= i < |held| ==> held[i].permission == permission
  }

  /** The upper half of the stored window's bounds; the lower half is not needed. */
  predicate InBounds(g: Grant) { g.window.Some? ==> g.window.value <= MAX_WINDOW }

  ghost predicate AllInBounds(held: seq<Grant>) {
    forall i :: 0 <= i < |held| ==> InBounds(held[i])
  }

  /** A device type that no held grant lists. */
  function Unlisted(held: seq<Grant>): (d: DeviceType)
    ensures forall i, k :: 0 <= i < |held| && 0 <= k < |held[i].deviceTypes| ==> held[i].deviceTypes[k] < d
  {
    if held == [] then 0 else
      var rest := Unlisted(held[..|held| - 1]);
      var last := Above(held[|held| - 1].deviceTypes);
      if rest > last then rest else last
  }

  function Above(types: seq<DeviceType>): (d: DeviceType)
    ensures forall k :: 0 <= k < |types| ==> types[k] < d
  {
    if types == [] then 0 else
      var rest := Above(types[..|types| - 1]);
      if rest > types[|types| - 1] then rest else types[|types| - 1] + 1
  }

  /** The weakest request a grant still admits: minimum assurance, the oldest sign-in of its window (none at all without
      a window), on the given device. */
  function Weakest(g: Grant, device: Option<DeviceType>): Context {
    Context(g.minimum, g.minimum, if g.window.Some? then Some(g.window.value * MINUTE) else None, device)
  }

  lemma CoverageAdmits(known: set<Permission>, e: Grant, g: Grant, selected: DeviceType, c: Context)
    requires CoveredBy(e, g, selected) && e.permission == g.permission && InBounds(e)
    requires g.scope == SelectedDeviceTypes ==> c.device == Some(selected)
    requires Admits(known, g, c)
    ensures Admits(known, e, c)
  {
  }

  lemma WeakestIsDecisive(known: set<Permission>, e: Grant, g: Grant, device: Option<DeviceType>, selected: DeviceType)
    requires WellFormed(g) && Admits(known, e, Weakest(g, device))
    requires match g.scope {
               case Everywhere => device == None
               case AnyManagedDevice => device.Some? && device.value !in e.deviceTypes
               case _ => device == Some(selected)
             }
    ensures CoveredBy(e, g, selected)
  {
  }

  /** CanDelegate decides containment: it accepts exactly the grants that admit no request the held grants refuse. */
  lemma DelegationIsExact(known: set<Permission>, held: seq<Grant>, g: Grant)
    requires WellFormed(g) && g.permission in known
    requires HeldFor(held, g.permission) && AllInBounds(held)
    ensures Covers(held, g) <==> Contained(known, held, g)
  {
    if Covers(held, g) {
      forall c | Admits(known, g, c) ensures Granted(known, held, c) {
        var selected := if g.scope == SelectedDeviceTypes then c.device.value else 0;
        if g.scope == SelectedDeviceTypes {
          var k :| 0 <= k < |g.deviceTypes| && g.deviceTypes[k] == selected;
        }
        assert SomeCovers(held, g, selected);
        var i :| 0 <= i < |held| && CoveredBy(held[i], g, selected);
        CoverageAdmits(known, held[i], g, selected, c);
      }
    }
    if Contained(known, held, g) {
      if g.scope == SelectedDeviceTypes {
        forall k | 0 <= k < |g.deviceTypes| ensures SomeCovers(held, g, g.deviceTypes[k]) {
          ContainmentCovers(known, held, g, Some(g.deviceTypes[k]), g.deviceTypes[k]);
        }
      } else {
        ContainmentCovers(known, held, g, if g.scope == Everywhere then None else Some(Unlisted(held)), 0);
      }
    }
  }

  lemma ContainmentCovers(known: set<Permission>, held: seq<Grant>, g: Grant, device: Option<DeviceType>,
                          selected: DeviceType)
    requires WellFormed(g) && g.permission in known && Contained(known, held, g)
    requires match g.scope {
               case Everywhere => device == None
               case AnyManagedDevice => device == Some(Unlisted(held))
               case _ => device == Some(selected) && selected in g.deviceTypes
             }
    ensures SomeCovers(held, g, selected)
  {
    var c := Weakest(g, device);
    assert Admits(known, g, c);
    assert Granted(known, held, c);
    var i :| 0 <= i < |held| && Admits(known, held[i], c);
    WeakestIsDecisive(known, held[i], g, device, selected);
  }

  /* ---------- Windows beyond the bound: where exactness fails ---------- */

  /** An effective envelope in all but its window, which lies beyond the bound and so never admits anything. */
  predicate Oversize(e: Grant) {
    && !InBounds(e) && ValidScope(e.scope) && ValidAssurance(e.minimum)
    && (e.scope == SelectedDeviceTypes ==> e.deviceTypes != [])
  }

  function WithinBounds(held: seq<Grant>): (r: seq<Grant>)
    ensures AllInBounds(r)
    ensures forall e :: e in r <==> e in held && InBounds(e)
  {
    if held == [] then []
    else if InBounds(held[0]) then [held[0]] + WithinBounds(held[1..])
    else WithinBounds(held[1..])
  }

  /** The widest grant an oversize envelope lets its holder hand out. */
  function Widest(e: Grant): Grant { e.(window := Some(MAX_WINDOW)) }

  lemma OversizeNeverAdmits(known: set<Permission>, held: seq<Grant>, c: Context)
    ensures Granted(known, held, c) <==> Granted(known, WithinBounds(held), c)
  {
    if Granted(known, held, c) {
      var i :| 0 <= i < |held| && Admits(known, held[i], c);
      assert held[i] in WithinBounds(held);
    }
    if Granted(known, WithinBounds(held), c) {
      var i :| 0 <= i < |WithinBounds(held)| && Admits(known, WithinBounds(held)[i], c);
      assert WithinBounds(held)[i] in held;
    }
  }

  lemma CoverageIsTransitive(held: seq<Grant>, e: Grant, g: Grant, selected: DeviceType)
    requires WellFormed(g) && Oversize(e) && CoveredBy(e, g, selected) && Covers(held, Widest(e))
    ensures SomeCovers(held, g, selected)
  {
    var w := Widest(e);
    if e.scope == SelectedDeviceTypes {
      var k :| 0 <= k < |e.deviceTypes| && e.deviceTypes[k] == selected;
      assert SomeCovers(held, w, w.deviceTypes[k]);
      var i :| 0 <= i < |held| && CoveredBy(held[i], w, selected);
      assert CoveredBy(held[i], g, selected);
    } else {
      assert SomeCovers(held, w, 0);
      var i :| 0 <= i < |held| && CoveredBy(held[i], w, 0);
      assert CoveredBy(held[i], g, selected);
    }
  }

  lemma OversizeCoversItsWidest(held: seq<Grant>, i: nat)
    requires i < |held| && Oversize(held[i])
    ensures Covers(held, Widest(held[i]))
  {
    var w := Widest(held[i]);
    if w.scope == SelectedDeviceTypes {
      forall k | 0 <= k < |w.deviceTypes| ensures SomeCovers(held, w, w.deviceTypes[k]) {
        assert CoveredBy(held[i], w, w.deviceTypes[k]);
      }
    } else {
      assert CoveredBy(held[i], w, 0);
    }
  }

  lemma CoverageSplits(held: seq<Grant>, g: Grant, selected: DeviceType)
    requires WellFormed(g) && SomeCovers(held, g, selected)
    requires forall i :: 0 <= i < |held| && Oversize(held[i]) ==> Covers(WithinBounds(held), Widest(held[i]))
    requires g.scope == SelectedDeviceTypes ==> selected in g.deviceTypes
    ensures SomeCovers(WithinBounds(held), g, selected)
  {
    var i :| 0 <= i < |held| && CoveredBy(held[i], g, selected);
    if InBounds(held[i]) {
      assert held[i] in WithinBounds(held);
    } else {
      CoverageIsTransitive(WithinBounds(held), held[i], g, selected);
    }
  }

  /** The exact boundary of the previous theorem: with arbitrary stored windows CanDelegate stays exact for every
      requested grant if and only if what each oversize envelope could hand out at the longest allowed window is already
      covered by the envelopes within the bound. */
  lemma ExactIffOversizeIsRedundant(known: set<Permission>, held: seq<Grant>, permission: Permission)
    requires permission in known && HeldFor(held, permission)
    ensures (forall g :: WellFormed(g) && g.permission == permission ==>
               (Covers(held, g) <==> Contained(known, held, g)))
            <==> (forall i :: 0 <= i < |held| && Oversize(held[i]) ==> Covers(WithinBounds(held), Widest(held[i])))
  {
    var bounded := WithinBounds(held);
    assert HeldFor(bounded, permission) by {
      forall i | 0 <= i < |bounded| ensures bounded[i].permission == permission {
        assert bounded[i] in held;
      }
    }
    forall g | WellFormed(g) && g.permission == permission
      ensures Contained(known, held, g) <==> Covers(bounded, g)
    {
      DelegationIsExact(known, bounded, g);
      forall c ensures Granted(known, held, c) <==> Granted(known, bounded, c) {
        OversizeNeverAdmits(known, held, c);
      }
    }
    if forall g :: WellFormed(g) && g.permission == permission ==> (Covers(held, g) <==> Contained(known, held, g)) {
      forall i | 0 <= i < |held| && Oversize(held[i]) ensures Covers(bounded, Widest(held[i])) {
        OversizeCoversItsWidest(held, i);
        assert WellFormed(Widest(held[i]));
      }
    }
    if forall i :: 0 <= i < |held| && Oversize(held[i]) ==> Covers(bounded, Widest(held[i])) {
      forall g | WellFormed(g) && g.permission == permission ensures Covers(held, g) <==> Covers(bounded, g) {
        RedundantOversize(held, g);
      }
    }
  }

  lemma RedundantOversize(held: seq<Grant>, g: Grant)
    requires WellFormed(g)
    requires forall i :: 0 <= i < |held| && Oversize(held[i]) ==> Covers(WithinBounds(held), Widest(held[i]))
    ensures Covers(held, g) <==> Covers(WithinBounds(held), g)
  {
    var bounded := WithinBounds(held);
    forall selected | SomeCovers(bounded, g, selected) ensures SomeCovers(held, g, selected) {
      var i :| 0 <= i < |bounded| && CoveredBy(bounded[i], g, selected);
      assert bounded[i] in held;
    }
    if Covers(held, g) {
      if g.scope == SelectedDeviceTypes {
        forall k | 0 <= k < |g.deviceTypes| ensures SomeCovers(bounded, g, g.deviceTypes[k]) {
          CoverageSplits(held, g, g.deviceTypes[k]);
        }
      } else {
        CoverageSplits(held, g, 0);
      }
    }
  }

  /** A stored window of 2000 minutes breaks exactness: the holder can hand out a grant nobody could use before. The
      database's CHECK on the column refuses such a window; nothing between it and CanDelegate does. */
  lemma OversizeWindowBreaksExactness()
    ensures var e := Grant(1, "orders.read", Everywhere, [], Normal, Some(2000));
            var g := Grant(2, "orders.read", Everywhere, [], Normal, Some(60));
            Covers([e], g) && !Contained({"orders.read"}, [e], g)
  {
    var e := Grant(1, "orders.read", Everywhere, [], Normal, Some(2000));
    var g := Grant(2, "orders.read", Everywhere, [], Normal, Some(60));
    assert CoveredBy([e][0], g, 0);
    assert Admits({"orders.read"}, g, Weakest(g, None));
  }

  /** CanDelegate accepts a grant exactly when some request could use it and, unless the delegator is master, every
      request that can is one that the delegator's own grants admit. */
  lemma DelegableExactlyWhen(known: set<Permission>, p: Principal, g: Grant)
    requires g.permission in known && HeldFor(Held(p, g.permission), g.permission)
    requires AllInBounds(Held(p, g.permission))
    ensures Delegable(p, g) <==>
              && (exists c :: Admits({g.permission}, g, c))
              && (p.master || forall c :: Admits(known, g, c) ==> Granted(known, Held(p, g.permission), c))
  {
    WellFormedIsUsable(g);
    hide Admits, Covers, HeldFor, Granted;
    if WellFormed(g) {
      DelegationIsExact(known, Held(p, g.permission), g);
    }
  }

  /* ---------- Chains of delegation ---------- */

  /** Every grant of the next holder was accepted by CanDelegate for the previous one, who is no master. */
  ghost predicate DelegatedFrom(previous: seq<Grant>, next: seq<Grant>, permission: Permission) {
    && HeldFor(next, permission)
    && forall i :: 0 <= i < |next| ==> Delegable(Principal(false, map[permission := previous]), next[i])
  }

  /** No chain of delegations, however long, admits a request that its first holder's grants refuse. */
  lemma {:induction false} ChainsNeverWiden(known: set<Permission>, permission: Permission, chain: seq<seq<Grant>>,
                                        c: Context)
    requires permission in known && chain != []
    requires HeldFor(chain[0], permission) && AllInBounds(chain[0])
    requires forall k :: 0 <= k < |chain| - 1 ==> DelegatedFrom(chain[k], chain[k + 1], permission)
    requires Granted(known, chain[|chain| - 1], c)
    ensures Granted(known, chain[0], c)
    decreases |chain|
  {
    if |chain| > 1 {
      var rest := chain[..|chain| - 1];
      var last, before := chain[|chain| - 1], chain[|chain| - 2];
      assert DelegatedFrom(chain[|chain| - 2], chain[|chain| - 2 + 1], permission);
      assert HeldFor(before, permission) && AllInBounds(before) by {
        if |chain| > 2 {
          assert DelegatedFrom(chain[|chain| - 3], chain[|chain| - 3 + 1], permission);
        }
      }
      var i :| 0 <= i < |last| && Admits(known, last[i], c);
      DelegationIsExact(known, before, last[i]);
      assert Contained(known, before, last[i]);
      forall k | 0 <= k < |rest| - 1 ensures DelegatedFrom(rest[k], rest[k + 1], permission) {
        assert DelegatedFrom(chain[k], chain[k + 1], permission);
      }
      ChainsNeverWiden(known, permission, rest, c);
    }
  }
}
