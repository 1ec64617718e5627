/** Signing in again within a session, and what it does to the permissions of that session. */
module Reauthentication {
  import opened Options
  import opened Grants
  import opened PrincipalLoading

  /** How long a raise above the session's base assurance lasts: five minutes, in nanoseconds. */
  const SENSITIVE_AGE := 5 * MINUTE

  datatype SessionRow = SessionRow(base: Assurance, current: Assurance, authenticated: Assurance, authenticatedAt: int,
      expiresAt: Option<int>)

  predicate Expired(row: SessionRow, now: int) { row.expiresAt.Some? && row.expiresAt.value <= now }

  function AssuranceAt(row: SessionRow, now: int): Assurance { if Expired(row, now) then row.base else row.current }

  function ContextAt(row: SessionRow, device: Option<DeviceType>, now: int): Context {
    Context(AssuranceAt(row, now), row.authenticated, Some(now - row.authenticatedAt), device)
  }

  predicate HasFreshAssurance(c: Context, minimum: Assurance, maximumAge: int) {
    Rank(c.assurance) >= Rank(minimum) && FreshProof(Proof(c), c.age, minimum, maximumAge)
  }

  /** The proof is at least a normal sign-in and recent enough to be recorded. */
  predicate Recordable(proof: Assurance, at: int, now: int) {
    HasFreshAssurance(Context(proof, proof, Some(now - at), None), Normal, SENSITIVE_AGE)
  }

  /** The session row after a recorded proof. */
  function Recorded(row: SessionRow, proof: Assurance, at: int): SessionRow {
    if proof == StrongMFA then SessionRow(StrongMFA, StrongMFA, StrongMFA, at, None)
    else if AtLeast(row.base, proof) then SessionRow(row.base, row.base, proof, at, None)
    else SessionRow(row.base, proof, proof, at, Some(at + SENSITIVE_AGE))
  }

  predicate AtLeast(value: Assurance, minimum: Assurance) {
    ValidAssurance(value) && ValidAssurance(minimum) && Rank(value) >= Rank(minimum)
  }

  class Session {
    var base: Assurance
    var current: Assurance
    var authenticated: Assurance
    var authenticatedAt: int
    var expiresAt: Option<int>

    function Row(): SessionRow
      reads this
    {
      SessionRow(base, current, authenticated, authenticatedAt, expiresAt)
    }

    constructor (row: SessionRow)
      ensures Row() == row
    {
      base, current, authenticated, authenticatedAt, expiresAt := row.base, row.current, row.authenticated,
          row.authenticatedAt, row.expiresAt;
    }

    /** Records a proof; false is the refusal asking for a fresh sign-in, which leaves the session alone. */
    method GrantRecentAuthentication(proof: Assurance, at: int, now: int) returns (granted: bool)
      modifies this
      ensures granted <==> Recordable(proof, at, now)
      ensures Row() == if granted then Recorded(old(Row()), proof, at) else old(Row())
      ensures granted <==> proof in {Normal, Strong, StrongMFA} && 0 <= now - at <= 5 * 60 * 1_000_000_000
      ensures granted ==> authenticated == proof && authenticatedAt == at
      ensures granted && proof == StrongMFA ==> base == StrongMFA && current == StrongMFA && expiresAt == None
      ensures granted && proof != StrongMFA ==> base == old(base)
      ensures granted && proof != StrongMFA && ValidAssurance(base) ==>
                if Rank(base) >= Rank(proof) then current == base && expiresAt == None
                else current == proof && expiresAt == Some(at + 5 * 60 * 1_000_000_000)
    {
      if !Recordable(proof, at, now) {
        return false;
      }
      if proof == StrongMFA {
        base, current, authenticated := StrongMFA, StrongMFA, StrongMFA;
        authenticatedAt, expiresAt := at, None;
        return true;
      }
      var raised, until := base, None;
      if !AtLeast(base, proof) {
        raised, until := proof, Some(at + SENSITIVE_AGE);
      }
      current, authenticated, authenticatedAt, expiresAt := raised, proof, at, until;
      return true;
    }

    /** The principal's session as a sensitive operation sees it; None asks for a fresh sign-in. */
    method ForSensitiveOperation(device: Option<DeviceType>, requireRecent: bool, now: int) returns (c: Option<Context>)
      ensures c.Some? ==> c.value == ContextAt(Row(), device, now)
      ensures c.None? <==>
                requireRecent
                && (Expired(Row(), now) || !HasFreshAssurance(ContextAt(Row(), device, now), Normal, SENSITIVE_AGE))
      ensures ValidAssurance(authenticated) ==>
                (c.Some? <==>
                   || !requireRecent
                   || ((expiresAt.Some? ==> now < expiresAt.value)
                       && Rank(current) >= Rank(Normal) && Rank(authenticated) >= Rank(Normal)
                       && 0 <= now - authenticatedAt <= 5 * 60 * 1_000_000_000))
      ensures c.Some? ==>
                && c.value.assurance == (if expiresAt.Some? && expiresAt.value <= now then base else current)
                && c.value.authenticated == authenticated && c.value.age == Some(now - authenticatedAt)
                && c.value.device == device
    {
      var assurance := current;
      var expired := expiresAt.Some? && !(expiresAt.value > now);
      if expired {
        assurance := base;
      }
      var principal := Context(assurance, authenticated, Some(now - authenticatedAt), device);
      if requireRecent && (expired || !HasFreshAssurance(principal, Normal, SENSITIVE_AGE)) {
        return None;
      }
      return Some(principal);
    }
  }

  /** A session as the service stores it: a valid base, never above the current assurance. */
  predicate ValidRow(row: SessionRow) { ValidAssurance(row.base) && AtLeast(row.current, row.base) }

  /** No recorded proof takes a session below its base, and the base itself only rises. */
  lemma NeverBelowBase(row: SessionRow, proof: Assurance, at: int, now: int, later: int)
    requires ValidRow(row) && Recordable(proof, at, now)
    ensures ValidRow(Recorded(row, proof, at))
    ensures AtLeast(Recorded(row, proof, at).base, row.base)
    ensures AtLeast(AssuranceAt(Recorded(row, proof, at), later), row.base)
  {
  }

  /** Whatever was withheld for want of a sign-in becomes effective by a sign-in that meets the reported requirement,
      for as long as that sign-in stays inside the requirement's window and either its raise has not expired or the
      session's base suffices. */
  lemma ReauthenticationUnlocks(known: set<Permission>, rows: set<Row>, policy: map<Permission, int>, before: Context,
                                permissions: set<Permission>, pending: map<Permission, Requirement>, p: Permission,
                                row: SessionRow, proof: Assurance, at: int, now: int, later: int,
                                permissions': set<Permission>, pending': map<Permission, Requirement>)
    requires LoadsAs(known, rows, before, policy, permissions, pending) && p in pending
    requires ValidRow(row) && Recordable(proof, at, now) && AtLeast(proof, pending[p].assurance)
    requires at <= later <= at + pending[p].withinMinutes * MINUTE
    requires Expired(Recorded(row, proof, at), later) ==> AtLeast(row.base, pending[p].assurance)
    requires LoadsAs(known, rows, ContextAt(Recorded(row, proof, at), before.device, later), policy, permissions',
        pending')
    ensures p in permissions' && p !in pending'
  {
    var q := pending[p];
    var after := ContextAt(Recorded(row, proof, at), before.device, later);
    assert AtLeast(after.assurance, q.assurance);
    if RowWithholds(known, rows, before, p, q) {
      var r :| && RowApplies(known, rows, r, before) && r.permission == Some(p)
               && !Fresh(before, RowMinimum(r), r.window) && q == Requirement(RowMinimum(r), r.window.value);
      assert RowApplies(known, rows, r, after) && Fresh(after, RowMinimum(r), r.window);
      assert RowGrants(known, rows, after, p);
    } else {
      assert MasterGrants(known, rows, after, policy, p);
    }
    assert Effective(known, rows, after, policy, p);
  }

  /** What a recorded proof makes of the session's assurance: a second factor raises it for good, another proof above
      the base for five minutes, and one up to the base leaves it at the base. */
  lemma AssuranceAfterProof(row: SessionRow, proof: Assurance, at: int, now: int, later: int)
    requires ValidRow(row) && Recordable(proof, at, now)
    ensures AssuranceAt(Recorded(row, proof, at), later) ==
            if proof == StrongMFA then StrongMFA
            else if Rank(proof) > Rank(row.base) && later < at + 5 * 60 * 1_000_000_000 then proof
            else row.base
  {
  }

  /** The present sign-in satisfies a window: it proves the assurance and was made within the window. */
  predicate ProvenWithin(proof: Assurance, at: int, later: int, minimum: Assurance, minutes: int) {
    Rank(proof) >= Rank(minimum) && at <= later <= at + minutes * 60 * 1_000_000_000
  }

  /** After a recorded proof a permission is effective exactly when an applicable grant of it has no window or one that
      this proof satisfies, or the master role gives it without a policy or within its policy's window. No earlier
      sign-in, and no base assurance, counts. */
  lemma EffectiveAfterProof(known: set<Permission>, rows: set<Row>, policy: map<Permission, int>,
                            device: Option<DeviceType>, p: Permission, row: SessionRow, proof: Assurance, at: int,
                            now: int, later: int, permissions: set<Permission>, pending: map<Permission, Requirement>)
    requires ValidRow(row) && Recordable(proof, at, now)
    requires LoadsAs(known, rows, ContextAt(Recorded(row, proof, at), device, later), policy, permissions, pending)
    ensures var session := ContextAt(Recorded(row, proof, at), device, later);
            p in permissions <==>
              || (exists r ::
                    && RowApplies(known, rows, r, session) && r.permission == Some(p)
                    && (r.window.Some? ==> ProvenWithin(proof, at, later, RowMinimum(r), r.window.value)))
              || (IsMaster(rows, session) && p in known
                  && (p in policy ==> ProvenWithin(proof, at, later, StrongMFA, policy[p])))
  {
    var session := ContextAt(Recorded(row, proof, at), device, later);
    assert Proof(session) == proof && session.age == Some(later - at);
    forall r | RowApplies(known, rows, r, session)
      ensures Fresh(session, RowMinimum(r), r.window) <==>
                (r.window.Some? ==> ProvenWithin(proof, at, later, RowMinimum(r), r.window.value))
    {
    }
    assert p in policy ==> (Fresh(session, StrongMFA, Some(policy[p])) <==>
                              ProvenWithin(proof, at, later, StrongMFA, policy[p]));
    hide Recorded, RowApplies, Fresh, ProvenWithin, IsMaster, Withheld, Easiest;
    assert p in permissions <==> Effective(known, rows, session, policy, p);
  }

  /** So a proof below what every withheld grant of a permission asks for does not make it effective. */
  lemma WeakProofUnlocksNothing(known: set<Permission>, rows: set<Row>, policy: map<Permission, int>,
                                device: Option<DeviceType>, p: Permission, row: SessionRow, proof: Assurance, at: int,
                                now: int, later: int, permissions: set<Permission>,
                                pending: map<Permission, Requirement>)
    requires ValidRow(row) && Recordable(proof, at, now)
    requires LoadsAs(known, rows, ContextAt(Recorded(row, proof, at), device, later), policy, permissions, pending)
    requires forall r :: r in rows && r.permission == Some(p) ==>
               r.window.Some? && Rank(proof) < Rank(RowMinimum(r))
    requires HoldsMasterRole(rows) ==> p in policy && proof != StrongMFA
    ensures p !in permissions
  {
    hide LoadsAs, Recorded;
    EffectiveAfterProof(known, rows, policy, device, p, row, proof, at, now, later, permissions, pending);
  }

  /** A proof lowers the session's present assurance exactly when it is not a second-factor proof and the session stands
      above its base by a raise that the new proof does not reach (or that lapses on the spot). */
  lemma LoweredExactlyWhen(row: SessionRow, proof: Assurance, at: int, now: int)
    requires ValidRow(row) && Recordable(proof, at, now)
    ensures Rank(AssuranceAt(Recorded(row, proof, at), now)) < Rank(AssuranceAt(row, now))
            <==> && proof != StrongMFA
                 && Rank(AssuranceAt(row, now)) > Rank(row.base)
                 && (Rank(AssuranceAt(row, now)) > Rank(proof) || now == at + SENSITIVE_AGE)
  {
  }

  /** A password sign-in ends a running raise to strong: the weaker proof does lower the session. */
  lemma WeakerProofCanLower()
    ensures var raised := SessionRow(Normal, Strong, Strong, 0, Some(SENSITIVE_AGE));
            && ValidRow(raised) && Recordable(Normal, 10, 20)
            && AssuranceAt(raised, 20) == Strong && AssuranceAt(Recorded(raised, Normal, 10), 20) == Normal
  {
  }

  datatype Proven = Proven(proof: Assurance, at: int)

  function RecordAll(row: SessionRow, proofs: seq<Proven>): SessionRow {
    if proofs == [] then row
    else var earlier := RecordAll(row, proofs[..|proofs| - 1]);
         Recorded(earlier, proofs[|proofs| - 1].proof, proofs[|proofs| - 1].at)
  }

  /** Once a second factor was proven the session stays at strong_mfa, at every time and whatever is proven later. */
  lemma {:induction false} SecondFactorIsForGood(row: SessionRow, proofs: seq<Proven>, k: nat, now: int)
    requires k < |proofs| && proofs[k].proof == StrongMFA
    requires forall i :: 0 <= i < |proofs| ==> ValidAssurance(proofs[i].proof)
    ensures AssuranceAt(RecordAll(row, proofs), now) == StrongMFA
    ensures RecordAll(row, proofs).base == StrongMFA
    decreases |proofs|
  {
    if k < |proofs| - 1 {
      SecondFactorIsForGood(row, proofs[..|proofs| - 1], k, now);
    }
  }

  /** Below a second factor the base never changes, so every raise is a loan: it is over five minutes after its proof.
      */
  lemma {:induction false} OtherRaisesLapse(row: SessionRow, proofs: seq<Proven>, now: int)
    requires ValidRow(row) && proofs != []
    requires forall i :: 0 <= i < |proofs| ==> ValidAssurance(proofs[i].proof) && proofs[i].proof != StrongMFA
    requires now >= proofs[|proofs| - 1].at + SENSITIVE_AGE
    ensures RecordAll(row, proofs).base == row.base
    ensures AssuranceAt(RecordAll(row, proofs), now) == row.base
    decreases |proofs|
  {
    if |proofs| > 1 {
      OtherRaisesLapse(row, proofs[..|proofs| - 1], proofs[|proofs| - 2].at + SENSITIVE_AGE);
    }
  }
}
