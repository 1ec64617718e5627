/** Every transaction takes its exclusive locks in the order person, master lock, account, and refers to its actor's
    account last. So in a wait cycle everybody is at that reference. */
module MasterLocking {
  import opened Options
  import opened MasterTransactions
  import opened MasterSafety

  predicate Locks(c: Statement) { c.LockPerson? || c.LockMaster? || c.LockAccount? || c.ReferToActor? }

  function StatementRank(c: Statement): nat {
    if c.LockPerson? then 0 else if c.LockMaster? then 1 else if c.LockAccount? then 2 else 3
  }

  function LockRank(l: Lock): nat {
    match l
    case PersonRow(_) => 0
    case MasterLock => 1
    case AccountRow(_) => 2
    case Reference(_, _) => 3
  }

  /** The lock order: person, then master lock, then account, then the reference to the actor, each at most once. */
  lemma LockOrder(p: Program, i: nat, j: nat)
    requires i < j < |Code(p)| && Locks(Code(p)[i]) && Locks(Code(p)[j])
    ensures StatementRank(Code(p)[i]) < StatementRank(Code(p)[j])
  {
  }

  /** One of the statements the transaction has executed takes the lock. */
  predicate Took(s: State, t: TxId, l: Lock)
    requires t in s.running
  {
    var tx := s.running[t];
    exists i :: 0 <= i < tx.pc && i < |Code(tx.program)| && l in Wants(s, t, Code(tx.program)[i])
  }

  /** Locks are held by running transactions only, each by a statement that takes it. */
  ghost predicate LocksOk(s: State) { forall l {:trigger Justified(s, l)} :: l in s.locks ==> Justified(s, l) }

  predicate Justified(s: State, l: Lock)
    requires l in s.locks
  {
    s.locks[l] in s.running && Took(s, s.locks[l], l)
  }

  ghost predicate Sound(s: State) { Inv(s) && LocksOk(s) }

  lemma StillWanted(s: State, s': State, t: TxId, c: Statement, l: Lock)
    requires Undisturbed(s, s', t) && Holds(s, t, l) && l in Wants(s, t, c)
    ensures l in Wants(s', t, c)
  {
    hide EnabledMasters;
  }

  lemma StillTook(s: State, s': State, t: TxId, l: Lock)
    requires Undisturbed(s, s', t) && Holds(s, t, l) && t in s.running && Took(s, t, l)
    requires t in s'.running && s'.running[t].program == s.running[t].program && s'.running[t].pc >= s.running[t].pc
    ensures Took(s', t, l)
  {
    hide Undisturbed, Code, Wants, Holds;
    var tx := s.running[t];
    var i :| 0 <= i < tx.pc && i < |Code(tx.program)| && l in Wants(s, t, Code(tx.program)[i]);
    StillWanted(s, s', t, Code(tx.program)[i], l);
    assert 0 <= i < s'.running[t].pc;
  }

  /** Nobody gets a lock by another one's step. */
  lemma HeldBefore(s: State, e: Event, s': State, l: Lock)
    requires Step(s, e) == Some(s') && l in s'.locks && s'.locks[l] != e.t
    ensures Holds(s, s'.locks[l], l)
    ensures s'.locks[l] in s.running ==>
              s'.locks[l] in s'.running && s'.running[s'.locks[l]] == s.running[s'.locks[l]]
  {
    hide Passes, Written, Wants, Code;
  }

  lemma ActorsLocksOk(s: State, t: TxId, s': State, l: Lock)
    requires Sound(s) && Step(s, Execute(t)) == Some(s') && Holds(s', t, l)
    ensures t in s'.running && Took(s', t, l)
  {
    hide Passes, Written, DatabaseOk, Code, Established, Rows;
    var tx := s.running[t];
    assert Knows(s, t) && Code(tx.program)[tx.pc] == Current(tx);
    assert !Current(tx).Commit?;
    if l in Wants(s, t, Current(tx)) {
      SameWants(s, s', t, Current(tx));
      assert 0 <= tx.pc < s'.running[t].pc;
    } else {
      hide Inv, Wants;
      assert Justified(s, l);
      var i :| 0 <= i < tx.pc && i < |Code(tx.program)| && l in Wants(s, t, Code(tx.program)[i]);
      SameWants(s, s', t, Code(tx.program)[i]);
      assert 0 <= i < s'.running[t].pc;
    }
  }

  lemma SameWants(s: State, s': State, t: TxId, c: Statement)
    requires s'.db == s.db && s'.owners == s.owners
    ensures Wants(s', t, c) == Wants(s, t, c) && Rows(s', c) == Rows(s, c)
  {
  }

  lemma StepKeepsSound(s: State, e: Event, s': State)
    requires Sound(s) && Step(s, e) == Some(s')
    ensures Sound(s')
  {
    hide Passes, Written, Took, Wants, Inv, Undisturbed, Holds, Step;
    StepKeepsInv(s, e, s');
    forall l | l in s'.locks ensures Justified(s', l) {
      var u := s'.locks[l];
      HoldsIt(s', u, l);
      if u != e.t {
        HeldBefore(s, e, s', l);
        HoldsIt(s, u, l);
        assert Justified(s, l);
        OthersUndisturbed(s, e, s', u);
        StillTook(s, s', u, l);
      } else {
        OnlyByExecuting(s, e, s', l);
        ActorsLocksOk(s, u, s', l);
      }
    }
  }

  lemma HoldsIt(s: State, t: TxId, l: Lock)
    ensures Holds(s, t, l) <==> l in s.locks && s.locks[l] == t
  {
  }

  lemma OnlyByExecuting(s: State, e: Event, s': State, l: Lock)
    requires LocksOk(s) && Step(s, e) == Some(s') && Holds(s', e.t, l)
    ensures e == Execute(e.t)
  {
    hide Passes, Written, Wants, Code, Took;
    assert l in s.locks ==> Justified(s, l);
  }

  lemma {:induction false} RunKeepsSound(s: State, events: seq<Event>, s': State)
    requires Sound(s) && Run(s, events) == Some(s')
    ensures Sound(s')
  {
    hide Step, Sound;
    if events != [] {
      var before := Run(s, events[..|events| - 1]).value;
      RunKeepsSound(s, events[..|events| - 1], before);
      StepKeepsSound(before, events[|events| - 1], s');
    }
  }

  /** No transaction runs and no lock is held. */
  predicate Quiet(s: State) { DatabaseOk(s) && s.running == map[] && s.locks == map[] }

  lemma ReachableIsSound(s: State, events: seq<Event>, s': State)
    requires Quiet(s) && Run(s, events) == Some(s')
    ensures Sound(s')
  {
    RunKeepsSound(s, events, s');
  }

  /* ---------- Waiting ---------- */

  /** The transaction's next statement needs a lock that another one keeps it from. */
  predicate WaitsFor(s: State, t: TxId, u: TxId) {
    t in s.running && exists l, h ::
      l in Wants(s, t, Current(s.running[t])) && h in s.locks && s.locks[h] == u && Blocks(h, u, t, l)
  }

  function WaitRank(s: State, t: TxId): nat
    requires t in s.running
  {
    StatementRank(Current(s.running[t]))
  }

  lemma WantsItsRank(s: State, t: TxId, c: Statement, l: Lock)
    requires l in Wants(s, t, c)
    ensures Locks(c) && LockRank(l) == StatementRank(c)
    ensures l.Reference? ==> l.holder == t && c == ReferToActor(l.account)
  {
  }

  /** A transaction at its next lock holds only locks that come earlier in the order. */
  lemma HoldsEarlier(s: State, t: TxId, l: Lock)
    requires t in s.running && s.running[t].pc < |Code(s.running[t].program)| && Took(s, t, l)
    ensures Locks(Current(s.running[t])) ==> LockRank(l) < WaitRank(s, t)
    ensures l.Reference? ==> l.holder == t
  {
    hide Code, Wants, LockRank, StatementRank, Locks;
    var tx := s.running[t];
    var i :| 0 <= i < tx.pc && i < |Code(tx.program)| && l in Wants(s, t, Code(tx.program)[i]);
    WantsItsRank(s, t, Code(tx.program)[i], l);
    if Locks(Current(tx)) {
      LockOrder(tx.program, i, tx.pc);
    }
  }

  lemma HolderTook(s: State, l: Lock)
    requires Sound(s) && l in s.locks
    ensures var t := s.locks[l]; t in s.running && s.running[t].pc < |Code(s.running[t].program)| && Took(s, t, l)
  {
    hide Code, Took, Established, DatabaseOk;
    assert Justified(s, l);
    assert Knows(s, s.locks[l]);
  }

  predicate AtReference(s: State, t: TxId) { t in s.running && Current(s.running[t]).ReferToActor? }

  /** Whoever is waited for runs, and waits, if at all, for a lock later in the order; only where both are at the
      reference to their actors does the order not decide. */
  lemma WaitsForLater(s: State, t: TxId, u: TxId)
    requires Sound(s) && WaitsFor(s, t, u)
    ensures t != u && u in s.running
    ensures forall v :: WaitsFor(s, u, v) ==>
              || WaitRank(s, t) < WaitRank(s, u)
              || (AtReference(s, t) && AtReference(s, u) && Holds(s, u, AccountRow(Current(s.running[t]).actor)))
  {
    hide Sound, Current, Wants;
    var c := Current(s.running[t]);
    var l, h :| l in Wants(s, t, c) && h in s.locks && s.locks[h] == u && Blocks(h, u, t, l);
    WantsItsRank(s, t, c, l);
    HolderTook(s, h);
    HoldsEarlier(s, u, h);
    forall v | WaitsFor(s, u, v)
      ensures || WaitRank(s, t) < WaitRank(s, u)
              || (AtReference(s, t) && AtReference(s, u) && Holds(s, u, AccountRow(c.actor)))
    {
      var d := Current(s.running[u]);
      var k :| k in Wants(s, u, d);
      WantsItsRank(s, u, d, k);
    }
  }

  predicate WaitCycle(s: State, cycle: seq<TxId>) {
    |cycle| > 0 && forall i {:trigger Next(cycle, i)} :: 0 <= i < |cycle| ==> WaitsFor(s, cycle[i], Next(cycle, i))
  }

  function Next<T>(cycle: seq<T>, i: nat): T
    requires i < |cycle|
  {
    cycle[if i + 1 < |cycle| then i + 1 else 0]
  }

  lemma InCycleWaits(s: State, cycle: seq<TxId>, i: nat)
    requires Sound(s) && WaitCycle(s, cycle) && i < |cycle|
    ensures var t, u := cycle[i], Next(cycle, i);
            && t in s.running && u in s.running && t != u && WaitRank(s, t) <= WaitRank(s, u)
            && (WaitRank(s, t) == WaitRank(s, u) ==>
                  AtReference(s, t) && Holds(s, u, AccountRow(Current(s.running[t]).actor)))
  {
    hide Sound, WaitsFor, WaitCycle, Wants, Code, Next;
    NextWaits(s, cycle, i);
    WaitsForLater(s, cycle[i], Next(cycle, i));
  }

  lemma NextWaits(s: State, cycle: seq<TxId>, i: nat)
    requires WaitCycle(s, cycle) && i < |cycle|
    ensures WaitsFor(s, cycle[i], Next(cycle, i)) && exists v :: WaitsFor(s, Next(cycle, i), v)
    ensures cycle[i] in s.running
  {
    var j := if i + 1 < |cycle| then i + 1 else 0;
    assert WaitsFor(s, cycle[j], Next(cycle, j));
  }

  lemma {:induction false} RanksRise(s: State, cycle: seq<TxId>, i: nat, j: nat)
    requires Sound(s) && WaitCycle(s, cycle) && i <= j < |cycle|
    ensures cycle[i] in s.running && cycle[j] in s.running && WaitRank(s, cycle[i]) <= WaitRank(s, cycle[j])
  {
    hide Sound, WaitRank, AtReference, Holds, Current, WaitCycle;
    InCycleWaits(s, cycle, j);
    if i < j {
      RanksRise(s, cycle, i, j - 1);
      InCycleWaits(s, cycle, j - 1);
    }
  }

  /** In a wait cycle every transaction is at the reference to its actor, whose row the next one holds. */
  lemma CyclesAreAtReferences(s: State, cycle: seq<TxId>, i: nat)
    requires Sound(s) && WaitCycle(s, cycle) && i < |cycle|
    ensures AtReference(s, cycle[i]) && cycle[i] != Next(cycle, i)
        && Holds(s, Next(cycle, i), AccountRow(Current(s.running[cycle[i]]).actor))
  {
    hide Sound, WaitRank, AtReference, Holds, Current, WaitCycle;
    InCycleWaits(s, cycle, i);
    if i + 1 == |cycle| {
      RanksRise(s, cycle, 0, i);
    } else {
      RanksRise(s, cycle, 0, i);
      RanksRise(s, cycle, i + 1, |cycle| - 1);
      InCycleWaits(s, cycle, |cycle| - 1);
    }
  }
}
