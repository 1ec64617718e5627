/** Whoever waits in a cycle acts on the administrator behind another one; otherwise somebody always goes on. */
module MasterStandoffs {
  import opened Options
  import opened MasterTransactions
  import opened MasterSafety
  import opened MasterLocking

  /** The exclusive locks a program takes. */
  function Claims(s: State, p: Program): set<Lock> { set c, l | c in Preparation(p) && l in Rows(s, c) :: l }

  /** The account that acts in one program is an account the other one acts on. */
  predicate ActsBehind(s: State, p: Program, q: Program) {
    ActorOf(p).Some? && AccountRow(ActorOf(p).value) in Claims(s, q)
  }

  predicate Distinct<T(==)>(items: seq<T>) { forall i, j :: 0 <= i < j < |items| ==> items[i] != items[j] }

  /** Each program acts on the account that acts in the one before it, no two act on the same rows, and each passes its
      own checks. */
  predicate Standoff(s: State, programs: seq<Program>) {
    && |programs| > 1
    && (forall i {:trigger Next(programs, i)} :: 0 <= i < |programs| ==> ActsBehind(s, programs[i], Next(programs, i)))
    && (forall i, j :: 0 <= i < j < |programs| ==> Claims(s, programs[i]) !! Claims(s, programs[j]))
    && (forall i :: 0 <= i < |programs| ==> Feasible(s, programs[i]))
  }

  predicate Feasible(s: State, p: Program) { forall c :: c in Preparation(p) ==> Succeeds(s, p, c) }

  lemma AtReferenceIsPrepared(s: State, t: TxId)
    requires Sound(s) && AtReference(s, t)
    ensures var p := s.running[t].program;
            ActorOf(p) == Some(Current(s.running[t]).actor) && EstablishedAll(s, t, Preparation(p))
  {
    hide Established, Preparation;
    assert Knows(s, t);
    var tx := s.running[t];
    var before := Preparation(tx.program);
    assert tx.pc == |before|;
    assert forall i :: 0 <= i < |before| ==> Code(tx.program)[i] == before[i];
  }

  /** It holds what its program claims, and everything it checked still holds. */
  lemma PreparedHoldsClaims(s: State, t: TxId)
    requires Sound(s) && t in s.running && ActorOf(s.running[t].program).Some?
        && EstablishedAll(s, t, Preparation(s.running[t].program))
    ensures forall l :: l in Claims(s, s.running[t].program) ==> Holds(s, t, l)
    ensures Feasible(s, s.running[t].program)
  {
    hide Sound, Code;
    var p := s.running[t].program;
    forall c, l | c in Preparation(p) && l in Rows(s, c) ensures Holds(s, t, l) {
      hide Preparation, EnabledMasters, AccountsOf;
      assert Established(s, t, c);
    }
    forall c | c in Preparation(p) ensures Succeeds(s, p, c) {
      assert Established(s, t, c);
      if c.ProtectLastEnabledMaster? {
        assert MasterAssigned(c.person) == Preparation(p)[2];
        assert Established(s, t, MasterAssigned(c.person));
      }
      hide EstablishedAll;
    }
  }

  /** What it holds so far is among its claims. */
  lemma HoldsClaims(s: State, t: TxId, l: Lock)
    requires t in s.running && s.running[t].pc < |Code(s.running[t].program)| && Took(s, t, l) && !l.Reference?
    ensures l in Claims(s, s.running[t].program)
  {
    hide Preparation, Rows;
    var tx := s.running[t];
    var i :| 0 <= i < tx.pc && i < |Code(tx.program)| && l in Wants(s, t, Code(tx.program)[i]);
    assert Code(tx.program)[i] in Preparation(tx.program);
  }

  function Programs(s: State, cycle: seq<TxId>): (programs: seq<Program>)
    requires forall t :: t in cycle ==> t in s.running
    ensures |programs| == |cycle| && forall i :: 0 <= i < |cycle| ==> programs[i] == s.running[cycle[i]].program
  {
    seq(|cycle|, i requires 0 <= i < |cycle| => s.running[cycle[i]].program)
  }

  lemma Members(s: State, cycle: seq<TxId>)
    requires Sound(s) && WaitCycle(s, cycle)
    ensures forall t :: t in cycle ==> t in s.running
  {
    hide Sound, AtReference, WaitCycle;
    forall i | 0 <= i < |cycle| ensures cycle[i] in s.running {
      NextWaits(s, cycle, i);
    }
  }

  /** One transaction's program acts behind the next one's, and both hold what they claim. */
  lemma CycleStep(s: State, cycle: seq<TxId>, i: nat)
    requires Sound(s) && WaitCycle(s, cycle) && i < |cycle|
    ensures var t, u := cycle[i], Next(cycle, i);
            && t in s.running && u in s.running && t != u
            && ActsBehind(s, s.running[t].program, s.running[u].program) && Feasible(s, s.running[t].program)
            && forall l :: l in Claims(s, s.running[t].program) ==> Holds(s, t, l)
  {
    hide Sound, WaitCycle, Claims, Feasible, EstablishedAll, Next, Code, Wants, WaitsFor;
    CyclesAreAtReferences(s, cycle, i);
    Members(s, cycle);
    AtReferenceIsPrepared(s, cycle[i]);
    PreparedHoldsClaims(s, cycle[i]);
    var held := AccountRow(Current(s.running[cycle[i]]).actor);
    HolderTook(s, held);
    HoldsClaims(s, Next(cycle, i), held);
  }

  lemma NotAlone(s: State, cycle: seq<TxId>)
    requires Sound(s) && WaitCycle(s, cycle)
    ensures |cycle| > 1
  {
    hide Sound, AtReference, Current;
    CyclesAreAtReferences(s, cycle, 0);
  }

  /** Whatever ran before, the members of a wait cycle act each on the administrator behind the one before. */
  lemma CyclesAreStandoffs(s: State, events: seq<Event>, s': State, cycle: seq<TxId>)
    requires Quiet(s) && Run(s, events) == Some(s') && WaitCycle(s', cycle) && Distinct(cycle)
    ensures (forall t :: t in cycle ==> t in s'.running) && Standoff(s', Programs(s', cycle))
  {
    hide Run, Quiet, WaitCycle, Claims, Feasible, ActsBehind, Sound;
    ReachableIsSound(s, events, s');
    Members(s', cycle);
    NotAlone(s', cycle);
    var programs := Programs(s', cycle);
    forall i | 0 <= i < |programs|
      ensures ActsBehind(s', programs[i], Next(programs, i)) && Feasible(s', programs[i])
    {
      CycleStep(s', cycle, i);
    }
    forall i, j | 0 <= i < j < |programs| ensures Claims(s', programs[i]) !! Claims(s', programs[j]) {
      DistinctClaims(s', cycle, i, j);
    }
  }

  lemma DistinctClaims(s: State, cycle: seq<TxId>, i: nat, j: nat)
    requires Sound(s) && WaitCycle(s, cycle) && i < j < |cycle| && cycle[i] != cycle[j]
    ensures cycle[i] in s.running && cycle[j] in s.running
    ensures Claims(s, s.running[cycle[i]].program) !! Claims(s, s.running[cycle[j]].program)
  {
    hide Sound, WaitCycle, Claims, Feasible, ActsBehind;
    CycleStep(s, cycle, i);
    CycleStep(s, cycle, j);
  }

  /** No wait cycle is reachable while no transaction acts on the account that acts in another one. */
  lemma NoDeadlock(s: State, events: seq<Event>, s': State, cycle: seq<TxId>)
    requires Quiet(s) && Run(s, events) == Some(s')
    requires forall t, u :: t in s'.running && u in s'.running && t != u ==>
               !ActsBehind(s', s'.running[t].program, s'.running[u].program)
    ensures !WaitCycle(s', cycle)
  {
    hide Run, Quiet, Claims, Sound;
    ReachableIsSound(s, events, s');
    if WaitCycle(s', cycle) {
      CycleStep(s', cycle, 0);
    }
  }

  /* ---------- Going on ---------- */

  predicate Waits(s: State, t: TxId) { t in s.running && !MayTake(s, t, Wants(s, t, Current(s.running[t]))) }

  lemma WaitsForSomeone(s: State, t: TxId)
    requires Waits(s, t)
    ensures exists u :: WaitsFor(s, t, u)
  {
    hide Code, Wants, Blocks;
    var l, h :| l in Wants(s, t, Current(s.running[t])) && h in s.locks && Blocks(h, s.locks[h], t, l);
    assert WaitsFor(s, t, s.locks[h]);
  }

  /** Transactions each of which waits for the next one. */
  predicate WaitPath(s: State, path: seq<TxId>) {
    && path != [] && Distinct(path) && path[|path| - 1] in s.running
    && forall i {:trigger Next(path, i)} :: 0 <= i < |path| - 1 ==> WaitsFor(s, path[i], Next(path, i))
  }

  ghost predicate HasNext(s: State, t: TxId) { exists u :: u in s.running && WaitsFor(s, t, u) }

  lemma NextOf(s: State, t: TxId) returns (u: TxId)
    requires HasNext(s, t)
    ensures u in s.running && WaitsFor(s, t, u)
  {
    u :| u in s.running && WaitsFor(s, t, u);
  }

  /** Where everybody waits, following who waits for whom comes back to where it was. */
  lemma FollowWaits(s: State, path: seq<TxId>) returns (cycle: seq<TxId>)
    requires WaitPath(s, path) && forall t {:trigger HasNext(s, t)} :: t in s.running ==> HasNext(s, t)
    ensures WaitCycle(s, cycle) && Distinct(cycle)
    decreases s.running.Keys - set t | t in path
  {
    hide WaitsFor, HasNext;
    var u := NextOf(s, path[|path| - 1]);
    if k :| 0 <= k < |path| && path[k] == u {
      cycle := path[k..];
      ClosedPath(s, path, k);
    } else {
      LongerPath(s, path, u);
      assert u in s.running.Keys - set t | t in path;
      cycle := FollowWaits(s, path + [u]);
    }
  }

  lemma ClosedPath(s: State, path: seq<TxId>, k: nat)
    requires WaitPath(s, path) && k < |path| && WaitsFor(s, path[|path| - 1], path[k])
    ensures WaitCycle(s, path[k..]) && Distinct(path[k..])
  {
    hide WaitsFor, Distinct, Next;
    SuffixDistinct(path, k);
    forall i | 0 <= i < |path[k..]| ensures WaitsFor(s, path[k..][i], Next(path[k..], i)) {
      SuffixNext(path, k, i);
      assert i + 1 < |path| - k ==> WaitsFor(s, path[k + i], Next(path, k + i));
      hide WaitPath;
    }
    hide WaitPath;
  }

  lemma SuffixDistinct<T>(path: seq<T>, k: nat)
    requires k <= |path| && Distinct(path)
    ensures Distinct(path[k..])
  {
  }

  lemma SuffixNext<T>(path: seq<T>, k: nat, i: nat)
    requires k + i < |path|
    ensures path[k..][i] == path[k + i]
    ensures Next(path[k..], i) == if k + i + 1 < |path| then Next(path, k + i) else path[k]
  {
  }

  lemma LongerPath(s: State, path: seq<TxId>, u: TxId)
    requires WaitPath(s, path) && u in s.running && u !in path && WaitsFor(s, path[|path| - 1], u)
    ensures WaitPath(s, path + [u])
  {
    hide WaitsFor;
    forall i | 0 <= i < |path| ensures WaitsFor(s, (path + [u])[i], Next(path + [u], i)) {
      if i + 1 < |path| {
        assert WaitsFor(s, path[i], Next(path, i));
      }
    }
  }

  /** While transactions run, one of them waits for nobody and goes on or aborts, or there is a wait cycle. */
  lemma SomeoneProceedsOrCycle(s: State, events: seq<Event>, s': State)
    requires Quiet(s) && Run(s, events) == Some(s') && s'.running != map[]
    ensures || (exists t :: t in s'.running && !Waits(s', t))
            || exists cycle: seq<TxId> :: WaitCycle(s', cycle) && Distinct(cycle)
  {
    hide Waits, WaitCycle, WaitsFor, Sound, Run, Quiet, Distinct, HasNext, Step;
    ReachableIsSound(s, events, s');
    if forall t :: t in s'.running ==> Waits(s', t) {
      forall t | t in s'.running ensures HasNext(s', t) {
        WaitsHasNext(s', t);
      }
      var t :| t in s'.running;
      StartOfPath(s', t);
      var cycle := FollowWaits(s', [t]);
    }
  }

  lemma StartOfPath(s: State, t: TxId)
    requires t in s.running
    ensures WaitPath(s, [t])
  {
  }

  lemma WaitsHasNext(s: State, t: TxId)
    requires Sound(s) && Waits(s, t)
    ensures HasNext(s, t)
  {
    hide Waits, WaitsFor, Sound;
    WaitsForSomeone(s, t);
    var u :| WaitsFor(s, t, u);
    WaitsForLater(s, t, u);
  }

  /** One of them goes on while no transaction acts on the account that acts in another one. */
  lemma SomeoneProceeds(s: State, events: seq<Event>, s': State)
    requires Quiet(s) && Run(s, events) == Some(s') && s'.running != map[]
    requires forall t, u :: t in s'.running && u in s'.running && t != u ==>
               !ActsBehind(s', s'.running[t].program, s'.running[u].program)
    ensures exists t :: t in s'.running && !Waits(s', t)
  {
    hide Waits, WaitCycle, Run, Quiet, ActsBehind, Distinct;
    SomeoneProceedsOrCycle(s, events, s');
    if cycle: seq<TxId> :| WaitCycle(s', cycle) && Distinct(cycle) {
      NoDeadlock(s, events, s', cycle);
    }
  }
}
