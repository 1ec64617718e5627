/** Every standoff arises in some run, so programs can end up waiting for each other exactly when they stand off. */
module MasterDeadlocks {
  import opened Options
  import opened MasterTransactions
  import opened MasterSafety
  import opened MasterLocking
  import opened MasterStandoffs

  /** The first m programs are through their locks and checks, and the next one through k statements. */
  ghost predicate Poised(s: State, s': State, programs: seq<Program>, m: nat, k: nat)
    requires m < |programs|
  {
    && s'.db == s.db && s'.owners == s.owners
    && (forall i: TxId :: i in s'.running <==> i <= m)
    && (forall i :: i in s'.running ==>
          s'.running[i] == Tx(programs[i], if i < m then |Preparation(programs[i])| else k))
    && (forall l :: l in s'.locks ==>
          s'.locks[l] < |programs| && !l.Reference? && l in Claims(s, programs[s'.locks[l]]))
  }

  lemma RunOn(s: State, events: seq<Event>, before: State, e: Event, s': State)
    requires Run(s, events) == Some(before) && Step(before, e) == Some(s')
    ensures Run(s, events + [e]) == Some(s')
  {
    assert (events + [e])[..|events + [e]| - 1] == events;
  }

  lemma ClaimsAreExclusive(s: State, p: Program, l: Lock)
    requires l in Claims(s, p)
    ensures !l.Reference?
  {
    hide Preparation;
  }

  lemma SameAnswer(s: State, s': State, p: Program, c: Statement)
    requires s'.db == s.db && s'.owners == s.owners
    ensures Succeeds(s', p, c) <==> Succeeds(s, p, c)
  {
    hide EnabledMasters, AccountsOf;
  }

  lemma NextStatementPasses(s: State, before: State, programs: seq<Program>, m: nat, k: nat)
    requires Standoff(s, programs) && m < |programs| && k < |Preparation(programs[m])|
        && Poised(s, before, programs, m, k)
    ensures Passes(before, m, programs[m], Preparation(programs[m])[k])
    ensures Wants(before, m, Preparation(programs[m])[k]) <= Claims(s, programs[m])
  {
    hide Preparation, Rows, ActsBehind, Succeeds;
    var p := programs[m];
    var c := Preparation(p)[k];
    assert c in Preparation(p) && Feasible(s, p);
    SameWants(s, before, m, c);
    SameAnswer(s, before, p, c);
    forall l, h | l in Rows(s, c) && h in before.locks ensures !Blocks(h, before.locks[h], m, l) {
      hide Feasible;
      assert l in Claims(s, p);
      ClaimsAreExclusive(s, p, l);
      var u := before.locks[h];
      assert u != m ==> Claims(s, programs[u]) !! Claims(s, p);
    }
    hide Standoff, Poised, Feasible, Blocks;
  }

  lemma PoiseNext(s: State, before: State, programs: seq<Program>, m: nat, k: nat) returns (s': State)
    requires Standoff(s, programs) && m < |programs| && k < |Preparation(programs[m])|
        && Poised(s, before, programs, m, k)
    ensures Step(before, Execute(m)) == Some(s') && Poised(s, s', programs, m, k + 1)
  {
    hide Standoff, Passes, Claims, Rows, Preparation, Written, Wants;
    NextStatementPasses(s, before, programs, m, k);
    var c := Preparation(programs[m])[k];
    assert Current(before.running[m]) == c;
    s' := Step(before, Execute(m)).value;
    forall l | l in s'.locks
      ensures s'.locks[l] < |programs| && !l.Reference? && l in Claims(s, programs[s'.locks[l]])
    {
      if l in Wants(before, m, c) {
        ClaimsAreExclusive(s, programs[m], l);
      }
    }
  }

  /** The run that takes the first m programs through their locks and checks, and the next one through k statements. */
  function Schedule(programs: seq<Program>, m: nat, k: nat): seq<Event>
    requires m < |programs|
    decreases m, k
  {
    if k > 0 then Schedule(programs, m, k - 1) + [Execute(m)]
    else if m > 0 then Schedule(programs, m - 1, |Preparation(programs[m - 1])|) + [Begin(m, programs[m])]
    else [Begin(0, programs[0])]
  }

  lemma {:induction false} Arrange(s: State, programs: seq<Program>, m: nat, k: nat) returns (s': State)
    requires Quiet(s) && Standoff(s, programs) && m < |programs| && k <= |Preparation(programs[m])|
    ensures Run(s, Schedule(programs, m, k)) == Some(s') && Poised(s, s', programs, m, k)
    decreases m, k
  {
    hide Standoff, Run, Preparation, Claims;
    if k > 0 {
      var before := Arrange(s, programs, m, k - 1);
      s' := PoiseNext(s, before, programs, m, k - 1);
      hide Step, Poised;
      RunOn(s, Schedule(programs, m, k - 1), before, Execute(m), s');
    } else if m > 0 {
      var before := Arrange(s, programs, m - 1, |Preparation(programs[m - 1])|);
      s' := PoiseBegin(s, before, programs, m);
      hide Step, Poised;
      RunOn(s, Schedule(programs, m - 1, |Preparation(programs[m - 1])|), before, Begin(m, programs[m]), s');
    } else {
      s' := PoiseBegin(s, s, programs, m);
      hide Step, Poised;
      NothingRun(s);
      RunOn(s, [], s, Begin(0, programs[0]), s');
      assert [] + [Begin(0, programs[0])] == Schedule(programs, m, k);
    }
  }

  lemma NothingRun(s: State)
    ensures Run(s, []) == Some(s)
  {
  }

  lemma PoiseBegin(s: State, before: State, programs: seq<Program>, m: nat) returns (s': State)
    requires m < |programs| && Quiet(s)
    requires if m == 0 then before == s else Poised(s, before, programs, m - 1, |Preparation(programs[m - 1])|)
    ensures Step(before, Begin(m, programs[m])) == Some(s') && Poised(s, s', programs, m, 0)
  {
    hide Preparation, Claims;
    s' := before.(running := before.running[m := Tx(programs[m], 0)]);
    forall i | i in s'.running
      ensures s'.running[i] == Tx(programs[i], if i < m then |Preparation(programs[i])| else 0)
    {
      if i != m {
        assert i in before.running && i <= m - 1;
        assert before.running[i] == Tx(programs[i], |Preparation(programs[i])|);
      }
    }
  }

  lemma AtTheEnd(s: State, s': State, programs: seq<Program>, i: nat)
    requires Standoff(s, programs) && i < |programs|
        && Poised(s, s', programs, |programs| - 1, |Preparation(programs[|programs| - 1])|)
    ensures i in s'.running && s'.running[i].program == programs[i] && ActorOf(programs[i]).Some?
        && Current(s'.running[i]) == ReferToActor(ActorOf(programs[i]).value)
  {
    hide Preparation, Claims, Feasible;
    assert ActsBehind(s, programs[i], Next(programs, i));
    hide Standoff;
  }

  /** All programs at the reference to their actors wait for each other. */
  lemma PoisedWait(s: State, s': State, programs: seq<Program>, i: nat)
    requires Standoff(s, programs) && Sound(s') && i < |programs|
        && Poised(s, s', programs, |programs| - 1, |Preparation(programs[|programs| - 1])|)
    ensures WaitsFor(s', i, if i + 1 < |programs| then i + 1 else 0)
  {
    hide Preparation, Rows, Feasible, Claims, EstablishedAll, Sound, Code, Current;
    var u: TxId := if i + 1 < |programs| then i + 1 else 0;
    AtTheEnd(s, s', programs, i);
    AtTheEnd(s, s', programs, u);
    assert ActsBehind(s, programs[i], Next(programs, i));
    SameClaims(s, s', programs[u]);
    assert s'.db == s.db;
    hide Standoff, Poised;
    AtReferenceIsPrepared(s', u);
    PreparedHoldsClaims(s', u);
    var a := ActorOf(programs[i]).value;
    var l, h := Reference(a, i), AccountRow(a);
    assert l in Wants(s', i, Current(s'.running[i])) && Blocks(h, u, i, l);
  }

  lemma SameClaims(s: State, s': State, p: Program)
    requires s'.db == s.db && s'.owners == s.owners
    ensures Claims(s', p) == Claims(s, p) && (Feasible(s', p) <==> Feasible(s, p))
  {
    hide Preparation, Rows, Succeeds;
    forall c ensures Rows(s', c) == Rows(s, c) && (Succeeds(s', p, c) <==> Succeeds(s, p, c)) {
      SameWants(s, s', 0, c);
      SameAnswer(s, s', p, c);
    }
  }

  function Numbers(n: nat): (cycle: seq<TxId>)
    ensures |cycle| == n && forall i :: 0 <= i < n ==> cycle[i] == i
  {
    seq(n, i => i)
  }

  /** A run over this database in which the given programs end up waiting for each other. */
  ghost predicate Deadlocks(s: State, programs: seq<Program>, events: seq<Event>, s': State, cycle: seq<TxId>) {
    && Run(s, events) == Some(s') && s'.db == s.db && s'.owners == s.owners
    && WaitCycle(s', cycle) && Distinct(cycle)
    && (forall t :: t in cycle ==> t in s'.running) && Programs(s', cycle) == programs
  }

  lemma PoisedCycle(s: State, s': State, programs: seq<Program>)
    requires Standoff(s, programs) && Sound(s')
        && Poised(s, s', programs, |programs| - 1, |Preparation(programs[|programs| - 1])|)
    ensures WaitCycle(s', Numbers(|programs|))
  {
    hide Preparation, WaitsFor, Sound, Poised, ActsBehind, Feasible, Claims;
    var cycle := Numbers(|programs|);
    forall i | 0 <= i < |programs| ensures WaitsFor(s', cycle[i], Next(cycle, i)) {
      PoisedWait(s, s', programs, i);
    }
  }

  lemma PoisedPrograms(s: State, s': State, programs: seq<Program>)
    requires Standoff(s, programs)
        && Poised(s, s', programs, |programs| - 1, |Preparation(programs[|programs| - 1])|)
    ensures forall t :: t in Numbers(|programs|) ==> t in s'.running
    ensures Programs(s', Numbers(|programs|)) == programs
  {
    hide Preparation, Standoff, Poised, Current, ActorOf;
    MoreThanOne(s, programs);
    forall i | 0 <= i < |programs| ensures i in s'.running && s'.running[i].program == programs[i] {
      AtTheEnd(s, s', programs, i);
    }
  }

  lemma EveryStandoffArises(s: State, programs: seq<Program>)
    requires Quiet(s) && Standoff(s, programs)
    ensures exists events, s', cycle :: Deadlocks(s, programs, events, s', cycle)
  {
    hide Quiet, Preparation, WaitCycle, Run, Sound, Standoff, Poised;
    MoreThanOne(s, programs);
    var n := |programs|;
    var events := Schedule(programs, n - 1, |Preparation(programs[n - 1])|);
    var s' := Arrange(s, programs, n - 1, |Preparation(programs[n - 1])|);
    ReachableIsSound(s, events, s');
    PoisedDatabase(s, s', programs, n - 1, |Preparation(programs[n - 1])|);
    PoisedCycle(s, s', programs);
    PoisedPrograms(s, s', programs);
    assert Deadlocks(s, programs, events, s', Numbers(n));
  }

  lemma MoreThanOne(s: State, programs: seq<Program>)
    requires Standoff(s, programs)
    ensures |programs| > 1
  {
  }

  lemma PoisedDatabase(s: State, s': State, programs: seq<Program>, m: nat, k: nat)
    requires m < |programs| && Poised(s, s', programs, m, k)
    ensures s'.db == s.db && s'.owners == s.owners
  {
  }

  lemma SameStandoff(s: State, s': State, programs: seq<Program>)
    requires s'.db == s.db && s'.owners == s.owners && Standoff(s', programs)
    ensures Standoff(s, programs)
  {
    hide Claims, Feasible;
    forall i | 0 <= i < |programs|
      ensures Claims(s', programs[i]) == Claims(s, programs[i])
          && ActsBehind(s, programs[i], Next(programs, i)) && Feasible(s, programs[i])
    {
      assert ActsBehind(s', programs[i], Next(programs, i)) && Feasible(s', programs[i]);
      SameClaims(s, s', programs[i]);
      SameClaims(s, s', Next(programs, i));
    }
  }

  /** Programs can end up waiting for each other if and only if each acts on the account behind the one before. */
  lemma DeadlockExactlyWhen(s: State, programs: seq<Program>)
    requires Quiet(s)
    ensures (exists events, s', cycle :: Deadlocks(s, programs, events, s', cycle)) <==> Standoff(s, programs)
  {
    hide Quiet, Standoff;
    if events, s', cycle :| Deadlocks(s, programs, events, s', cycle) {
      CyclesAreStandoffs(s, events, s', cycle);
      SameStandoff(s, s', programs);
    }
    if Standoff(s, programs) {
      EveryStandoffArises(s, programs);
    }
  }

  /** Any two administrators who set each other's passwords at the same time can end up waiting for each other: each
      holds the other's account and needs its own for the audit row. */
  lemma TwoAdministrators(s: State, a: Id, b: Id)
    requires Quiet(s) && a in s.db.accounts && b in s.db.accounts && a != b
    ensures var onB, onA := SetPassword(b, s.db.accounts[b].version, a), SetPassword(a, s.db.accounts[a].version, b);
            var s' := Run(s, [Begin(0, onB), Execute(0), Execute(0), Begin(1, onA), Execute(1), Execute(1)]);
            s'.Some? && WaitCycle(s'.value, [0, 1])
  {
    hide Quiet, Run, WaitCycle, Sound, Standoff, Poised;
    var onB, onA := SetPassword(b, s.db.accounts[b].version, a), SetPassword(a, s.db.accounts[a].version, b);
    var programs := [onB, onA];
    assert Feasible(s, onB) && Feasible(s, onA) by {
      hide Standoff;
    }
    TwoStandOff(s, onB, onA);
    var s' := Arrange(s, programs, 1, 2);
    assert Schedule(programs, 1, 2) == [Begin(0, onB), Execute(0), Execute(0), Begin(1, onA), Execute(1), Execute(1)];
    ReachableIsSound(s, Schedule(programs, 1, 2), s');
    PoisedCycle(s, s', programs);
    assert Numbers(2) == [0, 1];
  }

  lemma ClaimsOfSetPassword(s: State, p: Program)
    requires p.SetPassword?
    ensures Claims(s, p) == {AccountRow(p.account)}
  {
    var c, l := LockAccount(OfAccount(p.account)), AccountRow(p.account);
    assert Preparation(p)[0] == c && l in Rows(s, c);
    assert l in Claims(s, p);
    forall k | k in Claims(s, p) ensures k == l {
    }
  }

  lemma TwoStandOff(s: State, p: Program, q: Program)
    requires p.SetPassword? && q.SetPassword? && p.actor == q.account && q.actor == p.account && p.account != q.account
        && Feasible(s, p) && Feasible(s, q)
    ensures Standoff(s, [p, q])
  {
    hide Feasible;
    ClaimsOfSetPassword(s, p);
    ClaimsOfSetPassword(s, q);
    hide Claims, Preparation;
  }
}
