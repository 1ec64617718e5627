/** What the commit of each transaction achieves, and that it touches nothing else. */
module MasterEffects {
  import opened Options
  import opened MasterTransactions
  import opened MasterSafety
  import opened MasterLocking
  import opened MasterStandoffs
  import opened MasterDeadlocks

  /** The transaction's next step is its commit. */
  predicate Commits(s: State, t: TxId) { t in s.running && Current(s.running[t]).Commit? }

  lemma CommitStep(s: State, t: TxId, s': State)
    requires Inv(s) && Commits(s, t) && Step(s, Execute(t)) == Some(s')
    ensures var p := s.running[t].program;
            && Committing(s, t, p) && s'.db == Written(s, p) && s'.owners == OwnersAfter(s, p)
            && s'.running == s.running - {t}
  {
    ReadyToCommit(s, t);
    hide Knows, Written, Established, DatabaseOk;
  }

  /** A row that was written: it is the row before, with one version more and the given change. */
  predicate AccountBecomes(s: State, s': State, a: Id, enabled: bool) {
    && a in s.db.accounts && a in s'.db.accounts
    && s'.db.accounts[a].enabled == enabled && s'.db.accounts[a].person == s.db.accounts[a].person
    && s'.db.accounts[a].version == s.db.accounts[a].version + 1
  }

  predicate PersonBecomes(s: State, s': State, p: Id, master: bool) {
    && p in s.db.people && p in s'.db.people && s'.db.people[p].master == master
    && s'.db.people[p].version == s.db.people[p].version + 1
  }

  /** All rows except the given ones are as before, and there are no others. */
  ghost predicate OnlyTouches(s: State, s': State, people: set<Id>, accounts: set<Id>) {
    && (forall p :: p !in people ==>
          (p in s'.db.people <==> p in s.db.people) && (p in s.db.people ==> s'.db.people[p] == s.db.people[p]))
    && (forall a :: a !in accounts ==>
          && (a in s'.db.accounts <==> a in s.db.accounts)
          && (a in s.db.accounts ==> s'.db.accounts[a] == s.db.accounts[a]))
  }

  /** Disabling and deprovisioning leave the account there and disabled, enabling leaves it enabled, and a changed
      password leaves it as enabled as it was. */
  lemma AccountChangesAchieve(s: State, t: TxId, s': State)
    requires Inv(s) && Commits(s, t) && Step(s, Execute(t)) == Some(s')
    ensures var p := s.running[t].program;
            && (p.Disable? || p.Deprovision? ==>
                  AccountBecomes(s, s', p.account, false) && OnlyTouches(s, s', {}, {p.account}))
            && (p.Enable? ==> AccountBecomes(s, s', p.account, true) && OnlyTouches(s, s', {}, {p.account}))
            && (p.SetPassword? ==>
                  && p.account in s.db.accounts
                  && AccountBecomes(s, s', p.account, s.db.accounts[p.account].enabled)
                  && OnlyTouches(s, s', {}, {p.account}))
  {
    var p := s.running[t].program;
    CommitStep(s, t, s');
    FirstStatement(s, t, p);
    hide Inv, Step, Commits, Committing, OwnersAfter, EnabledMasters;
  }

  /** A changed login e-mail leaves the account as enabled as it was, and the person as much a master, one version
      higher when the e-mail there is changed too. */
  lemma EmailChangeAchieves(s: State, t: TxId, s': State)
    requires Inv(s) && Commits(s, t) && Step(s, Execute(t)) == Some(s') && s.running[t].program.UpdateLoginEmail?
    ensures var p := s.running[t].program;
            && p.account in s.db.accounts && AccountBecomes(s, s', p.account, s.db.accounts[p.account].enabled)
            && var person := s.db.accounts[p.account].person;
               && person in s.db.people && OnlyTouches(s, s', if p.mirrored then {person} else {}, {p.account})
               && (p.mirrored ==> PersonBecomes(s, s', person, s.db.people[person].master))
  {
    CommitStep(s, t, s');
    FirstStatement(s, t, s.running[t].program);
    hide Step, Commits, EnabledMasters, AccountsOf;
  }

  /** Deleting an account removes its row; deleting a person removes the person's row and account. */
  lemma DeletionsAchieve(s: State, t: TxId, s': State)
    requires Inv(s) && Commits(s, t) && Step(s, Execute(t)) == Some(s')
    ensures var p := s.running[t].program;
            && (p.DeleteAccount? ==>
                  && p.account in s.db.accounts && p.account !in s'.db.accounts
                  && OnlyTouches(s, s', {}, {p.account}))
            && (p.DeletePerson? ==>
                  && p.person in s.db.people && p.person !in s'.db.people
                  && (forall a :: a in s'.db.accounts ==> s'.db.accounts[a].person != p.person)
                  && OnlyTouches(s, s', {p.person}, set a | a in s.db.accounts && s.db.accounts[a].person == p.person))
  {
    var p := s.running[t].program;
    CommitStep(s, t, s');
    FirstStatement(s, t, p);
    hide Inv, Step, Commits, Committing, OwnersAfter, EnabledMasters;
  }

  /** Assigning and removing the master role do so; it is assigned to others than masters only, and removed from masters
      only. */
  lemma RoleChangesAchieve(s: State, t: TxId, s': State)
    requires Inv(s) && Commits(s, t) && Step(s, Execute(t)) == Some(s')
    ensures var p := s.running[t].program;
            && (p.AssignMaster? || p.RemoveMaster? ==>
                  PersonBecomes(s, s', p.person, p.AssignMaster?) && OnlyTouches(s, s', {p.person}, {}))
            && (p.RemoveMaster? ==> IsMaster(s.db, p.person)) && (p.AssignMaster? ==> !IsMaster(s.db, p.person))
  {
    var p := s.running[t].program;
    CommitStep(s, t, s');
    FirstStatement(s, t, p);
    if p.RemoveMaster? || p.AssignMaster? {
      RoleIsChecked(s, t, p);
    }
    hide Inv, Step, Commits, Committing, OwnersAfter, EnabledMasters;
  }

  lemma RoleIsChecked(s: State, t: TxId, p: Program)
    requires Committing(s, t, p) && (p.RemoveMaster? || p.AssignMaster?)
    ensures IsMaster(s.db, p.person) <==> p.RemoveMaster?
  {
    Prepared(s, t, p);
    hide Committing;
    var c := if p.RemoveMaster? then MasterAssigned(p.person) else MasterNotAssigned(p.person);
    assert Preparation(p)[2] == c;
    assert Established(s, t, c);
  }

  /** A new account has a new id and is there, enabled, for its person. */
  lemma CreationAchieves(s: State, t: TxId, s': State)
    requires Inv(s) && Commits(s, t) && Step(s, Execute(t)) == Some(s') && s.running[t].program.CreateAccount?
    ensures var p := s.running[t].program;
            && p.person in s.db.people && p.account !in s.db.accounts && p.account !in s.owners
            && p.account in s'.db.accounts && s'.db.accounts[p.account] == Account(p.person, true, 1)
            && OnlyTouches(s, s', if p.mirrored then {p.person} else {}, {p.account})
            && (p.mirrored ==> PersonBecomes(s, s', p.person, s.db.people[p.person].master))
  {
    CommitStep(s, t, s');
    FirstStatement(s, t, s.running[t].program);
    hide Step, Commits, EnabledMasters;
  }

  /** Bootstrapping leaves its new account among the enabled masters. */
  lemma BootstrapAchieves(s: State, t: TxId, s': State)
    requires Inv(s) && Commits(s, t) && Step(s, Execute(t)) == Some(s') && s.running[t].program.Bootstrap?
    ensures var p := s.running[t].program;
            && p.account in EnabledMasters(s'.db) && p.account !in s.db.accounts && p.person !in s.db.people
            && s'.db.accounts[p.account].person == p.person && OnlyTouches(s, s', {p.person}, {p.account})
  {
    CommitStep(s, t, s');
    hide Step, Commits, OwnersAfter, AccountsOf, TransactionsOk, EstablishedAll;
  }

  /** Recovering leaves the account among the enabled masters, and a person who was master already as they were. */
  lemma RecoverAchieves(s: State, t: TxId, s': State)
    requires Inv(s) && Commits(s, t) && Step(s, Execute(t)) == Some(s') && s.running[t].program.Recover?
    ensures var p := s.running[t].program;
            && p.account in EnabledMasters(s'.db) && AccountBecomes(s, s', p.account, true)
            && var person := s.db.accounts[p.account].person;
               && OnlyTouches(s, s', {person}, {p.account})
               && if person in s.db.people && s.db.people[person].master
                  then person in s'.db.people && s'.db.people[person] == s.db.people[person]
                  else PersonBecomes(s, s', person, true)
  {
    CommitStep(s, t, s');
    FirstStatement(s, t, s.running[t].program);
    hide Step, Commits, OwnersAfter, Committing, TransactionsOk;
  }

  /* ---------- Why the rescues were let through ---------- */

  /** The state that the first k events lead to. */
  function At(s: State, events: seq<Event>, k: nat): Option<State>
    requires k <= |events|
  {
    Run(s, events[..k])
  }

  /** What a rescue must have found: nobody assigned the master role, or no enabled master. */
  ghost predicate Needed(s: State, p: Program) {
    && (p.Bootstrap? ==> forall person :: person in s.db.people ==> !s.db.people[person].master)
    && (p.Recover? ==>
          forall a :: a in s.db.accounts && s.db.accounts[a].enabled ==> !IsMaster(s.db, s.db.accounts[a].person))
  }

  /** At some moment of the run the transaction held the master lock and found what it must. */
  ghost predicate FoundNeeded(s: State, events: seq<Event>, t: TxId, p: Program) {
    exists k :: 0 <= k <= |events| && At(s, events, k).Some?
                && Holds(At(s, events, k).value, t, MasterLock) && Needed(At(s, events, k).value, p)
  }

  predicate PastTheCheck(tx: Tx) {
    (tx.program.Bootstrap? && tx.pc > 1) || (tx.program.Recover? && tx.pc > 2)
  }

  lemma FoundStays(s: State, events: seq<Event>, e: Event, t: TxId, p: Program)
    requires FoundNeeded(s, events, t, p)
    ensures FoundNeeded(s, events + [e], t, p)
  {
    hide Run, Needed, Holds;
    var k :| 0 <= k <= |events| && At(s, events, k).Some? && Holds(At(s, events, k).value, t, MasterLock)
             && Needed(At(s, events, k).value, p);
    assert (events + [e])[..k] == events[..k];
    assert At(s, events + [e], k) == At(s, events, k);
  }

  lemma FoundNow(s: State, events: seq<Event>, now: State, t: TxId, s': State)
    requires Run(s, events) == Some(now) && Inv(now) && Step(now, Execute(t)) == Some(s')
    requires t in now.running && !PastTheCheck(now.running[t])
    requires t in s'.running && PastTheCheck(s'.running[t])
    ensures FoundNeeded(s, events, t, now.running[t].program)
  {
    hide Run, Inv, Step, Needed, PastTheCheck, Holds;
    CheckPasses(now, t, s');
    assert events[..|events|] == events;
    assert At(s, events, |events|) == Some(now);
  }

  lemma CheckPasses(now: State, t: TxId, s': State)
    requires Inv(now) && Step(now, Execute(t)) == Some(s')
    requires t in now.running && !PastTheCheck(now.running[t])
    requires t in s'.running && PastTheCheck(s'.running[t])
    ensures Holds(now, t, MasterLock) && Needed(now, now.running[t].program)
  {
    var tx := now.running[t];
    AtTheCheck(now, t, s');
    NoneEnabled(now.db);
    hide Inv, Code, EnabledMasters, AccountsOf, Step;
  }

  lemma AtTheCheck(now: State, t: TxId, s': State)
    requires Inv(now) && Step(now, Execute(t)) == Some(s')
    requires t in now.running && !PastTheCheck(now.running[t])
    requires t in s'.running && PastTheCheck(s'.running[t])
    ensures var tx := now.running[t];
            && Succeeds(now, tx.program, if tx.program.Bootstrap? then NoMasterAssigned else NoEnabledMaster)
            && Holds(now, t, MasterLock)
  {
    hide Succeeds, MayTake, Wants, DatabaseOk, Written;
    var tx := now.running[t];
    assert Knows(now, t);
    assert Established(now, t, Code(tx.program)[tx.pc - 1]);
    assert Current(tx) == if tx.program.Bootstrap? then NoMasterAssigned else NoEnabledMaster;
  }

  lemma NoneEnabled(db: Database)
    ensures EnabledMasters(db) == {} ==>
              forall a :: a in db.accounts && db.accounts[a].enabled ==> !IsMaster(db, db.accounts[a].person)
  {
    forall a | EnabledMasters(db) == {} && a in db.accounts && db.accounts[a].enabled
      ensures !IsMaster(db, db.accounts[a].person)
    {
      assert a !in EnabledMasters(db);
    }
  }

  /** Whoever is past its check has found, while it held the master lock, that a rescue was needed. */
  lemma {:induction false} RescuesAreNeeded(s: State, events: seq<Event>, s': State, t: TxId)
    requires Inv(s) && s.running == map[] && Run(s, events) == Some(s')
    requires t in s'.running && PastTheCheck(s'.running[t])
    ensures FoundNeeded(s, events, t, s'.running[t].program)
    decreases |events|
  {
    hide Inv, FoundNeeded, Passes, Written, PastTheCheck;
    if events != [] {
      var last := |events| - 1;
      var before := Run(s, events[..last]).value;
      var e := events[last];
      RunKeepsInv(s, events[..last], before);
      assert events == events[..last] + [e];
      StartsBefore(before, e, s', t);
      if t in before.running && PastTheCheck(before.running[t]) {
        hide Step;
        RescuesAreNeeded(s, events[..last], before, t);
        FoundStays(s, events[..last], e, t, s'.running[t].program);
      } else {
        hide Step;
        FoundNow(s, events[..last], before, t, s');
        FoundStays(s, events[..last], e, t, s'.running[t].program);
      }
    }
  }

  /** A bootstrap commits only after it has found, holding the master lock, that nobody is assigned the master role, and
      a recovery that no master is enabled. */
  lemma RescueCommitsAreNeeded(s: State, events: seq<Event>, s': State, t: TxId)
    requires Inv(s) && s.running == map[] && Run(s, events) == Some(s') && Commits(s', t)
    requires s'.running[t].program.Bootstrap? || s'.running[t].program.Recover?
    ensures FoundNeeded(s, events, t, s'.running[t].program)
  {
    hide Run, FoundNeeded, PastTheCheck, Established, DatabaseOk, Code, Current;
    RunKeepsInv(s, events, s');
    assert Knows(s', t);
    CommitIsPastTheCheck(s'.running[t]);
    hide Inv, Knows;
    RescuesAreNeeded(s, events, s', t);
  }

  lemma CommitIsPastTheCheck(tx: Tx)
    requires tx.pc < |Code(tx.program)| && Current(tx).Commit? && (tx.program.Bootstrap? || tx.program.Recover?)
    ensures PastTheCheck(tx)
  {
  }

  /** A transaction past its check was running before, with the same program. */
  lemma StartsBefore(before: State, e: Event, s': State, t: TxId)
    requires Step(before, e) == Some(s') && t in s'.running && PastTheCheck(s'.running[t])
    ensures t in before.running && before.running[t].program == s'.running[t].program
    ensures !PastTheCheck(before.running[t]) ==> e == Execute(t)
  {
    hide Passes, Written;
  }

  /* ---------- Transactions do commit ---------- */

  /** Only this transaction runs, it is through its first k statements, and nothing is written yet. */
  ghost predicate Alone(s: State, s': State, p: Program, k: nat) {
    && s'.db == s.db && s'.owners == s.owners && s'.running == map[0 := Tx(p, k)]
    && forall l :: l in s'.locks ==> s'.locks[l] == 0
  }

  function Steps(p: Program, k: nat): seq<Event> { if k == 0 then [Begin(0, p)] else Steps(p, k - 1) + [Execute(0)] }

  /** New rows can be created, and the acting account is there. */
  predicate Possible(s: State, p: Program) {
    && (ActorOf(p).Some? ==> ActorOf(p).value in s.db.accounts)
    && (p.CreateAccount? || p.Bootstrap? ==>
          p.account !in s.owners && forall a :: a in s.db.accounts ==> s.db.accounts[a].person != p.person)
    && (p.Bootstrap? ==> p.person !in s.db.people)
  }

  lemma AloneStatement(s: State, before: State, p: Program, k: nat)
    requires Alone(s, before, p, k) && Feasible(s, p) && Possible(s, p) && k < |Code(p)|
    ensures Passes(before, 0, p, Code(p)[k])
  {
    hide Preparation;
    var c := Code(p)[k];
    if c.Commit? {
      assert Applicable(before, p);
    } else {
      if !c.ReferToActor? {
        assert c in Preparation(p);
      }
      hide Code, Feasible;
      SameAnswer(s, before, p, c);
    }
    hide Succeeds, Wants;
  }

  lemma {:induction false} AloneAdvances(s: State, p: Program, k: nat) returns (s': State)
    requires Quiet(s) && Feasible(s, p) && Possible(s, p) && k < |Code(p)|
    ensures Run(s, Steps(p, k)) == Some(s') && Alone(s, s', p, k)
  {
    hide Feasible, Possible, Run, Passes, Code, Wants, Written, DatabaseOk;
    if k == 0 {
      s' := s.(running := map[0 := Tx(p, 0)]);
      NothingRun(s);
      RunOn(s, [], s, Begin(0, p), s');
      assert [] + [Begin(0, p)] == Steps(p, 0);
    } else {
      var before := AloneAdvances(s, p, k - 1);
      AloneStatement(s, before, p, k - 1);
      assert Current(before.running[0]) == Code(p)[k - 1] && !Code(p)[k - 1].Commit?;
      s' := Step(before, Execute(0)).value;
      RunOn(s, Steps(p, k - 1), before, Execute(0), s');
    }
  }

  /** A transaction that runs alone, passes its checks and can create its rows reaches its commit and commits. */
  lemma AloneCommits(s: State, p: Program) returns (before: State, s': State)
    requires Quiet(s) && Feasible(s, p) && Possible(s, p)
    ensures Run(s, Steps(p, |Code(p)| - 1)) == Some(before) && before.db == s.db && before.owners == s.owners
    ensures Inv(before) && Commits(before, 0) && before.running[0].program == p
    ensures Step(before, Execute(0)) == Some(s')
  {
    hide Feasible, Possible, Run, Passes, Wants, Written;
    before := AloneAdvances(s, p, |Code(p)| - 1);
    RunKeepsInv(s, Steps(p, |Code(p)| - 1), before);
    hide Inv, Quiet;
    AloneStatement(s, before, p, |Code(p)| - 1);
    s' := Step(before, Execute(0)).value;
  }

  /** The account is no enabled master, or not the only one. */
  predicate Dispensable(db: Database, a: Id)
    requires a in db.accounts
  {
    !(db.accounts[a].enabled && IsMaster(db, db.accounts[a].person)) || |EnabledMasters(db)| > 1
  }

  /** A program is feasible when each of its statements succeeds. */
  lemma FeasibleIs(s: State, p: Program)
    ensures |Preparation(p)| <= 6
    ensures var code := Preparation(p);
            Feasible(s, p) <==>
              && Succeeds(s, p, code[0])
              && (|code| > 1 ==> Succeeds(s, p, code[1])) && (|code| > 2 ==> Succeeds(s, p, code[2]))
              && (|code| > 3 ==> Succeeds(s, p, code[3])) && (|code| > 4 ==> Succeeds(s, p, code[4]))
              && (|code| > 5 ==> Succeeds(s, p, code[5]))
  {
    hide Succeeds;
    AtMostSix(p);
    hide Preparation;
  }

  lemma AtMostSix(p: Program)
    ensures |Preparation(p)| <= 6
  {
  }

  /** What an account change demands: the account in its expected version and, to disable or delete it, that it is not
      the last enabled master. */
  lemma AccountChangesDemand(s: State, p: Program)
    requires DatabaseOk(s)
    ensures p.Disable? || p.DeleteAccount? ==>
              (Feasible(s, p) <==>
                 && p.account in s.db.accounts && s.db.accounts[p.account].version == p.expected
                 && Dispensable(s.db, p.account))
    ensures p.Deprovision? ==> (Feasible(s, p) <==> p.account in s.db.accounts && Dispensable(s.db, p.account))
    ensures p.Enable? || p.SetPassword? || p.UpdateLoginEmail? ==>
              (Feasible(s, p) <==> p.account in s.db.accounts && s.db.accounts[p.account].version == p.expected)
  {
    FeasibleIs(s, p);
    if p.Disable? || p.DeleteAccount? || p.Deprovision? || p.UpdateLoginEmail? {
      if p.account in s.db.accounts {
        OwnAccount(s, p.account);
      }
    }
    hide Feasible, EnabledMasters, AccountsOf, DatabaseOk;
  }

  /** The check of the last master, for the person of an account. */
  lemma OwnAccount(s: State, a: Id)
    requires DatabaseOk(s) && a in s.db.accounts
    ensures a in s.owners && s.owners[a] in s.db.people
    ensures (AccountsOf(s.db, s.owners[a]) !! EnabledMasters(s.db) || |EnabledMasters(s.db)| > 1) <==>
              Dispensable(s.db, a)
  {
    assert a in AccountsOf(s.db, s.owners[a]);
    assert forall b :: b in AccountsOf(s.db, s.owners[a]) ==> b == a;
    assert a in EnabledMasters(s.db) <==> s.db.accounts[a].enabled && IsMaster(s.db, s.db.accounts[a].person);
  }

  /** What a change of a person demands: the person in the expected version and, to delete a person or take the master
      role away, that none of the person's accounts is the last enabled master. */
  lemma PersonChangesDemand(s: State, p: Program)
    requires DatabaseOk(s)
    ensures p.CreateAccount? ==>
              (Feasible(s, p) <==> p.person in s.db.people && s.db.people[p.person].version == p.expected)
    ensures p.AssignMaster? ==>
              (Feasible(s, p) <==>
                 && p.person in s.db.people && s.db.people[p.person].version == p.expected
                 && !s.db.people[p.person].master)
    ensures p.DeletePerson? ==>
              (Feasible(s, p) <==>
                 && p.person in s.db.people && s.db.people[p.person].version == p.expected
                 && forall a :: a in s.db.accounts && s.db.accounts[a].person == p.person ==> Dispensable(s.db, a))
    ensures p.RemoveMaster? ==>
              (Feasible(s, p) <==>
                 && p.person in s.db.people && s.db.people[p.person].version == p.expected
                 && s.db.people[p.person].master
                 && forall a :: a in s.db.accounts && s.db.accounts[a].person == p.person ==> Dispensable(s.db, a))
  {
    FeasibleIs(s, p);
    if p.DeletePerson? || p.RemoveMaster? {
      AllDispensable(s.db, p.person);
    }
    hide Feasible, EnabledMasters, AccountsOf, DatabaseOk, Dispensable;
  }

  /** The two checks of the last master, for a person. */
  lemma AllDispensable(db: Database, person: Id)
    ensures (AccountsOf(db, person) !! EnabledMasters(db) || |EnabledMasters(db)| > 1) <==>
              forall a :: a in db.accounts && db.accounts[a].person == person ==> Dispensable(db, a)
    ensures IsMaster(db, person) ==>
              (((forall a :: a in AccountsOf(db, person) ==> !db.accounts[a].enabled) || |EnabledMasters(db)| > 1) <==>
                 forall a :: a in db.accounts && db.accounts[a].person == person ==> Dispensable(db, a))
  {
    assert forall a :: a in AccountsOf(db, person) <==> a in db.accounts && db.accounts[a].person == person;
    assert forall a :: a in db.accounts ==>
          (a in EnabledMasters(db) <==> db.accounts[a].enabled && IsMaster(db, db.accounts[a].person));
  }

  /** What a rescue demands: that nobody is assigned the master role, or that no master is enabled. */
  lemma RescuesDemand(s: State, p: Program)
    requires DatabaseOk(s)
    ensures p.Bootstrap? ==>
              (Feasible(s, p) <==> forall person :: person in s.db.people ==> !s.db.people[person].master)
    ensures p.Recover? ==>
              (Feasible(s, p) <==>
                 && p.account in s.db.accounts
                 && forall a :: a in s.db.accounts && s.db.accounts[a].enabled ==>
                      !s.db.people[s.db.accounts[a].person].master)
  {
    FeasibleIs(s, p);
    if p.Recover? {
      assert EnabledMasters(s.db) == {} <==>
          forall a :: a in s.db.accounts ==> a !in EnabledMasters(s.db);
    }
    hide Feasible, AccountsOf;
  }

  /** While another master is enabled, a master's account can be disabled, and then is. */
  lemma SecondMasterCanBeDisabled(s: State, a: Id, b: Id)
    requires Quiet(s) && a != b && a in EnabledMasters(s.db) && b in EnabledMasters(s.db)
    ensures var p := Disable(a, s.db.accounts[a].version, b);
            exists s' :: && Run(s, Steps(p, |Code(p)|)) == Some(s')
                         && a in s'.db.accounts && !s'.db.accounts[a].enabled && EnabledMasters(s'.db) != {}
  {
    var p := Disable(a, s.db.accounts[a].version, b);
    CanBeDisabled(s, a, b);
    hide Feasible, EnabledMasters, Quiet, Run, Inv, Commits, Step;
    var before, s' := AloneCommits(s, p);
    AccountChangesAchieve(before, 0, s');
    OneRemains(s, before, s', a, b);
    RunOn(s, Steps(p, |Code(p)| - 1), before, Execute(0), s');
  }

  lemma CanBeDisabled(s: State, a: Id, b: Id)
    requires Quiet(s) && a != b && a in EnabledMasters(s.db) && b in EnabledMasters(s.db)
    ensures Feasible(s, Disable(a, s.db.accounts[a].version, b)) && Possible(s, Disable(a, s.db.accounts[a].version, b))
  {
    assert {a, b} <= EnabledMasters(s.db);
    TwoAtLeast(EnabledMasters(s.db), a, b);
  }

  lemma TwoAtLeast(masters: set<Id>, a: Id, b: Id)
    requires a != b && a in masters && b in masters
    ensures |masters| > 1
  {
    assert masters == (masters - {a, b}) + {a, b};
    assert |masters| == |masters - {a, b}| + |{a, b}|;
  }

  lemma OneRemains(s: State, before: State, s': State, a: Id, b: Id)
    requires before.db == s.db && b != a && b in EnabledMasters(s.db) && OnlyTouches(before, s', {}, {a})
    ensures b in EnabledMasters(s'.db)
  {
  }
}
