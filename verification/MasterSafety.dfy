/** The last enabled master is never lost, whatever transactions run at the same time. */
module MasterSafety {
  import opened Options
  import opened MasterTransactions

  /** What another transaction's step leaves alone: the locks of `t` and what those locks guard. */
  ghost predicate Undisturbed(s: State, s': State, t: TxId) {
    && (forall l :: Holds(s, t, l) ==> Holds(s', t, l))
    && (forall a :: a in s.owners ==> a in s'.owners && s'.owners[a] == s.owners[a])
    && (forall p :: p in s.db.people && Holds(s, t, PersonRow(p)) ==>
          p in s'.db.people && s'.db.people[p] == s.db.people[p] && AccountsOf(s'.db, p) <= AccountsOf(s.db, p))
    && (forall a :: a in s.db.accounts && Holds(s, t, AccountRow(a)) ==>
          a in s'.db.accounts && s'.db.accounts[a] == s.db.accounts[a])
    && (Holds(s, t, MasterLock) ==> EnabledMasters(s.db) <= EnabledMasters(s'.db))
  }

  lemma ExpendableStays(s: State, s': State, t: TxId, p: Id)
    requires Undisturbed(s, s', t) && Guards(s, t, p) && p in s.db.people && Expendable(s.db, p)
    ensures Guards(s', t, p) && Expendable(s'.db, p)
  {
    var before, after := EnabledMasters(s.db), EnabledMasters(s'.db);
    if |before| > 1 {
      assert before + (after - before) == after && |before + (after - before)| == |before| + |after - before|;
    } else {
      forall a | a in AccountsOf(s'.db, p) ensures a !in after {
      }
    }
  }

  /** Every check is preceded by the locks that keep its answer. */
  predicate Covered(code: seq<Statement>, i: nat)
    requires i < |code|
  {
    match code[i]
    case LockAccount(target) => target.OfPerson? ==> LockPerson(target) in code[..i]
    case AccountVersionIs(a, _) => LockAccount(OfAccount(a)) in code[..i]
    case PersonVersionIs(p, _) => LockPerson(OfPerson(p)) in code[..i]
    case MasterAssigned(p) => LockPerson(OfPerson(p)) in code[..i]
    case MasterNotAssigned(p) => LockPerson(OfPerson(p)) in code[..i]
    case ProtectLastMaster(target) => LockPerson(target) in code[..i] && LockMaster in code[..i]
        && LockAccount(target) in code[..i]
    case ProtectLastEnabledMaster(p) => LockPerson(OfPerson(p)) in code[..i] && LockMaster in code[..i]
        && LockAccount(OfPerson(p)) in code[..i]
    case _ => true
  }

  lemma PreparationIsCovered(p: Program, i: nat)
    requires i < |Preparation(p)|
    ensures Covered(Preparation(p), i)
  {
    var code := Preparation(p);
    if i >= 1 { assert code[0] in code[..i]; }
    if i >= 2 { assert code[1] in code[..i]; }
    if i >= 3 { assert code[2] in code[..i]; }
    if i >= 4 { assert code[3] in code[..i]; }
    if i >= 5 { assert code[4] in code[..i]; }
  }

  lemma CodeIsCovered(p: Program, i: nat)
    requires i < |Code(p)|
    ensures Covered(Code(p), i)
  {
    hide Preparation;
    if i < |Preparation(p)| {
      PreparationIsCovered(p, i);
      assert Code(p)[..i] == Preparation(p)[..i] && Code(p)[i] == Preparation(p)[i];
    }
  }

  predicate EstablishedAll(s: State, t: TxId, code: seq<Statement>) { forall c :: c in code ==> Established(s, t, c) }

  lemma KnowsBefore(s: State, t: TxId, i: nat)
    requires Knows(s, t) && i <= s.running[t].pc
    ensures EstablishedAll(s, t, Code(s.running[t].program)[..i])
  {
  }

  /** Nothing a transaction knows is disturbed while it holds the locks it took. */
  lemma EstablishedStays(s: State, s': State, t: TxId, code: seq<Statement>, i: nat)
    requires Undisturbed(s, s', t) && i < |code| && Covered(code, i) && EstablishedAll(s, t, code[..i])
        && Established(s, t, code[i])
    ensures Established(s', t, code[i])
  {
    match code[i]
    case ProtectLastMaster(target) =>
      assert Established(s, t, LockPerson(target));
      ExpendableStays(s, s', t, PersonOf(s, target));
    case ProtectLastEnabledMaster(p) =>
      assert Established(s, t, LockPerson(OfPerson(p)));
      ExpendableStays(s, s', t, p);
    case LockAccount(target) =>
      if target.OfPerson? {
        assert Established(s, t, LockPerson(target));
      }
    case AccountVersionIs(a, _) => assert Established(s, t, LockAccount(OfAccount(a)));
    case PersonVersionIs(p, _) => assert Established(s, t, LockPerson(OfPerson(p)));
    case MasterAssigned(p) => assert Established(s, t, LockPerson(OfPerson(p)));
    case MasterNotAssigned(p) => assert Established(s, t, LockPerson(OfPerson(p)));
    case _ =>
  }

  lemma KnowledgeStays(s: State, s': State, t: TxId)
    requires Knows(s, t) && Undisturbed(s, s', t) && t in s'.running && s'.running[t] == s.running[t]
    ensures Knows(s', t)
  {
    var code := Code(s.running[t].program);
    forall i | 0 <= i < s.running[t].pc ensures Established(s', t, code[i]) {
      hide Established, Undisturbed, Covered;
      CodeIsCovered(s.running[t].program, i);
      KnowsBefore(s, t, i);
      EstablishedStays(s, s', t, code, i);
    }
  }

  /* ---------- A transaction's own step ---------- */

  lemma StatementEstablishes(s: State, s': State, t: TxId, code: seq<Statement>, i: nat, p: Program)
    requires DatabaseOk(s) && i < |code| && Covered(code, i) && EstablishedAll(s, t, code[..i]) && !code[i].Commit?
    requires Passes(s, t, p, code[i])
    requires s'.db == s.db && s'.owners == s.owners && (forall l ::
          Holds(s', t, l) <==> Holds(s, t, l) || l in Wants(s, t, code[i]))
    ensures Established(s', t, code[i])
  {
    match code[i]
    case ProtectLastMaster(target) =>
      assert Established(s, t, LockPerson(target)) && Established(s, t, LockMaster)
          && Established(s, t, LockAccount(target));
    case ProtectLastEnabledMaster(p) =>
      assert Established(s, t, LockPerson(OfPerson(p))) && Established(s, t, LockMaster)
          && Established(s, t, LockAccount(OfPerson(p)));
    case MasterNotAssigned(p) => assert Established(s, t, LockPerson(OfPerson(p)));
    case _ =>
  }

  /* ---------- Commits ---------- */

  /** A transaction about to commit, with everything its program checked still true. */
  ghost predicate Committing(s: State, t: TxId, p: Program) {
    && DatabaseOk(s) && EstablishedAll(s, t, Code(p)[..|Code(p)| - 1]) && Applicable(s, p)
  }

  /** Rows change only under their locks: people and whose account there is, accounts, and who is an enabled master. */
  lemma PeopleChangeUnderLock(s: State, t: TxId, p: Program, person: Id)
    requires Committing(s, t, p) && person in s.db.people && !Holds(s, t, PersonRow(person))
    ensures var db := Written(s, p);
            person in db.people && db.people[person] == s.db.people[person]
                && AccountsOf(db, person) <= AccountsOf(s.db, person)
  {
    FirstStatement(s, t, p);
  }

  lemma AccountsChangeUnderLock(s: State, t: TxId, p: Program, account: Id)
    requires Committing(s, t, p) && account in s.db.accounts && !Holds(s, t, AccountRow(account))
    ensures var db := Written(s, p); account in db.accounts && db.accounts[account] == s.db.accounts[account]
  {
    FirstStatement(s, t, p);
  }

  /** The statement that takes the rows a program writes. */
  lemma FirstStatement(s: State, t: TxId, p: Program)
    requires Committing(s, t, p)
    ensures p.Disable? || p.DeleteAccount? || p.Deprovision? || p.Recover? || p.UpdateLoginEmail? ==>
              && Established(s, t, LockPerson(OfAccount(p.account)))
              && Established(s, t, LockAccount(OfAccount(p.account)))
    ensures p.Enable? || p.SetPassword? ==> Established(s, t, LockAccount(OfAccount(p.account)))
    ensures p.DeletePerson? || p.RemoveMaster? ==>
              Established(s, t, LockPerson(OfPerson(p.person))) && Established(s, t, LockAccount(OfPerson(p.person)))
    ensures p.AssignMaster? || p.CreateAccount? ==> Established(s, t, LockPerson(OfPerson(p.person)))
  {
    hide Established;
    Prepared(s, t, p);
    var before := Preparation(p);
    assert before[0] in before;
    if |before| > 1 { assert before[1] in before; }
    if |before| > 2 { assert before[2] in before; }
    if |before| > 3 { assert before[3] in before; }
    if |before| > 4 { assert before[4] in before; }
  }

  lemma Prepared(s: State, t: TxId, p: Program)
    requires Committing(s, t, p)
    ensures EstablishedAll(s, t, Preparation(p))
  {
    hide Preparation, Established;
    assert forall i :: 0 <= i < |Preparation(p)| ==> Code(p)[..|Code(p)| - 1][i] == Preparation(p)[i];
  }

  /** The person whose account may stop being an enabled master, if there is one. */
  function Demoted(s: State, p: Program): set<Id>
    requires p.Disable? || p.DeleteAccount? || p.Deprovision? ==> p.account in s.owners
  {
    match p
    case Disable(a, _, _) => AccountsOf(s.db, s.owners[a])
    case DeleteAccount(a, _, _) => AccountsOf(s.db, s.owners[a])
    case Deprovision(a) => AccountsOf(s.db, s.owners[a])
    case DeletePerson(person, _, _) => AccountsOf(s.db, person)
    case RemoveMaster(person, _, _) => AccountsOf(s.db, person)
    case _ => {}
  }

  lemma OnlyDemotedLeave(s: State, t: TxId, p: Program)
    requires Committing(s, t, p) && (p.Disable? || p.DeleteAccount? || p.Deprovision? ==> p.account in s.owners)
    ensures EnabledMasters(s.db) - Demoted(s, p) <= EnabledMasters(Written(s, p))
  {
    FirstStatement(s, t, p);
  }

  /** A program that can demote somebody holds the guard's lock and has checked that the account is expendable. */
  lemma DemotingIsChecked(s: State, t: TxId, p: Program)
    requires Committing(s, t, p)
    ensures p.Disable? || p.DeleteAccount? || p.Deprovision? ==>
              p.account in s.owners && Guards(s, t, s.owners[p.account]) && Expendable(s.db, s.owners[p.account])
    ensures p.DeletePerson? || p.RemoveMaster? ==> Guards(s, t, p.person) && Expendable(s.db, p.person)
  {
    Prepared(s, t, p);
    var before := Preparation(p);
    assert before[|before| - 1] in before;
  }

  lemma AtMostOneAccount(s: State, person: Id)
    requires DatabaseOk(s)
    ensures |AccountsOf(s.db, person)| <= 1
  {
    var accounts := AccountsOf(s.db, person);
    if accounts != {} {
      var a :| a in accounts;
      assert accounts == {a};
    }
  }

  /** No commit takes away the last enabled master. */
  lemma CommitKeepsMaster(s: State, t: TxId, p: Program)
    requires Committing(s, t, p) && EnabledMasters(s.db) != {}
    ensures EnabledMasters(Written(s, p)) != {}
  {
    DemotingIsChecked(s, t, p);
    OnlyDemotedLeave(s, t, p);
    var masters, gone := EnabledMasters(s.db), Demoted(s, p);
    if gone == {} {
      assert masters - gone == masters;
    } else {
      var person := if p.DeletePerson? || p.RemoveMaster? then p.person else s.owners[p.account];
      AtMostOneAccount(s, person);
      SomeoneRemains(masters, gone);
    }
  }

  lemma SomeoneRemains<T>(masters: set<T>, gone: set<T>)
    requires masters != {} && |gone| <= 1 && (gone !! masters || |masters| > 1)
    ensures masters - gone != {}
  {
    assert (masters - gone) + (masters * gone) == masters;
    assert (gone - masters) + (masters * gone) == gone;
  }

  lemma CommitUndisturbing(s: State, t: TxId, p: Program, s': State, u: TxId)
    requires Committing(s, t, p) && u != t
    requires s'.db == Written(s, p) && s'.owners == OwnersAfter(s, p) && s'.locks == Released(s.locks, t)
    ensures Undisturbed(s, s', u)
  {
    forall person | person in s.db.people && Holds(s, u, PersonRow(person))
      ensures person in s'.db.people && s'.db.people[person] == s.db.people[person]
          && AccountsOf(s'.db, person) <= AccountsOf(s.db, person)
    {
      PeopleChangeUnderLock(s, t, p, person);
    }
    forall account | account in s.db.accounts && Holds(s, u, AccountRow(account))
      ensures account in s'.db.accounts && s'.db.accounts[account] == s.db.accounts[account]
    {
      AccountsChangeUnderLock(s, t, p, account);
    }
    if Holds(s, u, MasterLock) {
      DemotingIsChecked(s, t, p);
      OnlyDemotedLeave(s, t, p);
      assert Demoted(s, p) == {};
    }
    hide Written, EnabledMasters, AccountsOf, Committing, Guards;
  }

  lemma NewAccountFits(s: State, p: Program, s': State)
    requires DatabaseOk(s) && Applicable(s, p) && (p.CreateAccount? || p.Bootstrap?)
        && (p.CreateAccount? ==> p.person in s.db.people)
    requires s'.db == Written(s, p) && s'.owners == OwnersAfter(s, p)
    ensures DatabaseOk(s')
  {
    assert forall b :: b in s.db.accounts ==> b != p.account && b !in AccountsOf(s.db, p.person);
  }

  lemma AccountsRemain(s: State, p: Program, a: Id)
    requires !p.CreateAccount? && !p.Bootstrap? && a in Written(s, p).accounts
    ensures a in s.db.accounts && Written(s, p).accounts[a].person == s.db.accounts[a].person
    ensures s.db.accounts[a].person in s.db.people ==> s.db.accounts[a].person in Written(s, p).people
  {
  }

  lemma OldAccountsFit(s: State, p: Program, s': State)
    requires DatabaseOk(s) && !p.CreateAccount? && !p.Bootstrap?
    requires s'.db == Written(s, p) && s'.owners == OwnersAfter(s, p)
    ensures DatabaseOk(s')
  {
    hide Written;
    forall a | a in s'.db.accounts
      ensures a in s.db.accounts && s'.db.accounts[a].person == s.db.accounts[a].person
      ensures s.db.accounts[a].person in s'.db.people
    {
      AccountsRemain(s, p, a);
    }
  }

  lemma CommitKeepsDatabase(s: State, t: TxId, p: Program, s': State)
    requires Committing(s, t, p) && s'.db == Written(s, p) && s'.owners == OwnersAfter(s, p)
    ensures DatabaseOk(s')
  {
    hide Written, OwnersAfter, EnabledMasters, AccountsOf;
    if p.CreateAccount? || p.Bootstrap? {
      FirstStatement(s, t, p);
      NewAccountFits(s, p, s');
    } else {
      OldAccountsFit(s, p, s');
    }
  }

  /* ---------- Runs ---------- */

  ghost predicate Inv(s: State) { DatabaseOk(s) && TransactionsOk(s) }

  lemma ReadyToCommit(s: State, t: TxId)
    requires Inv(s) && t in s.running && Passes(s, t, s.running[t].program, Current(s.running[t]))
        && Current(s.running[t]).Commit?
    ensures Committing(s, t, s.running[t].program)
  {
    assert Knows(s, t);
    KnowsBefore(s, t, s.running[t].pc);
  }

  /** No step of one transaction disturbs another one. */
  lemma OthersUndisturbed(s: State, e: Event, s': State, u: TxId)
    requires Inv(s) && Step(s, e) == Some(s') && u != e.t
    ensures Undisturbed(s, s', u)
  {
    if e.Execute? && Current(s.running[e.t]).Commit? {
      ReadyToCommit(s, e.t);
      CommitUndisturbing(s, e.t, s.running[e.t].program, s', u);
    } else {
      hide Code, Current, Knows, EnabledMasters, AccountsOf, Succeeds, Written;
    }
  }

  lemma OthersKnow(s: State, e: Event, s': State, u: TxId)
    requires Inv(s) && Step(s, e) == Some(s') && u != e.t && u in s.running
    ensures Knows(s', u)
  {
    hide Undisturbed, Passes, Written, DatabaseOk;
    assert Knows(s, u);
    OthersUndisturbed(s, e, s', u);
    hide Knows;
    KnowledgeStays(s, s', u);
  }

  lemma ActorKnows(s: State, t: TxId, s': State)
    requires Inv(s) && Step(s, Execute(t)) == Some(s') && t in s'.running
    ensures Knows(s', t)
  {
    var tx := s.running[t];
    var code := Code(tx.program);
    assert Knows(s, t) && code[tx.pc] == Current(tx);
    assert forall l :: Holds(s', t, l) <==> Holds(s, t, l) || l in Wants(s, t, Current(tx));
    forall i | 0 <= i <= tx.pc ensures Established(s', t, code[i]) {
      CodeIsCovered(tx.program, i);
      KnowsBefore(s, t, i);
      if i == tx.pc {
        hide Code, Wants, Established, Covered, DatabaseOk, Passes;
        StatementEstablishes(s, s', t, code, i, tx.program);
      } else {
        assert Established(s, t, code[i]);
        hide Code, Wants, Covered, Passes, Step;
        SameDatabaseKeeps(s, s', t, code[i]);
      }
    }
    hide Passes, Established, Wants;
  }

  lemma SameDatabaseKeeps(s: State, s': State, t: TxId, c: Statement)
    requires Established(s, t, c) && s'.db == s.db && s'.owners == s.owners
        && (forall l :: Holds(s, t, l) ==> Holds(s', t, l))
    ensures Established(s', t, c)
  {
  }

  lemma StepKeepsInv(s: State, e: Event, s': State)
    requires Inv(s) && Step(s, e) == Some(s')
    ensures Inv(s')
  {
    if e.Execute? && Current(s.running[e.t]).Commit? {
      ReadyToCommit(s, e.t);
      CommitKeepsDatabase(s, e.t, s.running[e.t].program, s');
    }
    forall u | u in s'.running ensures Knows(s', u) {
      if u != e.t {
        OthersKnow(s, e, s', u);
      } else if e.Execute? {
        ActorKnows(s, u, s');
      }
    }
    hide Knows, Step, Passes;
  }

  lemma StepKeepsMaster(s: State, e: Event, s': State)
    requires Inv(s) && Step(s, e) == Some(s') && EnabledMasters(s.db) != {}
    ensures EnabledMasters(s'.db) != {}
  {
    if e.Execute? && Current(s.running[e.t]).Commit? {
      ReadyToCommit(s, e.t);
      CommitKeepsMaster(s, e.t, s.running[e.t].program);
    }
    hide EnabledMasters, Passes, Written;
  }

  lemma {:induction false} RunKeepsInv(s: State, events: seq<Event>, s': State)
    requires Inv(s) && Run(s, events) == Some(s')
    ensures Inv(s') && (EnabledMasters(s.db) != {} ==> EnabledMasters(s'.db) != {})
  {
    if events != [] {
      var before := Run(s, events[..|events| - 1]).value;
      RunKeepsInv(s, events[..|events| - 1], before);
      hide EnabledMasters, Inv, Step;
      StepKeepsInv(before, events[|events| - 1], s');
      if EnabledMasters(before.db) != {} {
        StepKeepsMaster(before, events[|events| - 1], s');
      }
    }
  }

  /** From any database with an enabled master, no interleaving of these transactions ever reaches one without. */
  lemma LastMasterIsNeverLost(s: State, events: seq<Event>, s': State)
    requires DatabaseOk(s) && s.running == map[] && EnabledMasters(s.db) != {}
    requires Run(s, events) == Some(s')
    ensures EnabledMasters(s'.db) != {}
  {
    RunKeepsInv(s, events, s');
  }

  /** Once a transaction has compared a version under the row's lock, its guarded write cannot find the row changed. */
  lemma VersionStaysChecked(s: State, t: TxId)
    requires Inv(s) && t in s.running && Current(s.running[t]).Commit?
    ensures var p := s.running[t].program;
            && (p.Disable? || p.DeleteAccount? || p.Enable? || p.UpdateLoginEmail? || p.SetPassword? ==>
                  p.account in s.db.accounts && s.db.accounts[p.account].version == p.expected)
            && (p.DeletePerson? || p.AssignMaster? || p.RemoveMaster? || p.CreateAccount? ==>
                  p.person in s.db.people && s.db.people[p.person].version == p.expected)
  {
    assert Knows(s, t);
    var p := s.running[t].program;
    assert s.running[t].pc == |Code(p)| - 1;
    assert forall i :: 0 <= i < |Preparation(p)| ==> Established(s, t, Preparation(p)[i]) by {
      hide Preparation, Established;
      assert forall i :: 0 <= i < |Preparation(p)| ==> Code(p)[i] == Preparation(p)[i];
    }
    if p.DeletePerson? || p.AssignMaster? || p.RemoveMaster? || p.CreateAccount? {
      assert Established(s, t, Preparation(p)[1]);
    } else if p.Disable? || p.DeleteAccount? {
      assert Established(s, t, Preparation(p)[3]);
    } else if p.Enable? || p.SetPassword? {
      assert Established(s, t, Preparation(p)[1]);
    } else if p.UpdateLoginEmail? {
      assert Established(s, t, Preparation(p)[2]);
    }
  }
}
