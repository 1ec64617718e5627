/** The transactions that can change who is an enabled master, interleaved in any number. A transaction is a program of
    locking, checking and writing statements; what it writes becomes visible, and its locks are released, when it
    commits. */
module MasterTransactions {
  import opened Options

  type Id = nat
  type TxId = nat

  datatype Person = Person(version: int, master: bool)

  datatype Account = Account(person: Id, enabled: bool, version: int)

  datatype Database = Database(people: map<Id, Person>, accounts: map<Id, Account>)

  /** Row locks, the advisory lock that guards the last-master rule, and the shared lock that a foreign key takes on the
      account row it refers to: any number of transactions may share it, but none of them with an exclusive lock of
      another one on that row. */
  datatype Lock = PersonRow(person: Id) | MasterLock | AccountRow(account: Id) | Reference(account: Id, holder: TxId)

  /** The programs of the HTTP services carry the account that acts; provisioning and the command line have none. The
      login e-mail of an account is mirrored into the person's row when it differs from the e-mail there. */
  datatype Program =
    | Disable(account: Id, expected: int, actor: Id)
    | DeleteAccount(account: Id, expected: int, actor: Id)
    | Enable(account: Id, expected: int, actor: Id)
    | Deprovision(account: Id)
    | DeletePerson(person: Id, expected: int, actor: Id)
    | AssignMaster(person: Id, expected: int, actor: Id)
    | RemoveMaster(person: Id, expected: int, actor: Id)
    | CreateAccount(person: Id, expected: int, account: Id, mirrored: bool, actor: Id)
    | Bootstrap(person: Id, account: Id)
    | Recover(account: Id)
    | UpdateLoginEmail(account: Id, expected: int, mirrored: bool, actor: Id)
    | SetPassword(account: Id, expected: int, actor: Id)

  /** Statements name a person directly or as the person of an account. */
  datatype Target = OfPerson(person: Id) | OfAccount(account: Id)

  datatype Statement =
    | LockPerson(target: Target)
    | LockMaster
    | LockAccount(target: Target)
    | AccountVersionIs(account: Id, version: int)
    | PersonVersionIs(person: Id, version: int)
    | MasterAssigned(person: Id)
    | MasterNotAssigned(person: Id)
    | ProtectLastMaster(target: Target)
    | ProtectLastEnabledMaster(person: Id)
    | NoMasterAssigned
    | NoEnabledMaster
    | ReferToActor(actor: Id)
    | Commit

  function ActorOf(p: Program): Option<Id> {
    if p.Deprovision? || p.Bootstrap? || p.Recover? then None else Some(p.actor)
  }

  /** The locks and checks of a program, in order. */
  function Preparation(p: Program): (code: seq<Statement>)
    ensures code != [] && forall i :: 0 <= i < |code| ==> !code[i].Commit? && !code[i].ReferToActor?
  {
    match p
    case Disable(a, v, _) =>
      [LockPerson(OfAccount(a)), LockMaster, LockAccount(OfAccount(a)), AccountVersionIs(a, v),
       ProtectLastMaster(OfAccount(a))]
    case DeleteAccount(a, v, _) =>
      [LockPerson(OfAccount(a)), LockMaster, LockAccount(OfAccount(a)), AccountVersionIs(a, v),
       ProtectLastMaster(OfAccount(a))]
    case Enable(a, v, _) => [LockAccount(OfAccount(a)), AccountVersionIs(a, v)]
    case Deprovision(a) =>
      [LockPerson(OfAccount(a)), LockMaster, LockAccount(OfAccount(a)), ProtectLastMaster(OfAccount(a))]
    case DeletePerson(p, v, _) =>
      [LockPerson(OfPerson(p)), PersonVersionIs(p, v), LockMaster, LockAccount(OfPerson(p)),
       ProtectLastMaster(OfPerson(p))]
    case AssignMaster(p, v, _) => [LockPerson(OfPerson(p)), PersonVersionIs(p, v), MasterNotAssigned(p)]
    case RemoveMaster(p, v, _) =>
      [LockPerson(OfPerson(p)), PersonVersionIs(p, v), MasterAssigned(p), LockMaster, LockAccount(OfPerson(p)),
       ProtectLastEnabledMaster(p)]
    case CreateAccount(p, v, _, _, _) => [LockPerson(OfPerson(p)), PersonVersionIs(p, v)]
    case Bootstrap(_, _) => [LockMaster, NoMasterAssigned]
    case Recover(a) => [LockPerson(OfAccount(a)), LockMaster, NoEnabledMaster, LockAccount(OfAccount(a))]
    case UpdateLoginEmail(a, v, _, _) => [LockPerson(OfAccount(a)), LockAccount(OfAccount(a)), AccountVersionIs(a, v)]
    case SetPassword(a, v, _) => [LockAccount(OfAccount(a)), AccountVersionIs(a, v)]
  }

  /** After its locks and checks a program writes its rows; the last lock is the reference of its audit row, and of its
      role assignment, to the acting account. */
  function Code(p: Program): (code: seq<Statement>)
    ensures |code| > |Preparation(p)| && forall i :: 0 <= i < |code| ==> (code[i].Commit? <==> i == |code| - 1)
  {
    Preparation(p) + if ActorOf(p).Some? then [ReferToActor(ActorOf(p).value), Commit] else [Commit]
  }

  datatype Tx = Tx(program: Program, pc: nat)

  /** `owners` remembers the person of every account ever created: the link never changes, and ids are never reused. */
  datatype State = State(db: Database, owners: map<Id, Id>, locks: map<Lock, TxId>, running: map<TxId, Tx>)

  datatype Event = Begin(t: TxId, program: Program) | Execute(t: TxId) | Abort(t: TxId)

  function AccountsOf(db: Database, person: Id): set<Id> { set a | a in db.accounts && db.accounts[a].person == person }

  predicate IsMaster(db: Database, person: Id) { person in db.people && db.people[person].master }

  function EnabledMasters(db: Database): set<Id> {
    set a | a in db.accounts && db.accounts[a].enabled && IsMaster(db, db.accounts[a].person)
  }

  function Current(tx: Tx): Statement { if tx.pc < |Code(tx.program)| then Code(tx.program)[tx.pc] else Commit }

  /* ---------- What the statements do ---------- */

  predicate Known(s: State, target: Target) { target.OfAccount? ==> target.account in s.owners }

  function PersonOf(s: State, target: Target): Id
    requires Known(s, target)
  {
    if target.OfPerson? then target.person else s.owners[target.account]
  }

  /** The exclusive locks a statement takes. */
  function Rows(s: State, c: Statement): set<Lock> {
    match c
    case LockPerson(target) => if Known(s, target) then {PersonRow(PersonOf(s, target))} else {}
    case LockMaster => {MasterLock}
    case LockAccount(target) =>
      if target.OfAccount? then {AccountRow(target.account)}
      else set a | a in AccountsOf(s.db, target.person) :: AccountRow(a)
    case _ => {}
  }

  /** All locks a statement of a transaction takes. */
  function Wants(s: State, t: TxId, c: Statement): set<Lock> {
    if c.ReferToActor? then {Reference(c.actor, t)} else Rows(s, c)
  }

  predicate Holds(s: State, t: TxId, l: Lock) { l in s.locks && s.locks[l] == t }

  /** A lock held by one transaction keeps another one from a lock. */
  predicate Blocks(held: Lock, holder: TxId, t: TxId, wanted: Lock) {
    && holder != t
    && (held == wanted || (held.Reference? && wanted == AccountRow(held.account))
        || (wanted.Reference? && held == AccountRow(wanted.account)))
  }

  predicate MayTake(s: State, t: TxId, locks: set<Lock>) {
    forall l, h :: l in locks && h in s.locks ==> !Blocks(h, s.locks[h], t, l)
  }

  /** Whether the rows are there and the check holds; otherwise the transaction must abort. */
  predicate Succeeds(s: State, p: Program, c: Statement) {
    match c
    case LockPerson(target) => Known(s, target) && PersonOf(s, target) in s.db.people
    case LockAccount(target) => target.OfAccount? ==> target.account in s.db.accounts
    case AccountVersionIs(a, v) => a in s.db.accounts && s.db.accounts[a].version == v
    case PersonVersionIs(p, v) => p in s.db.people && s.db.people[p].version == v
    case MasterAssigned(p) => IsMaster(s.db, p)
    case MasterNotAssigned(p) => !IsMaster(s.db, p)
    case ProtectLastMaster(target) =>
      && Known(s, target)
      && (AccountsOf(s.db, PersonOf(s, target)) !! EnabledMasters(s.db) || |EnabledMasters(s.db)| > 1)
    case ProtectLastEnabledMaster(p) =>
      (forall a :: a in AccountsOf(s.db, p) ==> !s.db.accounts[a].enabled) || |EnabledMasters(s.db)| > 1
    case NoMasterAssigned => forall p :: p in s.db.people ==> !s.db.people[p].master
    case NoEnabledMaster => EnabledMasters(s.db) == {}
    case ReferToActor(actor) => actor in s.db.accounts
    case Commit => Applicable(s, p)
    case LockMaster => true
  }

  /** Whether a statement goes through now; otherwise the transaction waits for a lock or must abort. */
  predicate Passes(s: State, t: TxId, p: Program, c: Statement) { MayTake(s, t, Wants(s, t, c)) && Succeeds(s, p, c) }

  /** New rows have new ids, and a person has at most one account. */
  predicate Applicable(s: State, p: Program) {
    match p
    case CreateAccount(p, _, a, _, _) => a !in s.owners && AccountsOf(s.db, p) == {}
    case Bootstrap(p, a) => a !in s.owners && p !in s.db.people && AccountsOf(s.db, p) == {}
    case _ => true
  }

  function SetEnabled(db: Database, a: Id, enabled: bool): Database {
    if a in db.accounts
    then db.(accounts := db.accounts[a := db.accounts[a].(enabled := enabled, version := db.accounts[a].version + 1)])
    else db
  }

  function SetMaster(db: Database, p: Id, master: bool): Database {
    if p in db.people
    then db.(people := db.people[p := db.people[p].(master := master, version := db.people[p].version + 1)])
    else db
  }

  /** What a program has written when it commits. */
  function Written(s: State, p: Program): Database {
    var db := s.db;
    match p
    case Disable(a, _, _) => SetEnabled(db, a, false)
    case Deprovision(a) => SetEnabled(db, a, false)
    case Enable(a, _, _) => SetEnabled(db, a, true)
    case DeleteAccount(a, _, _) => db.(accounts := db.accounts - {a})
    case DeletePerson(p, _, _) => Database(db.people - {p}, db.accounts - AccountsOf(db, p))
    case AssignMaster(p, _, _) => SetMaster(db, p, true)
    case RemoveMaster(p, _, _) => SetMaster(db, p, false)
    case CreateAccount(p, _, a, mirrored, _) =>
      Mirrored(db, p, mirrored).(accounts := db.accounts[a := Account(p, true, 1)])
    case Bootstrap(p, a) => Database(db.people[p := Person(1, true)], db.accounts[a := Account(p, true, 1)])
    case Recover(a) =>
      if a in s.owners && !IsMaster(db, s.owners[a]) then SetEnabled(SetMaster(db, s.owners[a], true), a, true)
      else SetEnabled(db, a, true)
    case UpdateLoginEmail(a, _, mirrored, _) =>
      if a in s.owners then Mirrored(BumpAccount(db, a), s.owners[a], mirrored) else BumpAccount(db, a)
    case SetPassword(a, _, _) => BumpAccount(db, a)
  }

  function BumpAccount(db: Database, a: Id): Database {
    if a in db.accounts then db.(accounts := db.accounts[a := db.accounts[a].(version := db.accounts[a].version + 1)])
    else db
  }

  /** A person's row after its e-mail was mirrored. */
  function Mirrored(db: Database, p: Id, mirrored: bool): Database {
    if mirrored && p in db.people
    then db.(people := db.people[p := db.people[p].(version := db.people[p].version + 1)])
    else db
  }

  function OwnersAfter(s: State, p: Program): map<Id, Id> {
    if p.CreateAccount? || p.Bootstrap? then s.owners[p.account := p.person] else s.owners
  }

  function Released(locks: map<Lock, TxId>, t: TxId): map<Lock, TxId> {
    map l | l in locks && locks[l] != t :: locks[l]
  }

  function Taken(locks: map<Lock, TxId>, t: TxId, wanted: set<Lock>): map<Lock, TxId> {
    map l | l in locks.Keys + wanted :: if l in wanted then t else locks[l]
  }

  /** The state after an event, or None when it cannot happen now. */
  function Step(s: State, e: Event): Option<State> {
    match e
    case Begin(t, p) => if t in s.running then None else Some(s.(running := s.running[t := Tx(p, 0)]))
    case Abort(t) =>
      if t in s.running then Some(s.(locks := Released(s.locks, t), running := s.running - {t})) else None
    case Execute(t) =>
      if t !in s.running || !Passes(s, t, s.running[t].program, Current(s.running[t])) then None
      else
        var tx := s.running[t];
        if Current(tx).Commit?
        then Some(State(Written(s, tx.program), OwnersAfter(s, tx.program), Released(s.locks, t), s.running - {t}))
        else
          Some(s.(locks := Taken(s.locks, t, Wants(s, t, Current(tx))),
                  running := s.running[t := tx.(pc := tx.pc + 1)]))
  }

  function Run(s: State, events: seq<Event>): Option<State> {
    if events == [] then Some(s)
    else
      var before := Run(s, events[..|events| - 1]);
      if before.Some? then Step(before.value, events[|events| - 1]) else None
  }

  /* ---------- What a transaction knows ---------- */

  predicate DatabaseOk(s: State) {
    && (forall a, b ::
          a in s.db.accounts && b in s.db.accounts && s.db.accounts[a].person == s.db.accounts[b].person ==> a == b)
    && (forall a :: a in s.db.accounts ==>
          a in s.owners && s.owners[a] == s.db.accounts[a].person && s.db.accounts[a].person in s.db.people)
  }

  /** The transaction holds everything that could change whether the person's account is an enabled master. */
  predicate Guards(s: State, t: TxId, person: Id) {
    && Holds(s, t, MasterLock) && Holds(s, t, PersonRow(person))
    && forall a :: a in AccountsOf(s.db, person) ==> Holds(s, t, AccountRow(a))
  }

  predicate Expendable(db: Database, person: Id) {
    AccountsOf(db, person) !! EnabledMasters(db) || |EnabledMasters(db)| > 1
  }

  /** What stays true from a statement on until the transaction ends. */
  predicate Established(s: State, t: TxId, c: Statement) {
    match c
    case LockPerson(target) => Known(s, target) && PersonOf(s, target) in s.db.people
        && Holds(s, t, PersonRow(PersonOf(s, target)))
    case LockMaster => Holds(s, t, MasterLock)
    case LockAccount(target) =>
      if target.OfAccount? then target.account in s.db.accounts && Holds(s, t, AccountRow(target.account))
      else forall a :: a in AccountsOf(s.db, target.person) ==> Holds(s, t, AccountRow(a))
    case AccountVersionIs(a, v) => a in s.db.accounts && s.db.accounts[a].version == v
    case PersonVersionIs(p, v) => p in s.db.people && s.db.people[p].version == v
    case MasterAssigned(p) => IsMaster(s.db, p)
    case MasterNotAssigned(p) => p in s.db.people && !IsMaster(s.db, p)
    case ProtectLastMaster(target) => Known(s, target) && Guards(s, t, PersonOf(s, target))
        && Expendable(s.db, PersonOf(s, target))
    case ProtectLastEnabledMaster(p) => Guards(s, t, p) && Expendable(s.db, p)
    case _ => true
  }

  predicate Knows(s: State, t: TxId) {
    t in s.running && s.running[t].pc < |Code(s.running[t].program)|
    && forall i :: 0 <= i < s.running[t].pc ==> Established(s, t, Code(s.running[t].program)[i])
  }

  predicate TransactionsOk(s: State) { forall t :: t in s.running ==> Knows(s, t) }
}
