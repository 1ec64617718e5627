# Verified model of Makerspace Core

This project models five parts of Makerspace Core whose correctness rests on more than one function, and proves what
their code, comments and tests promise. `dafny verify dfyconfig.toml` checks all of it.

**Camera relay** (`Relay*.dfy`, `ViewerRate.dfy`). The hub that connects viewers with printer connectors is a state
machine: every critical section under the hub's mutex is one step, and so is every action between them (a send, a close,
the ending of one orphan). Any number of threads interleave. `RelayModel` defines the steps, `RelayTallies` the
bookkeeping, `RelayProtocol`, `RelayThreads` and `RelayInvariants` what each step keeps about sessions, channels and
threads, `RelayDuties` that nothing the hub still needs is forgotten, `RelayOwnership` who must close each connection,
`RelayChannels` that every channel being served is registered or will be stopped, `RelayAnswers` whom the hub admits,
refuses and ends with which code, `RelayTheorems` the results for every reachable state and every run, and
`RelayShutdown`, `RelayProgress`, `RelayWaiting` and `RelayFairness` that waiting for the closed hub ends, by what
Close, a replacing channel and the end of a session stop and close. `RelayHub` is the hub as the program keeps it, with
objects changed in place; each of its methods is proved to be the step of the state machine.

**Conditional permission grants** (`Grants.dfy`, `PrincipalLoading.dfy`, `Reauthentication.dfy`). When a grant admits a
request, which grants may be delegated, how a principal is rebuilt from database rows, and what signing in again changes.

**The last master** (`Master*.dfy`). Twelve transactions as programs of locking, checking and writing statements, in any
number and interleaving, under READ COMMITTED: writes become visible and locks are released at commit, and a transaction
may abort at any moment. `MasterSafety` proves that the last master stays, `MasterEffects` what each transaction demands
and achieves, and `MasterLocking`, `MasterStandoffs` and `MasterDeadlocks` when transactions wait for each other. What
each query locks, counts and changes is taken from `backend/internal/accounts/db/queries.sql` and
`backend/internal/people/db/queries.sql`; the person of an account never changes and is unique
(`backend/migrations/00001_initial.sql:23`). The audit row of a transaction refers to the account that acts
(`backend/migrations/00001_initial.sql:162`), so the database takes a shared lock on that account's row, after the
transaction's own exclusive locks.

**Configuration import** (`PricingPlan.dfy`, `SetupMatching.dfy`, `ImportReport.dfy`, `SectionImport.dfy`,
`SectionConvergence.dfy`, `SectionResults.dfy`, with `Texts.dfy`). Planning pricing rules, matching a printer setup by
name, and the two passes that import a section. A service call is modelled as applied, or as refused and recorded as a
conflict; which names are refused is arbitrary.

**Event broker and SVG sanitizer** (`EventBroker.dfy`, `EventPolling.dfy`, `SvgSanitizer.dfy`). A bounded buffer that
refines an unbounded log, and a token transformer.

Clocks, ids and the answers of services are parameters. New ids are assumed to be unused.

## Where the code and its promises differ

- `GrantRecentAuthentication` is documented as "a weaker proof never lowers the session"
  (`backend/internal/auth/reauthentication.go`). That holds for the base assurance only: `Reauthentication.WeakerProofCanLower`
  shows a password sign-in ending a temporary raise, and `Reauthentication.LoweredExactlyWhen` says exactly when it happens.
- `CanDelegate` decides containment exactly when stored windows are at most 1440 minutes, which the database enforces but
  `LoadPermissions` does not. `Grants.OversizeWindowBreaksExactness` is a stored window of 2000 minutes that lets its holder
  hand out what nobody could use; `Grants.ExactIffOversizeIsRedundant` is the exact boundary.
- The viewer limit of 10 frames a second admits 19 in some seconds: `ViewerRate.NineteenCanPass` is such an input, and
  more than 19 never pass (`ViewerRate.ForwardsALimitedPrefix`). All of a viewer's texts pass within the limit if and only
  if the viewer keeps to it, and such a viewer is never cut: `ViewerRate.ConformingViewers`.
- The shared lock on the acting account comes last, outside the order person, master lock, account. Two administrators
  who act on each other's accounts at the same time can wait for each other: `MasterDeadlocks.TwoAdministrators`.
  `MasterDeadlocks.DeadlockExactlyWhen` says which programs can, `MasterStandoffs.NoDeadlock` that no others do. The router
  answers the aborted one with a request to try again (`backend/internal/httpapi/router.go:1006`).
- A second overwrite of the competencies repeats nothing only while the trainings that feed a kept one still do: the
  training counts are read before the same import changes the trainings. `SectionConvergence.SecondOverwriteCanDelete` is
  an example, `SectionConvergence.SecondOverwriteIsQuiet` the exact condition.
- Dropping attribute prefixes can make two attributes of an SVG element one, which XML forbids:
  `SvgSanitizer.PrefixesMakeAttributesCollide` is such a document, `SvgSanitizer.AttributesStayDistinct` says exactly when.
- Rule keys join their parts with NUL, so two rules of which each has a NUL in a part may share a key
  (`PricingPlan.NulMakesKeysCollide`). The database stores no NUL, and a rule without one shares its key only with rules
  that price the same target, whatever the file contains (`PricingPlan.KeysIdentifyTargets`);
  `PricingPlan.CollideExactlyWhen` says which others collide.

## Model

| member | source | states |
|---|---|---|
| `RelayTheorems.CountersAreExact` | backend/internal/camerarelay/session.go:60-84 | In every reachable state each of the three counters is the number of live sessions it stands for, has a key exactly while that number is positive, and the limits 4, 20, 32, 1024 and 256 hold |
| `RelayTheorems.SessionsAreTheLiveOnes` | backend/internal/camerarelay/session.go:161-175 | A session is in the hub's map exactly while it is admitted and not ended |
| `RelayAnswers.OpenAnswersExactly` | backend/internal/camerarelay/session.go:60-79 | In every reachable state a viewer is admitted, over its connector's registered channel, if and only if the hub is open, the connector connected, and fewer than 4, 20, 32 and 1024 sessions are live on the camera, the device, the connector and the hub; each error is given exactly for the first of these that fails |
| `RelayAnswers.AskingAnswersExactly` | backend/internal/camerarelay/session.go:85-89 | An admitted viewer waits once the connector could be asked and is told that it is offline otherwise |
| `RelayAnswers.GivingUpAnswersExactly` | backend/internal/camerarelay/session.go:90-97 | A viewer whose wait times out or is given up is told which |
| `RelayAnswers.WaitAnswersExactly` | backend/internal/camerarelay/session.go:98-113 | A viewer whose session ends while it waits is told of the shutdown, else that the connector is offline if it ended for that, else of the timeout |
| `RelayAnswers.ClaimAnswersExactly` | backend/internal/camerarelay/session.go:121-130 | A claim succeeds exactly for a live, pending session of the connector |
| `RelayAnswers.RelayAnswersExactly` | backend/internal/camerarelay/session.go:214-231 | A connected viewer is relayed on an open hub, and otherwise closed with the code its session ended with, or with going away |
| `RelayAnswers.RegisterAnswersExactly` | backend/internal/camerarelay/control.go:58-71 | A control channel is registered exactly when the hub is open and it replaces one or fewer than 256 are there, and then in the place of its predecessor |
| `RelayAnswers.ChannelsStopRight` | backend/internal/camerarelay/control.go:75-77 | A channel is told to stop as replaced by its successor or as going away by Close, and the first reason stays |
| `RelayAnswers.SessionsEndRight` | backend/internal/camerarelay/session.go:161-198 | Every session ends with the code that belongs to what ended it, and the call of end takes along both connections and the channel its connector has at that moment |
| `RelayTallies.SectionKeepsHub` | backend/internal/camerarelay/session.go:201-207 | Every critical section, whatever it is, keeps the map, the counters without zero or stale keys, and the limits |
| `RelayTheorems.ClaimedOnceByItsConnector` | backend/internal/camerarelay/session.go:121-148 | A session is claimed at most once and only by its own connector; `ready` and `done` are each closed at most once, `done` only after the end |
| `RelayTheorems.RunEvolves` | backend/internal/camerarelay/session.go:20-28 | Along every run session states move forward, what a session holds is never replaced, and a closed hub takes in no session, control channel or served connection |
| `RelayThreads.EveryMoveOk` | backend/internal/camerarelay/session.go:51-198 | Every enabled action of every thread respects the protocol: it runs only in the role its critical section needs and takes only roles nobody can hold |
| `RelayProtocol.OthersUndisturbed` | backend/internal/camerarelay/session.go:134-198 | A critical section run by one thread breaks nothing another thread relies on between its own sections |
| `RelayInvariants.StepKeepsProtocol` | backend/internal/camerarelay/control.go:51-97 | Bookkeeping, session states, thread positions, exclusive roles and channel registration hold after every step of every thread |
| `RelayTheorems.ClosedForGood` | backend/internal/camerarelay/hub.go:152-184 | Once the Close that closed the hub returns, sessions and counters are empty in every later state, every channel still registered was told to stop, and the wait group only falls |
| `RelayFairness.WaitReturns` | backend/internal/camerarelay/hub.go:152-200 | After the Close that closed the hub has returned, nothing is running some time in every endless run, however threads interleave, in which an unaided step that stays possible is taken some time; unaided is the end of a channel that was stopped, of copying whose both connections are closed, and a thread's own step |
| `RelayWaiting.WaitCanFinish` | backend/internal/camerarelay/hub.go:186-200 | From every state after that Close a run of unaided steps ends with nothing running |
| `RelayWaiting.WaitMakesProgress` | backend/internal/camerarelay/hub.go:186-200 | While something is running some unaided step lowers the work left, and no step of any thread adds to it |
| `RelayFairness.StaysPossible` | backend/internal/camerarelay/session.go:176-198 | An unaided step stays possible through any step of any thread that does not lower the work itself |
| `RelayProgress.ServingGoesOn` | backend/internal/camerarelay/hub.go:181-184 | After that Close a served channel was told to stop, or the thread that replaced it can tell it |
| `RelayProgress.RelayGoesOn` | backend/internal/camerarelay/session.go:241-284 | A relay sees that its session ended, or waits only for threads that can go on unaided: a call of end closing connections, or copying whose both connections are closed |
| `RelayChannels.StepKeepsChannels` | backend/internal/camerarelay/control.go:58-91 | After every step a channel has one serving thread, and one that still runs is registered, stopped, or about to be stopped by the thread that replaced it |
| `RelayOwnership.StepKeepsEndsClose` | backend/internal/camerarelay/session.go:176-198 | A connection a session has had stays with it or with the call of end that closes it, until it is closed |
| `RelayTheorems.WaitIsStable` | backend/internal/camerarelay/hub.go:186-228 | Zero running on a closed hub means nothing is being served, then and in every later state |
| `RelayTheorems.WaitGroupNeverNegative` | backend/internal/camerarelay/hub.go:222-228 | The wait group is never lowered below zero |
| `RelayDuties.StepKeepsRunning` | backend/internal/camerarelay/session.go:214-234 | The wait group counts exactly the relays and control channels being served, after every step |
| `RelayTheorems.NoSessionIsStranded` | backend/internal/camerarelay/control.go:79-95 | A live session whose connector has no control channel is on the list of a teardown that will end it |
| `RelayTheorems.OrphanEndsOffline` | backend/internal/camerarelay/control.go:93-95 | That teardown ends it with 4503 |
| `RelayTheorems.RegisteredIsServed` | backend/internal/camerarelay/control.go:70-90 | Every registered channel has a thread that will unregister it |
| `RelayTheorems.LateTeardownRemovesNothing` | backend/internal/camerarelay/control.go:58-96 | Replacing a control channel ends no session; after any further run the replaced channel's teardown unregisters nothing and leaves no session to end |
| `RelayTheorems.NoLostWakeup` | backend/internal/camerarelay/session.go:91-113 | When the data channel was delivered or the session ended, the channel its waiter watches is closed or some thread is about to close it |
| `RelayTheorems.OneHolderOrClosed` | backend/internal/camerarelay/session.go:121-198 | In every reachable state a connection handed over has exactly one holder, or it is closed |
| `RelayTheorems.NobodyLosesAConnection` | backend/internal/camerarelay/session.go:214-231 | A step leaves a connection without holder only by closing it, and only the thread that held it does that |
| `RelayOwnership.ClosedByItsHolder` | backend/internal/camerarelay/session.go:181-183 | A closed connection stays closed, and is closed by the thread that held it |
| `RelayHub.CameraHub.constructor` | backend/internal/camerarelay/hub.go:137-150 | A new hub is the empty hub |
| `RelayHub.CameraHub.Open` | backend/internal/camerarelay/session.go:51-84 | The reservation decides in the source's order and, when it admits, adds the session and raises the three counters, and nothing else |
| `RelayHub.CameraHub.Claim` | backend/internal/camerarelay/session.go:121-130 | Succeeds exactly for a pending session of the connector in the map, and then changes its state only |
| `RelayHub.CameraHub.Deliver` | backend/internal/camerarelay/session.go:134-147 | Stores the connection exactly when the session is still claimed |
| `RelayHub.CameraHub.End` | backend/internal/camerarelay/session.go:161-198 | Ends the session once: leaves the map, lowers the counters, and hands out its connections and its connector's channel for closing |
| `RelayHub.CameraHub.Lowered` | backend/internal/camerarelay/session.go:201-207 | The key's count falls by one, the key is there only above zero, and every other key keeps its count |
| `RelayHub.CameraHub.StartRelaying` | backend/internal/camerarelay/session.go:214-231 | Starts relaying exactly for a connected session on an open hub, and otherwise gives the code the viewer is refused with |
| `RelayHub.CameraHub.RegisterControl` | backend/internal/camerarelay/control.go:58-71 | Registers within the limit on an open hub and hands out the channel it replaces |
| `RelayHub.CameraHub.RemoveControl` | backend/internal/camerarelay/control.go:79-91 | Unregisters the channel exactly when no successor took over, and then hands out exactly its connector's sessions |
| `RelayHub.CameraHub.Close` | backend/internal/camerarelay/hub.go:152-167 | Closes once and hands out exactly the sessions to end and the channels to stop |
| `RelayHub.Control.Stop` | backend/internal/camerarelay/control.go:25-30 | The first reason to stop wins |
| `ViewerRate.CopyFromViewer` | backend/internal/camerarelay/session.go:286-314 | The loop with its window start and frame count computes the specified copying |
| `ViewerRate.ForwardsExactly` | backend/internal/camerarelay/session.go:286-314 | Forwarded are the frames before the first that is no text, cannot be written or is the eleventh of its window, and only the last of these cuts the viewer for its rate |
| `ViewerRate.ForwardsALimitedPrefix` | backend/internal/camerarelay/session.go:286-314 | With a clock that does not run backwards the forwarded frames are a prefix, all text, at most 19 in any half-open second |
| `ViewerRate.NineteenCanPass` | backend/internal/camerarelay/session.go:302-307 | That bound is sharp: 20 given frames all pass, the last 19 within half a second |
| `ViewerRate.ElevenSpanTwoWindows` | backend/internal/camerarelay/session.go:302-307 | Where eleven forwarded frames fall within a second, the last lies in the window right after that of the first |
| `ViewerRate.ConformingViewers` | backend/internal/camerarelay/session.go:302-307 | All of a viewer's texts are forwarded within the limit if and only if the viewer keeps to it; then it is never cut |
| `Grants.CanDelegate` | backend/internal/authorization/permissions.go:791-825 | The nested search decides whether the held grants cover the requested one, per device type when it selects some |
| `Grants.DelegableExactlyWhen` | backend/internal/authorization/permissions.go:791-825 | CanDelegate accepts exactly the grants that some request could use and, unless the delegator is master, whose every request the delegator's own grants admit |
| `Grants.WellFormedIsUsable` | backend/internal/authorization/permissions.go:791-800 | Its checks of the requested grant alone let through exactly the grants that some request could use |
| `Grants.DelegationIsExact` | backend/internal/authorization/permissions.go:791-852 | For windows within the bound, coverage holds if and only if every request the grant admits is admitted by some held grant |
| `Grants.CoverageAdmits` | backend/internal/authorization/permissions.go:827-852 | A covered grant admits no request that its envelope refuses |
| `Grants.WeakestIsDecisive` | backend/internal/authorization/permissions.go:724-751 | A grant is covered by whatever admits its weakest request |
| `Grants.OversizeWindowBreaksExactness` | backend/internal/authorization/permissions.go:831-834 | A stored window of 2000 minutes, which the database's CHECK refuses, makes CanDelegate accept a grant that widens access |
| `Grants.ExactIffOversizeIsRedundant` | backend/internal/authorization/permissions.go:791-852 | CanDelegate is exact for a permission if and only if every oversize envelope covers nothing the others do not |
| `Grants.ChainsNeverWiden` | backend/internal/authorization/permissions.go:791-825 | No chain of delegations of any length admits a request that its first holder's grants refuse |
| `PrincipalLoading.LoadPermissions` | backend/internal/authorization/permissions.go:562-678 | Permissions are exactly those an applicable fresh grant or the master role gives; pending ones are withheld, disjoint, and carry an easiest requirement |
| `PrincipalLoading.PendingIsEasiest` | backend/internal/authorization/permissions.go:437-443 | What is reported as pending asks for a lower assurance than every withheld grant and the master policy, or for the same within a window as long |
| `PrincipalLoading.MasterExactlyWhen` | backend/internal/authorization/permissions.go:652-678 | A permission no applicable grant carries is effective exactly for the master role at the second factor, proven within the policy's window where there is one |
| `PrincipalLoading.OpenRowGrants` | backend/internal/authorization/permissions.go:599-627 | A row without scope, minimum and window gives its permission to every session on every device |
| `PrincipalLoading.AssembleGrants` | backend/internal/authorization/permissions.go:581-636 | The grants are exactly the accepted rows merged by identity, each with the device types of its rows |
| `PrincipalLoading.EvaluateGrants` | backend/internal/authorization/permissions.go:637-651 | Each grant contributes its permission, or its requirement to the pending table, and nothing else |
| `PrincipalLoading.AddMasterPermissions` | backend/internal/authorization/permissions.go:652-678 | The master role gives every universal permission, withheld only by its own policy |
| `PrincipalLoading.AddPendingKeepsEasiest` | backend/internal/authorization/permissions.go:437-443 | Offering one more requirement keeps an easiest one per permission |
| `PrincipalLoading.RowOrderIsIrrelevant` | backend/internal/authorization/permissions.go:562-678 | Two row sequences with the same rows load the same permissions and pending requirements |
| `PrincipalLoading.EasiestIsUnique` | backend/internal/authorization/permissions.go:437-443 | The easiest withheld requirement is unique |
| `PrincipalLoading.HasIsEffective` | backend/internal/authorization/permissions.go:467-479 | For a loaded principal Has answers exactly the effective set, the master fallback included |
| `PrincipalLoading.ReauthenticationDenials.Check` | backend/internal/authorization/permissions.go:418-479 | Has answers the check and records the requirement of a denial that a fresh sign-in would lift; the easiest recorded one is offered |
| `Reauthentication.Session.GrantRecentAuthentication` | backend/internal/auth/reauthentication.go:77-118 | A recordable proof moves the session row to the specified one; any other leaves it alone |
| `Reauthentication.Session.ForSensitiveOperation` | backend/internal/auth/reauthentication.go:25-48 | What a sensitive operation sees of the session, or the demand for a fresh sign-in |
| `Reauthentication.NeverBelowBase` | backend/internal/auth/reauthentication.go:77-118 | No recorded proof takes a session below its base at any later time, and the base only rises |
| `Reauthentication.ReauthenticationUnlocks` | backend/internal/auth/reauthentication.go:77-118 | After a current proof that meets a pending requirement, reloading the same rows on the same device makes the permission effective |
| `Reauthentication.EffectiveAfterProof` | backend/internal/auth/reauthentication.go:97-118 | After a recorded proof a permission is effective if and only if an applicable grant of it has no window or one that this very proof satisfies, or the master role gives it within its policy |
| `Reauthentication.WeakProofUnlocksNothing` | backend/internal/auth/reauthentication.go:107-118 | A proof below what every grant of a permission asks for does not make it effective, whatever the session proved before |
| `Reauthentication.AssuranceAfterProof` | backend/internal/auth/reauthentication.go:97-107 | A second factor raises the session for good, another proof above its base for five minutes, and one up to the base leaves it there |
| `Reauthentication.LoweredExactlyWhen` | backend/internal/auth/reauthentication.go:77-118 | A proof lowers the present assurance if and only if it is no second factor and a temporary raise above it is running |
| `Reauthentication.WeakerProofCanLower` | backend/internal/auth/reauthentication.go:77-118 | A session that a password sign-in does lower |
| `Reauthentication.SecondFactorIsForGood` | backend/internal/auth/reauthentication.go:77-118 | Once a second factor was proven the session stays at its level whatever is proven later |
| `Reauthentication.OtherRaisesLapse` | backend/internal/auth/reauthentication.go:77-118 | Every other raise is over five minutes after its proof |
| `MasterSafety.LastMasterIsNeverLost` | backend/internal/accounts/service.go:293-331 | From any database with an enabled master, no interleaving of the twelve transactions reaches one without |
| `MasterEffects.AccountChangesAchieve` | backend/internal/accounts/service.go:312-330 | The commit of disabling or deprovisioning leaves the account there and disabled, that of enabling enabled, that of a password as it was, one version higher, and touches no other row |
| `MasterEffects.EmailChangeAchieves` | backend/internal/accounts/credentials.go:61-86 | The commit of a login e-mail leaves the account as enabled and the person as much a master as before, one version higher where the row changes, and touches no other row |
| `MasterEffects.DeletionsAchieve` | backend/internal/people/service.go:574-580 | The commit of a deletion removes the account, or the person with the account, and touches no other row |
| `MasterEffects.RoleChangesAchieve` | backend/internal/people/service.go:868-896 | The commit of a role change makes a person master who was not, or the other way round, one version higher, and touches no other row |
| `MasterEffects.CreationAchieves` | backend/internal/accounts/service.go:224-229 | The commit of a creation adds a new, enabled account for its person and touches no other row, except the person's when the e-mail there changes |
| `MasterEffects.BootstrapAchieves` | backend/internal/admin/service.go:60-106 | The commit of a bootstrap leaves its new account among the enabled masters and touches no other row |
| `MasterEffects.RecoverAchieves` | backend/internal/admin/service.go:149-166 | The commit of a recovery leaves the account among the enabled masters, and a person who is master already as they were |
| `MasterEffects.RescueCommitsAreNeeded` | backend/internal/admin/service.go:52-61 | In every run a bootstrap or recovery commits only after it found, holding the master lock, that nobody is master or that no master is enabled |
| `MasterEffects.AccountChangesDemand` | backend/internal/accounts/service.go:293-313 | An account change passes its checks if and only if the account is there in its expected version and, to disable or delete it, is not the last enabled master |
| `MasterEffects.PersonChangesDemand` | backend/internal/people/service.go:812-872 | A change of a person passes its checks if and only if the person is there in the expected version and, to assign the master role, is no master, to take it, is one, and to take it or delete the person, is not the last enabled master |
| `MasterEffects.RescuesDemand` | backend/internal/admin/service.go:52-61 | A rescue passes its checks if and only if nobody is assigned the master role, or no master is enabled |
| `MasterEffects.AloneCommits` | backend/internal/accounts/service.go:269-357 | A transaction that runs alone, passes its checks and can create its rows commits |
| `MasterEffects.SecondMasterCanBeDisabled` | backend/internal/accounts/service.go:488-507 | Of two enabled masters one can disable the other, which then is disabled |
| `MasterSafety.CommitKeepsMaster` | backend/internal/accounts/service.go:488-507 | A transaction whose checks still hold takes away no last enabled master when it commits |
| `MasterSafety.StatementEstablishes` | backend/internal/accounts/person_deletion.go:51-75 | A statement that goes through establishes what its transaction may rely on until it ends |
| `MasterSafety.EstablishedStays` | backend/internal/accounts/provisioning.go:21-40 | No other transaction disturbs what a transaction has established under its locks |
| `MasterSafety.CommitUndisturbing` | backend/internal/admin/service.go:47-63 | Rows change only under their locks, and enabled masters become fewer only under the master lock |
| `MasterSafety.OnlyDemotedLeave` | backend/internal/people/service.go:868-896 | A commit takes only the accounts of its one target person out of the enabled masters |
| `MasterSafety.VersionStaysChecked` | backend/internal/accounts/service.go:303-322 | A version compared under the row's lock still matches when the guarded write comes |
| `MasterLocking.LockOrder` | backend/internal/accounts/credentials.go:43-49 | Every program takes person, master lock and account in this order, each at most once, and refers to its actor's account last |
| `MasterLocking.WaitsForLater` | backend/internal/accounts/provisioning.go:21-28 | Whoever is waited for waits, if at all, for a lock later in the order, or both wait at the reference to their actors |
| `MasterStandoffs.CyclesAreStandoffs` | backend/internal/accounts/service.go:330-347 | In every reachable wait cycle each program acts on the account that acts in the one before it, no two claim the same rows, and each still passes its checks |
| `MasterDeadlocks.EveryStandoffArises` | backend/internal/accounts/credentials.go:161-227 | Any programs that stand like that do end up in a wait cycle in some run |
| `MasterDeadlocks.DeadlockExactlyWhen` | backend/migrations/00001_initial.sql:160-162 | Given programs over a given database can end up waiting for each other if and only if they stand like that |
| `MasterDeadlocks.TwoAdministrators` | backend/internal/accounts/credentials.go:212-227 | Two administrators who set each other's passwords reach a wait cycle in six steps |
| `MasterStandoffs.NoDeadlock` | backend/internal/admin/service.go:149-166 | No reachable state contains a wait cycle while no transaction acts on the account that acts in another one |
| `MasterStandoffs.SomeoneProceeds` | backend/internal/accounts/service.go:378-390 | While transactions run and none acts on the account that acts in another, one of them waits for nobody |
| `MasterStandoffs.SomeoneProceedsOrCycle` | backend/internal/httpapi/router.go:1006-1013 | While any transactions run, one of them waits for nobody or there is a wait cycle for the database to break |
| `EventBroker.Broker.Publish` | backend/internal/devicebridge/broker.go:35-78 | Appends one numbered event to the log, flags it exactly when it repeats the reader's latest scan, wakes everybody, or changes nothing for an invalid UID |
| `EventBroker.Broker.Poll` | backend/internal/devicebridge/broker.go:86-119 | The page is what came after the cursor and is among the last 256 events of the whole log, and the channel returned is the one the next publish closes |
| `EventBroker.MapDecidesRepeat` | backend/internal/devicebridge/broker.go:62-66 | The map of last scans decides what the latest scan or removal in the whole log decides, its zero value included |
| `EventBroker.PublishRemembers` | backend/internal/devicebridge/broker.go:62-69 | Publishing keeps that correspondence between the map and the log |
| `EventBroker.AfterIsPage` | backend/internal/devicebridge/broker.go:107-119 | Filtering the bounded buffer gives the page of the unbounded log |
| `EventBroker.NormalizingIsIdempotent` | backend/internal/devicebridge/broker.go:121-130 | Accepted UIDs become whole bytes in upper-case hex, which are exactly the values normalizing leaves alone |
| `EventBroker.NormalizingKeepsBytes` | backend/internal/devicebridge/broker.go:121-130 | An accepted UID keeps the value of every digit |
| `EventBroker.OnlySeparatorsVanish` | backend/internal/devicebridge/broker.go:122-122 | Colons, hyphens and spaces are dropped, and nothing else |
| `EventBroker.RepeatMeans` | backend/internal/devicebridge/broker.go:62-69 | A scan is a repeat if and only if the same UID was scanned at the same reader at most 1.5 seconds before, with no scan or removal there since |
| `EventPolling.PollsDeliverInOrder` | backend/internal/devicebridge/broker.go:86-119 | A client that feeds back the next sequence number sees each event at most once and in order |
| `EventPolling.PollsDeliverWhatIsBuffered` | backend/internal/devicebridge/broker.go:72-75 | It sees exactly the events still buffered at its first poll after their publication |
| `EventPolling.FrequentPollsSeeEverything` | backend/internal/devicebridge/broker.go:107-119 | With at most 256 events between polls it sees all of them |
| `PricingPlan.PlanRules` | backend/internal/configtransfer/sections_pricing.go:234-259 | The three loops compute the specified plan |
| `PricingPlan.PlanReachesTheFile` | backend/internal/configtransfer/sections_pricing.go:340-369 | Applying the plan gives exactly the file's key-to-rate map, keeps keys unique at every single change and leaves equal rules untouched |
| `PricingPlan.ReplanningIsEmpty` | backend/internal/configtransfer/sections_pricing.go:234-259 | Planning again from the result changes nothing |
| `PricingPlan.PlanIsValid` | backend/internal/configtransfer/sections_pricing.go:234-259 | The plan creates only free keys, touches only active rows, and mentions each key once |
| `PricingPlan.PlanApplies` | backend/internal/configtransfer/sections_pricing.go:340-369 | Any such plan keeps keys unique at every step, gives the keys it mentions their rates and touches nothing else |
| `PricingPlan.KeysIdentifyTargets` | backend/internal/configtransfer/sections_pricing.go:63-81 | When one of two rules has no NUL, they have one key if and only if they price the same target |
| `PricingPlan.CollisionsTakeTwoNuls` | backend/internal/configtransfer/sections_pricing.go:80-80 | Rules of different targets with one key both contain a NUL |
| `PricingPlan.CollideExactlyWhen` | backend/internal/configtransfer/sections_pricing.go:63-81 | Rules of different targets share a key if and only if their parts, cut at the NULs, give the same pieces in order and the NULs are spread differently over the parts |
| `PricingPlan.NulMakesKeysCollide` | backend/internal/configtransfer/sections_pricing.go:80-80 | Two given rules of different targets, each with a NUL, share a key |
| `PricingPlan.CaseDoesNotMatter` | backend/internal/configtransfer/sections_pricing.go:63-81 | Rules whose names differ only in the case of ASCII letters have one key |
| `SetupMatching.SetupInput` | backend/internal/configtransfer/sections_catalog.go:644-696 | Each unit gets the stored identity of its key and rank, and each slot likewise inside the matched unit only |
| `SetupMatching.FirstUnused` | backend/internal/configtransfer/sections_catalog.go:659-669 | The first unused identity of a key is the one of the next rank |
| `SetupMatching.IdentitiesAreUsedOnce` | backend/internal/configtransfer/sections_catalog.go:653-671 | No stored identity is given out twice, and each goes to its own key |
| `SetupMatching.AsManyAsPossibleMatch` | backend/internal/configtransfer/sections_catalog.go:653-671 | Per key exactly min(wanted, stored) entries keep an identity, and they are the first ones |
| `SetupMatching.CaseDoesNotMatter` | backend/internal/configtransfer/sections_catalog.go:653-671 | Units and slots are compared by name, without the case of ASCII letters |
| `Texts.KeyIgnoresCase` | backend/internal/configtransfer/section.go:101-101 | Names that differ only in the case of ASCII letters have one key |
| `Texts.KeyIgnoresSpace` | backend/internal/configtransfer/section.go:101-101 | White space around a name does not change its key |
| `Texts.KeysAreTrimmed` | backend/internal/configtransfer/section.go:101-101 | A key has no white space around it |
| `ImportReport.SectionReport.Add` | backend/internal/configtransfer/report.go:63-81 | Appends the item and keeps every count equal to its number of items |
| `ImportReport.SectionReport.RetractInUseConflict` | backend/internal/configtransfer/sections_catalog.go:419-433 | Takes back the last item exactly when it is the expected conflict of that entry, counts included |
| `SectionImport.SectionRun.Attempt` | backend/internal/configtransfer/service.go:503-526 | A refused write leaves the entries alone and records a conflict; another one is applied and recorded |
| `SectionImport.SectionRun.Apply` | backend/internal/configtransfer/sections_access.go:57-95 | The loop over the file's entries is the specified write pass |
| `SectionImport.SectionRun.Prune` | backend/internal/configtransfer/sections_trainings.go:90-121 | The loop over the listed rows is the specified removal pass |
| `SectionConvergence.OverwriteConverges` | backend/internal/configtransfer/sections_catalog.go:107-182 | A conflict-free overwrite stores every entry as written, leaves of the others only inactive or used ones, and keeps names unique |
| `SectionResults.MissingEntriesLeave` | backend/internal/configtransfer/sections_trainings.go:90-121 | Of the entries missing from the file a conflict-free overwrite keeps exactly the used device types, as they are, exactly the used competencies, inactive, and all processes, inactive |
| `SectionResults.RemovalsReport` | backend/internal/configtransfer/sections_access.go:95-113 | Such a removal reports each of them as kept, deactivated or deleted accordingly |
| `SectionResults.WritesReport` | backend/internal/configtransfer/sections_access.go:64-93 | The write pass reports one item for each entry of the file, in order: created, skipped, updated or refused exactly as the stored entry, the mode and the refusals say |
| `SectionResults.NewNamesAreStored` | backend/internal/configtransfer/sections_access.go:71-75 | In both modes an entry whose name is free and not refused is stored as written under its new id |
| `SectionResults.CaseDoesNotMatter` | backend/internal/configtransfer/section.go:101-101 | Names that differ only in the case of ASCII letters are one name to the import |
| `SectionConvergence.NamesAreUniqueThroughout` | backend/internal/configtransfer/sections_access.go:57-95 | Names are unique after every single write and every single removal, in both modes and whatever is refused |
| `SectionConvergence.SecondOverwriteCanDelete` | backend/internal/configtransfer/sections_trainings.go:90-121 | A used competency is deactivated, and deleted by the second overwrite when nothing uses it any more |
| `SectionConvergence.SecondOverwriteIsQuiet` | backend/internal/configtransfer/sections_trainings.go:54-122 | A second overwrite reports only skip and keep, and changes nothing, if and only if every kept entry still has its reason |
| `SectionConvergence.InsertKeepsWhatIsStored` | backend/internal/configtransfer/sections_access.go:76-77 | Insert mode changes no stored entry and adds only entries whose names were free |
| `SvgSanitizer.SanitizeSVG` | backend/internal/branding/service.go:702-789 | The loop over the tokens computes the specified output |
| `SvgSanitizer.SanitizesExactly` | backend/internal/branding/service.go:702-789 | A stream is accepted if and only if it is short, refused nowhere, nested at most 64 deep under one svg element, with processing instructions before it; it becomes its kept tokens in order |
| `SvgSanitizer.SanitizedIsSafe` | backend/internal/branding/service.go:702-789 | Accepted output is balanced, at most 64 deep, has one svg root and only listed elements and attributes with safe values |
| `SvgSanitizer.OutputIsHarmless` | backend/internal/branding/service.go:791-809 | No attribute of the output is an event handler or a style, breaks out of the markup, runs a script or reaches outside the document |
| `SvgSanitizer.ListedElements` | backend/internal/branding/service.go:658-690 | The listed elements are exactly eighteen drawing elements |
| `SvgSanitizer.PlainValuesPass` | backend/internal/branding/service.go:791-809 | Attribute values without markup, colon, parenthesis, slash and at sign pass |
| `SvgSanitizer.TokensBecome` | backend/internal/branding/service.go:714-777 | Exactly which tokens are refused and dropped, and what the others become, attributes in order without name spaces and declarations |
| `SvgSanitizer.SanitizingIsIdempotent` | backend/internal/branding/service.go:737-762 | Sanitizing the output again, with the name space its declaration gives it on reading, returns it unchanged |
| `SvgSanitizer.AttributesStayDistinct` | backend/internal/branding/service.go:745-760 | Attribute names stay distinct if and only if the kept local names were |
| `SvgSanitizer.PrefixesMakeAttributesCollide` | backend/internal/branding/service.go:745-760 | A document whose use element has href and xlink:href is accepted and comes out with two attributes named href |

## Left out

- Websocket input and output, pings, deadlines, byte copying from the connector and the contents of the control queue: a send
  is queued or fails, and a relay may end for any of the source's reasons at any time.
- The wrap-around of the broker's sequence at 2^64 and of durations outside the stored bounds.
- `RelayHub.CameraHub.Open`: the wait for the data channel after the reservation is in the state machine only.
- `RelayFairness.WaitReturns`: why the scheduler is fair, and that a channel's loop sees its stop and a read or write fails
  once its connection is closed; when they do is left open, and sending a close frame takes its deadline at most.
- `EventBroker.Broker.Publish`: the protocol version, the source, the reader's name, protocol and ATR, the state and the error
  code, which are copied into the event unchanged or in upper case.
- `EventBroker.Broker.Poll`: blocking until the channel closes, the deadline or the caller's cancellation; a timed-out wait
  returns the same empty page.
- `PrincipalLoading.LoadPermissions`: query errors; the fresh-sign-in policy is a map instead of a registry lookup.
- `Reauthentication.Session.ForSensitiveOperation`: failures of locking or reading the session row, and the audit event.
- `MasterSafety.LastMasterIsNeverLost`: person merging and SCIM reconciliation, which take two account locks, removing or
  deleting roles, and locks on role rows. The transactions are a state machine over their statements, not methods: an
  interleaving is what matters, and one SQL statement is one step.
- `MasterTransactions.Written`: columns that do not bear on who is an enabled master; sessions, tokens and the contents of
  audit rows.
- `MasterTransactions.Preparation`: `LockProvisionedAccount` takes no lock on the person; deprovisioning in the model has
  the one its caller takes before it (`backend/internal/scim/users.go:335`). A role change that finds the role as wanted
  commits without writing anything; the model refuses it. Who is permitted to act is not checked.
- `MasterDeadlocks.DeadlockExactlyWhen`: locks on role, session, identity and token rows, and on rows that deleting an account
  sets to null; queues in which waiting requests block later ones; and whether the acting principal is permitted to act.
- `SetupMatching.SetupInput`: fields copied unchanged from the file, such as model, nozzle and status.
- `SectionImport.SectionRun.Attempt`: an error that is not a refusal shown to the client, which undoes the whole import.
- `SectionConvergence.OverwriteConverges`: lower-casing of names outside ASCII, the versions that guard concurrent changes
  (an import is serializable), and sections that refer to others, such as roles, machines and material types.
- `SvgSanitizer.SanitizingIsIdempotent`: bytes; adjacent texts that a parser would join count as the tokens written.
- Session policies, articles, role pricing groups and the checks of the file itself add further passes of the same shape.
- Password, PIN and second-factor primitives, invitations and mail, attendance, calendars, and the front end.
