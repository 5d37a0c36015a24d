# Coengram control plane: a verified model

This project models the hard core of a multi-tenant memory control plane in Dafny and proves what
the system promises about it. `dafny verify dfyconfig.toml` checks everything.

Where the program changes things step by step, the model does too: classes with the program's
fields and loops (`ControlStore`, `OperatorStore`, `ProvisioningJobStore`, `ProvisioningStore`,
`DecommissionStore`, `GovernanceStore`, `OutboxProcesses`, the barrier object, the replay closure,
the history sorter, the OpenAPI document). Each of their methods is proved to compute a function
of the old state, and the theorems are about runs of those functions. Concurrent protocols are
state machines over their atomic steps, with a crash possible between any two of them.
Beside the theorems about runs, every main operation has a lemma or a contract that says exactly
when it is accepted and what it leaves, in terms of the records, the numbers and the names alone
(the `Exact` modules); the `Alone` modules prove that the overlapping protocols do what the plain
calls do when nobody comes in between.

| file | what it covers |
|---|---|
| `Retention` | nightly backup retention; nightly pruning equals one plan over the whole history |
| `Control`, `ControlStore` | tenants, principals, memberships, delegations, bindings, tokens; cascading revocation |
| `ControlExact` | what each control-plane operation takes away from every record, and that it spares the rest |
| `ControlRace` | the same with overlapping calls: when eager revocation still leaves nothing stale |
| `Operators`, `OperatorStore` | operators, operator tokens, admin sessions |
| `OperatorExact` | when each operator call is accepted and what it leaves, with lifetimes and roles in numbers and names |
| `OperatorRace` | the operator service with overlapping calls: what the guards and the eager revocation still give |
| `BackupBarrier` | crash-prone suspend, lock, capture, exit and recover, interleaved with mutations |
| `Decommission`, `DecommissionStore`, `DecommissionHistory` | the two-operator destruction workflow with failures, deaths and retries |
| `DecommissionExact` | when each decommission call is accepted, by evidence, phase, time and port calls, and what it leaves |
| `DecommissionAlone` | the overlapping calls, made alone, end as the service's calls do |
| `DecommissionRace`, `DecommissionStale` | the same workflow with overlapping calls: what compare-and-swap does and does not give |
| `DecommissionSound`, `DecommissionOpen` | what holds of overlapping calls in every run; one open request per tenant |
| `Outbox`, `OutboxProcesses` | relay, worker and redriver: at-least-once delivery under crashes |
| `OutboxExact` | what one turn of the relay, one delivery and one redriving leave, and when they succeed |
| `OutboxGraph` | what the memory graph holds after duplicate deliveries of puts and erasures |
| `OutboxLiveness` | which committed events can still be processed |
| `Governance`, `GovernanceStore` | proposal, review, publication of tenant knowledge |
| `GovernanceExact` | who may review, and what a proposal, a review and a publication leave |
| `ProvisioningJobsExact` | what each operation on a job asks for and leaves |
| `ProvisioningJobs`, `ProvisioningJobStore` | the job queue, claim fencing, and operator requests that check first and write later |
| `Provisioning`, `ProvisioningStore` | resumable ten-step provisioning |
| `ProvisioningAlone` | an overlapping call, made alone, ends as the provisioner's call does |
| `ProvisioningRace` | overlapping provisioner calls, interleaved at every adapter call |
| `Archive`, `Json`, `MemoryModels` | archive codec: framing, grouping, validation, round trip |
| `ArchiveExact` | which archives are accepted and what is written, field by field |
| `ArchiveCodec` | a concrete codec that meets everything `Archive` assumes of JSON and of the record schemas |
| `CorrectionHistory` | depth-first ordering of corrections; chain decomposition of accepted archives |
| `OpenApi` | reference closure and pruning of an API document |
| `OpenApiExact` | the same by the document's keys and `$ref` texts alone |
| `BodyLimits` | bounded request buffering and replay |

Where a promised property turned out false, the project keeps the program as it is, gives an input
on which it fails, and states exactly when it holds:

- Duplicate delivery is not always without effect, although the projectors' own documentation says
  so. A worker that reads an accepted command and stalls can write an item back after it was
  erased (`ErasedItemComesBack`), and two workers that look at the graph before either writes leave
  one candidate in it twice (`CandidateIsPublishedTwice`). The graph is at every moment what one
  delivery of each command would make of it exactly if no worker writes a node that was written
  before (`DuplicatesChangeNothingExactly`).
- A retained item that is erased before its command was marked leaves a command without content,
  whose message goes round for ever (`RetainIsNeverMarked`); `CanBeProcessedExactly` says that only
  such events are stuck.
- Succeeded and cleanup_requested provisioning jobs are not final: an operator's request writes
  without asking again whether the job is still in the state it read (`SucceededIsOverwritten`,
  `CleanupIsOverwritten`, exact conditions in `FinalIsAbsorbingExactly` and
  `JobsMoveAlongEdgesExactly`).
- One operator's idempotency key can be answered with two different jobs (`KeyCanAnswerTwice`,
  exact condition in `KeyIsHonouredExactly`).
- A request call of the decommission service that is held up between its checks and its first save
  can bring a request back to life after its tombstone was written (`StaleCreateHappens`);
  `ChainsExactly` says that compare-and-swap gives one chain of saves for a request exactly when that
  does not happen to it. A request revived in this way can end cancelled although it was destroyed
  (`CancelledThoughDestroyed`); `CancelledIsNeverDestroyedExactly` says that nothing else can bring
  that about.
- With the reference store two overlapping requests can open two decommissions of one tenant
  (`TwoOpenRequests`, exact condition in `OneOpenExactly`); the database's unique index prevents it
  (`IndexKeepsOneOpen`).
- A tombstone's destruction date can lie before the end of the grace period
  (`TombstoneCanPredateGrace`, exact condition in `PredatesGraceExactly`), although every
  destruction was admitted after it (`DestructionIsEarned`).
- A token issued across a demotion outlives it on the tenant side too
  (`ControlRace.StaleTokenIsSaved`, exact condition in `NoStaleAuthorityExactly`).
- A provisioning step can be executed again after it was recorded, by a call that another one has
  overtaken (exact condition in `RepeatsExactly`); what active means is not touched by it
  (`ActiveIsEarned`).
- Two overlapping calls can disable the last two administrators (`BothAdminsGo`, exact condition in
  `AdminRemainsExactly`), and a token issued across a demotion outlives it (`StaleTokenIsSaved`,
  exact condition in `LiveCredentialsAreCurrentExactly`). Without overlap neither happens.
- A tenant can be active while its backup is captured, when a recovery of its barrier was already
  past its lock probe (`TenantActiveDuringCapture`; without one in flight it stays suspended,
  `SuspensionLasts`, and with one it is reactivated, `RecoveryInFlightReactivates`); capture safety
  holds by the lock all the same (`CaptureIsStable`).
- Pruning an API document can break references from components other than schemas
  (`PruningCanBreakReferences`, exact condition in `PruningKeepsReferences`).

## Model

| member | source | states |
|---|---|---|
| Retention.NightlyEqualsBatch | src/agent_memory_service/backup.py:575-626 | over any nights of arrivals in any order, with any deletions failing, planning on what is left keeps exactly what one plan over the whole history keeps; when the last night's deletions all succeed the inventory is that plan's keep list |
| Retention.ChangingPinsExactly | src/agent_memory_service/backup.py:575-626 | with pins that change from night to night, the next plan makes of what is left what it would make of the whole history iff every backup it pins is still there; the windows never depend on earlier pins |
| Retention.PathIndependence | src/agent_memory_service/backup.py:589-622 | planning again on any subset that still holds every retained backup retains the same backups |
| Retention.Heritage | src/agent_memory_service/backup.py:589-622 | a backup retained by a larger inventory is retained by every smaller one that contains it |
| Retention.PruneIdempotent | src/agent_memory_service/backup.py:575-626 | planning twice is planning once |
| Retention.RetainedExactly | src/agent_memory_service/backup.py:599-620 | a complete backup is kept iff it is pinned, the newest of its tenant, or the newest of one of the `daily` most recent days or one of the `weekly` most recent weeks that have one; days are told apart by multiples of 86,400,000,000 microseconds, weeks by multiples of 604,800,000,000 counted from Monday 0001-01-01 |
| Retention.WeekIsDivision | src/agent_memory_service/backup.py:609-620 | two instants have the same week key iff no multiple of 604,800,000,000 microseconds lies after the one and not after the other |
| Retention.DayIsDivision | src/agent_memory_service/backup.py:602-620 | the same for days and 86,400,000,000 microseconds |
| Retention.IncompleteIsRetained | src/agent_memory_service/backup.py:594-600 | an incomplete backup is always kept |
| Retention.TenantKeepBound | src/agent_memory_service/backup.py:599-620 | at most daily + weekly - 1 kept per tenant when both windows are positive, and the exact bound otherwise |
| Retention.NewestFirstSorts | src/agent_memory_service/backup.py:589-593 | the listing is a permutation, newest first, ties in arrival order |
| Retention.PlanPartitions | src/agent_memory_service/backup.py:621-626 | every listed backup id goes to exactly one of keep and delete, with multiplicity |
| Retention.PlanRetention | src/agent_memory_service/backup.py:575-626 | errors iff a window is negative or an id repeats; otherwise keep and delete are the listing restricted to, and without, the retained set, and no pinned or kept id is deleted |
| Retention.AddTenant | src/agent_memory_service/backup.py:602-620 | the one-pass loop with two bounded seen sets adds exactly the tenant's kept ids |
| Retention.ApplyRetention | src/agent_memory_service/backup.py:645-664 | raises iff some id to delete is kept or pinned, before touching it, and otherwise attempts every deletion once, in order |
| Retention.OutcomesPartition | src/agent_memory_service/backup.py:649-664 | deleted and failed together are exactly the delete list |
| Retention.PruneNight | src/agent_memory_service/backup.py:575-664 | plan then apply leaves exactly the retained backups and the failed deletions, and never raises |
| Control.NoStaleAuthority | src/agent_memory_service/control.py:636-758 | over calls that do not overlap, in every reachable state each live token, active delegation, binding and membership is backed by active records, with token roles within current membership roles |
| Control.EagerAgreesWithLazy | src/agent_memory_service/control.py:1475-1518 | over calls that do not overlap, the store returns every unrevoked token, and reauthorizing its session succeeds with the membership's current roles, at least those of the token |
| Control.AuthenticateExactly | src/agent_memory_service/auth.py:220-238 | authentication succeeds iff secret, revocation and expiry of the token's own record allow it |
| Control.ActiveBindingResolves | src/agent_memory_service/control.py:1647-1670 | a channel resolves to a session iff its binding exists and is active |
| Control.RevocationIsPermanent | src/agent_memory_service/control.py:894-922 | a revoked token keeps its revocation time and never authenticates again, whatever is done next |
| Control.RotationIsBounded | src/agent_memory_service/control.py:1748-1811 | rotation only shortens the old token, to at most the overlap, and adds one token of the same actor, tenant and delegation |
| Control.PerformKeeps | src/agent_memory_service/control.py:1307-1686 | every guarded operation keeps the global invariant of the identity graph |
| Control.UpdateMembershipKeeps | src/agent_memory_service/control.py:684-703 | changing roles or active state of a membership keeps the invariant, for every combination of old and new values |
| ControlRace.NoStaleAuthorityExactly | src/agent_memory_service/control.py:1307-1686 | with calls interleaved between their checks and their writes, the identity graph stays sound at every moment iff every write still finds what its call took for granted: those behind what it activates active, a token within its membership, no live token with a role that the roles written leave out |
| ControlRace.LiveTokensAreCurrent | src/agent_memory_service/control.py:1475-1518 | in such runs the store returns every unrevoked token and its session reauthorizes with at least its roles |
| ControlRace.StaleTokenIsSaved | src/agent_memory_service/stores/postgres_control.py:1491-1526 | a run in which a token is saved with a role revoked since the call read it |
| ControlRace.AloneIsGuarded | src/agent_memory_service/control.py:1307-1811 | an undisturbed call does what the one-step operation does |
| ControlStore.InMemoryControlStore.DisablePrincipal | src/agent_memory_service/control.py:636-668 | the four cascading loops compute the specified cascade and change nothing else |
| ControlStore.InMemoryControlStore.DisableMembership | src/agent_memory_service/control.py:705-737 | same, for one tenant; `DisableMembershipExactly` says for every record what that is |
| ControlStore.InMemoryControlStore.UpdateMembership | src/agent_memory_service/control.py:684-703 | same, including token revocation on any change |
| ControlStore.InMemoryControlStore.RevokeMembershipRole | src/agent_memory_service/control.py:739-758 | removing the last role disables the membership; otherwise tokens of the actor are revoked |
| ControlStore.InMemoryControlStore.RevokeDelegation | src/agent_memory_service/control.py:807-820 | delegation, its bindings and its tokens go together |
| ControlStore.InMemoryControlStore.RevokeMatchingTokens | src/agent_memory_service/control.py:953-959 | the loop revokes exactly the matching unrevoked tokens |
| ControlStore.InMemoryControlStore.Rotate | src/agent_memory_service/control.py:931-951 | the store's rotation under its own guards |
| ControlExact.DisablePrincipalExactly | src/agent_memory_service/control.py:636-668 | for every membership, delegation, binding and token: it is cut off iff it names the principal, the binding also through its delegation; live tokens are revoked at this moment, and everything else is spared |
| ControlExact.DisableMembershipExactly | src/agent_memory_service/control.py:705-737 | a token is newly revoked iff it was live, of the tenant, and the principal is its actor or subject; delegations and bindings likewise; every other record is unchanged |
| ControlExact.UpdateMembershipExactly | src/agent_memory_service/control.py:684-703 | an update that leaves the membership active revokes the live tokens of its actor in the tenant iff it changed something; one that does not cascades |
| ControlExact.RevokeRoleExactly | src/agent_memory_service/control.py:739-758 | the last role disables the membership; any other leaves it with one role less and revokes the live tokens of its actor in the tenant |
| ControlExact.RevokeDelegationExactly | src/agent_memory_service/control.py:807-820 | exactly the delegation, the bindings made on it and the live tokens issued for it are cut off |
| ControlExact.PrincipalExactly | src/agent_memory_service/control.py:1307-1354 | when a tenant or principal is created or updated and what that changes |
| ControlExact.GrantExactly | src/agent_memory_service/control.py:1356-1376 | a role is granted iff it is one of the three, tenant and principal are active and an agent gets no other than that of a member; it is added to the roles there were |
| ControlExact.ChangeExactly | src/agent_memory_service/control.py:1389-1420 | the exact condition of a membership update and the membership it leaves |
| ControlExact.DelegationExactly | src/agent_memory_service/control.py:1520-1578 | a delegation is made, or made active again, iff agent and user are active members of an active tenant |
| ControlExact.BindingExactly | src/agent_memory_service/control.py:1620-1686 | a channel is bound iff it is telegram, the id is of digits and not bound, and the delegation is active |
| ControlExact.IssueExactly | src/agent_memory_service/control.py:1439-1473 | a token is issued iff tenant, principal and membership are active and the life asked for is positive and at most the longest, 90 days for a user and 30 for an agent unless configured; it lives exactly that long with the roles of the membership |
| ControlExact.IssueDelegatedExactly | src/agent_memory_service/control.py:1580-1615 | the same for a delegated token, which acts for the subject of its delegation |
| ControlExact.RotateExactly | src/agent_memory_service/control.py:1748-1811 | rotation asks for a live token and an overlap of at most a day; the old token ends with the overlap if that is earlier, the new one has the roles of today and the life asked for |
| ControlExact.ReauthorizeExactly | src/agent_memory_service/control.py:1475-1518 | a session is authorized again iff everything it stands on is active and its delegation is its own; it then has the roles of today |
| ControlExact.ResolveExactly | src/agent_memory_service/control.py:1647-1670 | a channel resolves to its binding's agent acting for its user |
| ControlExact.AuthenticateNotes | src/agent_memory_service/auth.py:220-238 | authentication returns the token's session and notes the time of use; revocation is final |
| Operators.LiveCredentialsAreCurrent | src/agent_memory_service/control.py:323-363 | over calls that do not overlap, in every reachable state an unrevoked operator token or admin session carries exactly the current roles of an active operator and is never hidden by the read check |
| Operators.AuthenticatesExactly | src/agent_memory_service/operator_auth.py:145-159 | an operator token authenticates iff its own record allows it, with the roles it was issued with |
| Operators.SessionAnswersExactly | src/agent_memory_service/operator_auth.py:242-277 | an admin session answers iff secret and CSRF match, it is unrevoked, less than 30 minutes since its last use and less than 8 hours old |
| Operators.AdminAlwaysRemains | src/agent_memory_service/control.py:1015-1046 | over calls that do not overlap, once an active operator_admin exists one always exists |
| Operators.ChangeCutsOff | src/agent_memory_service/control.py:323-344 | after any change of roles or active state nothing issued before authenticates ever again |
| Operators.RotationIsBounded | src/agent_memory_service/control.py:1081-1109 | rotation only shortens the old token, to at most the overlap, and adds one token of the same operator with its current roles and a bounded life |
| Operators.RevokedStaysRevoked | src/agent_memory_service/control.py:365-371 | revocation times of tokens and sessions are final |
| OperatorRace.AdminRemainsExactly | src/agent_memory_service/control.py:1015-1046 | with the read, the count and the write of every call interleaved: an active operator_admin exists at every moment iff no update is written that takes away the last one, the guard asked again at the write |
| OperatorRace.BothAdminsGo | src/agent_memory_service/stores/postgres_control.py:109-174 | a run of two overlapping updates after which no administrator is left |
| OperatorRace.LiveCredentialsAreCurrentExactly | src/agent_memory_service/control.py:1048-1109 | with reads and writes interleaved: every unrevoked token and session carries the current roles of an active operator at every moment iff no token or session is saved whose operator by then is inactive or has other roles than those read; a rotation never breaks it |
| OperatorRace.StaleTokenIsSaved | src/agent_memory_service/control.py:1048-1069 | a run in which a token with the old roles is saved after the demotion that should have cut it off |
| OperatorRace.AloneIsGuarded | src/agent_memory_service/control.py:1015-1109 | an undisturbed call does what the one-step operation does, except that a login drawing an id in use has marked its token as used |
| OperatorStore.InMemoryOperatorStore.UpdateOperator | src/agent_memory_service/control.py:323-344 | the two revocation loops compute the specified update |
| OperatorStore.InMemoryOperatorStore.CountActiveOperatorAdmins | src/agent_memory_service/control.py:346-351 | the loop counts exactly the active administrators |
| OperatorStore.InMemoryOperatorStore.ChangeOperator | src/agent_memory_service/control.py:1015-1046 | the guarded update, refused for the last active administrator |
| OperatorStore.InMemoryOperatorStore.RotateToken | src/agent_memory_service/control.py:1081-1109 | rotation with both layers of guards |
| OperatorStore.InMemoryOperatorStore.AuthenticateSession | src/agent_memory_service/operator_auth.py:242-277 | the session check and the sliding idle expiry |
| OperatorExact.CreateOperatorExactly | src/agent_memory_service/control.py:988-1004 | an operator is created iff its roles are among the seven and it is new |
| OperatorExact.UpdateOperatorExactly | src/agent_memory_service/control.py:1015-1046 | an update is accepted iff it asks for something, with known roles, and leaves the last active operator_admin one; if it changes anything, exactly the operator's live tokens and sessions are revoked at this moment |
| OperatorExact.IssueTokenExactly | src/agent_memory_service/control.py:1048-1065 | a token is issued iff the operator is active with roles, the id is new and the life is positive and at most 2,592,000,000,000 microseconds, and lives exactly that long |
| OperatorExact.RotateTokenExactly | src/agent_memory_service/control.py:1081-1109 | rotation asks for a live token of an active operator and an overlap of at most 86,400,000,000 microseconds; both tokens' ends are exact and all others unchanged |
| OperatorExact.AuthenticateNotes | src/agent_memory_service/operator_auth.py:145-159 | a token answers iff it and its operator allow it, with the operator's roles of now, and its use is noted |
| OperatorExact.CreateSessionExactly | src/agent_memory_service/control.py:1116-1133 | a session opens iff its token answers and its id is new, and ends after 28,800,000,000 microseconds, or 1,800,000,000 idle |
| OperatorExact.AuthenticateSessionExactly | src/agent_memory_service/operator_auth.py:242-277 | a session answers before both its ends, with its secret and where required its CSRF secret; each use moves the idle end, never past the absolute one |
| OperatorExact.RevokeExactly | src/agent_memory_service/control.py:365-371 | a revocation sets the time of exactly one unrevoked credential |
| BackupBarrier.ReachableInvariant | src/agent_memory_service/backup_barrier.py:63-148 | over every interleaving and crash: a barrier row exists exactly for inactive managed tenants, and locks exclude each other |
| BackupBarrier.CaptureIsStable | src/agent_memory_service/backup_barrier.py:83-130 | while a process holds the exclusive lock no fenced mutation of the tenant commits, so its contents stay as they were until that process ends the capture |
| BackupBarrier.SuspensionLasts | src/agent_memory_service/backup_barrier.py:63-130 | without a recovery of its barrier in flight the tenant stays suspended through the capture |
| BackupBarrier.RecoveryInFlightReactivates | src/agent_memory_service/backup_barrier.py:132-148 | with one in flight, its last transaction reactivates the tenant while the capture goes on |
| BackupBarrier.TenantActiveDuringCapture | src/agent_memory_service/backup_barrier.py:132-148 | a run from an initial state in which a capture goes on while its tenant is active |
| BackupBarrier.ReactivationIsExact | src/agent_memory_service/backup_barrier.py:208-231 | a tenant becomes active only by a last transaction naming its row's exact barrier id, outside recovery only by the process that drew it |
| BackupBarrier.ExitReactivatesExactly | src/agent_memory_service/backup_barrier.py:114-130 | exit reactivates iff the tenant's row still carries the exiting barrier |
| BackupBarrier.RecoverExactly | src/agent_memory_service/backup_barrier.py:132-148 | an undisturbed recover reactivates and removes the row iff it names the row, the route is healthy and nobody holds the lock; otherwise it changes nothing |
| BackupBarrier.CrashThenRecover | src/agent_memory_service/backup_barrier.py:132-148 | from every reachable state, after the lock holder crashed, one recover makes the tenant active |
| BackupBarrier.EnterBacksOut | src/agent_memory_service/backup_barrier.py:63-81 | an enter whose connection or lock fails leaves rows and active tenants as they were |
| BackupBarrier.ConsistencyBarrier.Enter | src/agent_memory_service/backup_barrier.py:63-81 | done iff the process was idle, the tenant active, healthy and lock-free and connection and lock granted; not routable iff idle and the tenant not both active and healthy; failed iff idle, routable and not granted; the new state is said for each, and the call is a sequence of the protocol's steps |
| BackupBarrier.ConsistencyBarrier.Exit | src/agent_memory_service/backup_barrier.py:114-130 | the exact outcomes and new rows and active tenants of exit, a lost lock told apart from a failed resume; the call is a sequence of the protocol's steps |
| BackupBarrier.ConsistencyBarrier.Recover | src/agent_memory_service/backup_barrier.py:132-148 | done iff the named row is there and inactive, its route healthy and its lock free, with the exact new state; the call is a sequence of the protocol's steps |
| DecommissionRace.ChainsExactly | src/agent_memory_service/decommission.py:622-643 | with calls interleaved at every read, save and action, the saves of a request form one chain of allowed transitions with the revision rising by one per save iff no request call creates its record after its tombstone |
| DecommissionRace.ChainOrder | src/agent_memory_service/decommission.py:320-563 | in a chain: suspending, suspended, grace, then cancelled as the end, or finalizing and only the tombstone after it; requester and resources never change |
| DecommissionStale.CancelledIsNeverDestroyedExactly | src/agent_memory_service/decommission.py:436-563 | for a request that is cancelled, no destruction action was attempted iff no request call created it after its tombstone; and then none ever will be and the request stays as it is |
| DecommissionStale.CancelledThoughDestroyed | src/agent_memory_service/decommission.py:334-351 | a run after which a request is cancelled although all six of its destruction actions were carried out |
| DecommissionSound.TombstoneIsEarned | src/agent_memory_service/decommission.py:529-563 | in every run a tombstone was written on top of a finalizing record that another operator confirmed with evidence that was complete, of verified integrity and verified by then, a backup at most backupMaxAge old or an accepted export, and all nine steps succeeded; it ends the history, with the record gone, unless a stale create revived the request |
| DecommissionSound.SavedIsEarned | src/agent_memory_service/decommission.py:398-434 | in every run each saved record in or after grace was confirmed by someone other than its requester with such evidence, field by field, and every step a saved record lists succeeded |
| DecommissionSound.DestructionIsConfirmed | src/agent_memory_service/decommission.py:488-563 | in every run no destruction action is attempted for a request before a record of it was admitted to destruction, confirmed by another with such evidence |
| DecommissionStale.StaleCreateHappens | src/agent_memory_service/decommission.py:334-351 | a run after which a request has both a tombstone and a new suspending record |
| DecommissionRace.ApplyKeeps | src/agent_memory_service/decommission.py:320-563 | every atomic step keeps the invariant linking store, history and callers' snapshots for every request but those revived by a stale create |
| DecommissionOpen.OneOpenExactly | src/agent_memory_service/decommission.py:334-351 | in the reference store, in every run, a tenant never has two open requests iff no save leaves an open record beside another open one of the tenant |
| DecommissionOpen.IndexKeepsOneOpen | migrations/control/versions/0004_decommission.py:77-79 | with the unique index, which stops inserts and updates alike, no run gives a tenant two open requests, and runs that never do are left as they are |
| DecommissionOpen.CreatesSuffice | src/agent_memory_service/decommission.py:334-351 | where no request is created after its tombstone, only a create can be crowded |
| DecommissionOpen.TwoOpenRequests | src/agent_memory_service/decommission.py:611-620 | a run of two overlapping request calls that both pass the check for an open request and both save |
| DecommissionHistory.DestructionIsEarned | src/agent_memory_service/decommission.py:488-563 | in every run of non-overlapping calls each destruction action is preceded by three successful suspension steps, a confirmation by a different actor with evidence that was complete, verified, and a backup at most backupMaxAge old or an accepted export, a finalize at or after confirmation plus grace, and every earlier destruction step succeeded |
| DecommissionHistory.TombstoneMeansAllSix | src/agent_memory_service/decommission.py:529-563 | a tombstone's log holds, in this order, the request, the three named suspension steps, the confirmation by the tombstone's confirmer, who is not its requester, the admission after the grace period, the six named destruction steps and the tombstone's date as its end |
| DecommissionHistory.RecordedStepNeverRunsAgain | src/agent_memory_service/decommission.py:369-391 | the log only grows and no later call runs a step that is already recorded |
| DecommissionHistory.CancelledIsNeverDestroyed | src/agent_memory_service/decommission.py:436-486 | a cancelled request was cancelled within its grace period and stays as it is for ever; its log ends with the five passed checks and the reactivation, and holds no destruction |
| DecommissionHistory.Reachable | src/agent_memory_service/decommission.py:320-563 | every history is a walk through the fixed order with only immediate repeats of unrecorded steps, agrees with the stored record, and a tenant has at most one open request |
| DecommissionHistory.ClosedForever | src/agent_memory_service/decommission.py:446-448 | cancelled and destroyed requests are never changed again |
| DecommissionHistory.PredatesGraceExactly | src/agent_memory_service/decommission.py:505-513 | for every reachable state and every finalize call that writes the tombstone: the tombstone bears the time of that call, and it predates the end of grace iff the call found the record already finalizing and came before that end |
| DecommissionHistory.TombstoneCanPredateGrace | src/agent_memory_service/decommission.py:505-513 | a run whose tombstone is dated before the end of the grace period |
| DecommissionStore.InMemoryDecommissionStore.SaveRecord | src/agent_memory_service/decommission.py:622-631 | compare-and-swap: saved with the next revision iff the revision is the stored one, or 0 and nothing stored; otherwise a conflict and no change |
| DecommissionStore.InMemoryDecommissionStore.FindOpen | src/agent_memory_service/decommission.py:611-620 | finds an open request of the tenant iff there is one |
| DecommissionStore.DecommissionService.Request | src/agent_memory_service/decommission.py:320-396 | the call does what the specification says, for every pattern of failures and deaths |
| DecommissionStore.DecommissionService.Confirm | src/agent_memory_service/decommission.py:398-434 | same for confirm |
| DecommissionStore.DecommissionService.Cancel | src/agent_memory_service/decommission.py:436-486 | same for cancel |
| DecommissionStore.DecommissionService.Finalize | src/agent_memory_service/decommission.py:488-563 | same for finalize |
| DecommissionStore.DecommissionService.PerformSteps | src/agent_memory_service/decommission.py:369-391 | the resumable step loop, saving each step before the next |
| DecommissionStore.DecommissionService.CheckEvidence | src/agent_memory_service/decommission.py:573-589 | accepts iff the evidence is complete, of verified integrity and verified by now, and a backup between 0 and backupMaxAge old or an accepted export |
| DecommissionExact.RequestExactly | src/agent_memory_service/decommission.py:320-396 | a request is a conflict iff its id is known with other contents or destroyed, or the tenant has an open request; otherwise the exact record it saves, and suspended iff each of the three steps is recorded or goes through |
| DecommissionExact.ConfirmExactly | src/agent_memory_service/decommission.py:398-434 | a confirmation starts the grace period iff another than the requester makes it, on a suspended request, with the evidence in order field by field and verified; the exact new record, the idempotent repeat, and which failure answers what |
| DecommissionExact.CancelExactly | src/agent_memory_service/decommission.py:436-486 | cancelled iff in grace and before its end, when the five named checks and the reactivation go through; otherwise at most the failure is noted |
| DecommissionExact.FinalizeExactly | src/agent_memory_service/decommission.py:488-563 | a call gets to destroying iff the request is finalizing or its grace period over, and the record gives way to the exact tombstone iff the six named steps are recorded or go through |
| DecommissionAlone.AloneConfirms | src/agent_memory_service/decommission.py:398-434 | a confirm call of DecommissionRace without anyone in between leaves the records and tombstones that the service's call leaves |
| DecommissionAlone.AloneRequests | src/agent_memory_service/decommission.py:320-396 | the same for request, whichever actions fail |
| DecommissionAlone.AloneFinalizes | src/agent_memory_service/decommission.py:488-563 | the same for finalize |
| DecommissionAlone.AloneCancels | src/agent_memory_service/decommission.py:436-486 | the same for cancel |
| Outbox.NothingIsLost | src/agent_memory_service/outbox.py:293-379 | after any steps and crashes of relays, workers and redrivers a committed unprocessed event has an undispatched row or a live message |
| OutboxLiveness.CanBeProcessedExactly | src/agent_memory_service/outbox.py:293-471 | from every reachable state a committed event can still be processed iff it is processed already, its command still has its content, or some worker holds that content |
| OutboxLiveness.RetainIsNeverMarked | src/agent_memory_service/stores/postgres_governance.py:1515-1540 | a run after which a retain whose item was erased before it was marked is processed by no continuation, its message for ever in the queue |
| Outbox.AcknowledgedOnlyWhenDone | src/agent_memory_service/outbox.py:400-471 | a worker removes a message only if it decodes and its candidate is published or its command applied, what it puts having been written to the graph and what it erases deleted |
| OutboxGraph.DuplicatesChangeNothingExactly | src/agent_memory_service/outbox.py:130-139 | at every moment the graph holds one copy of every node that was put and not erased and nothing else, however messages are duplicated and workers die, iff no worker writes a node that was written before |
| OutboxGraph.SettledGraphIsTheLedger | src/agent_memory_service/worker.py:84-102 | then, once every command is applied, the graph is what the database says: one copy, with the accepted text, of every node that was put and has no erasure, in whatever order the commands were handled |
| OutboxGraph.ErasedItemComesBack | src/agent_memory_service/worker.py:91-102 | a run after which everything is applied and acknowledged, the database says erased and the graph holds the item |
| OutboxGraph.CandidateIsPublishedTwice | src/agent_memory_service/stores/neo4j_memory.py:192-227 | a run after which one published candidate is in the graph twice |
| OutboxGraph.KnowledgeStays | src/agent_memory_service/stores/neo4j_memory.py:192-227 | late writes or not, published knowledge never leaves the graph and every copy carries the text accepted for its node |
| Outbox.RunKeeps | src/agent_memory_service/outbox.py:300-471 | the delivery invariant over every run |
| OutboxProcesses.Deployment.RelayTurn | src/agent_memory_service/outbox.py:304-324 | an event is claimed iff its row is neither dispatched nor processed, its lock free or expired and the claim new; it is marked iff moreover its message is new and the broker confirmed it; the rows, messages and claims it leaves are said in full |
| OutboxProcesses.Deployment.RelayOnce | src/agent_memory_service/outbox.py:300-325 | the offers dispatched are the first ones, each claimed, stored and marked; fewer than the limit means that the offers ran out or the next could not be claimed, and an error that the next was claimed and not confirmed; a limit below one is refused |
| OutboxProcesses.Deployment.Handle | src/agent_memory_service/outbox.py:400-471 | one delivery handled to its end: acknowledged iff its command was read and is done, or still has its content and every call needed went through; what graph, rows, commands and queue are then and otherwise |
| OutboxProcesses.Deployment.RedriveExact | src/agent_memory_service/outbox.py:334-379 | redriven iff one of the first maxScan dead letters names the event, the event is not processed and both calls go through; the row is reopened before the letter is gone, and everything else it held is a dead letter again |
| OutboxExact.CommitExactly | src/agent_memory_service/stores/postgres_governance.py:1413-1503 | a commit is taken iff event and command are new, a put is of a node nobody put and an erasure of an item put and not erased; it adds one unsent row and one waiting command |
| OutboxExact.MarkExactly | src/agent_memory_service/stores/postgres_governance.py:317-374 | marking closes the command and all its events, redacts the command that put an erased item, and touches nothing else |
| OutboxExact.CrashExactly | src/agent_memory_service/outbox.py:300-471 | what a death takes with it: a worker's message goes back, a relay's lock stays, a redriver's letters are dead letters again |
| Governance.PublicationInvariant | src/agent_memory_service/governance.py:135-253 | a candidate is publishing iff the outbox holds exactly one event for it; a published one was approved by someone entitled whom it records and is knowledge exactly once; others are not knowledge |
| Governance.KnowledgeIsApproved | src/agent_memory_service/memory.py:262-277 | tenant knowledge holds only approved candidates, each once |
| Governance.RejectedForever | src/agent_memory_service/governance.py:178-215 | a rejected candidate never changes and never becomes knowledge |
| Governance.CrashBeforeMarkLosesNothing | src/agent_memory_service/memory.py:262-277 | after a death between graph write and mark the next publish_next ends in the state the first would have reached |
| Governance.PublishingEnds | src/agent_memory_service/memory.py:262-277 | publishing until the outbox is empty takes at most one call per event and leaves nothing publishing |
| Governance.ApplyKeeps | src/agent_memory_service/memory.py:156-178 | every proposal, import, review and publisher step keeps the publication invariant, reviews only by those entitled |
| GovernanceStore.InMemoryGovernanceStore.Review | src/agent_memory_service/governance.py:178-215 | the store's review with its idempotency key |
| GovernanceStore.InMemoryGovernanceStore.MarkPublished | src/agent_memory_service/governance.py:220-227 | marks the candidate and filters its events out of the outbox |
| GovernanceStore.InMemoryGovernanceStore.Propose | src/agent_memory_service/governance.py:135-158 | proposal with its idempotency key |
| GovernanceStore.InMemoryKnowledge.PublishTenantKnowledge | src/agent_memory_service/stores/memory.py:150-170 | one knowledge item per candidate |
| GovernanceStore.Publisher.PublishNext | src/agent_memory_service/memory.py:262-277 | publish_next over the two stores, and what it leaves when it dies part way |
| GovernanceExact.ProposeExactly | src/agent_memory_service/memory.py:141-154 | a proposal needs visible sources, answers a known key, and otherwise makes a submitted candidate of what was proposed |
| GovernanceExact.ReviewExactly | src/agent_memory_service/memory.py:156-178 | a review is denied iff the reviewer is no human knowledge_curator or tenant_administrator, or reviews himself without being a permitted administrator; not found, invalid and the decision otherwise, with the exact new state |
| GovernanceExact.EventsKept | src/agent_memory_service/governance.py:220-227 | marking leaves exactly the events of other candidates, in order |
| GovernanceExact.PublishNextExactly | src/agent_memory_service/memory.py:262-277 | one publish_next takes the oldest event: its candidate is knowledge once, published and without events, and nothing else changes |
| ProvisioningJobs.ReportTakesEffectExactly | src/agent_memory_service/control.py:550-600 | a worker's report changes a job iff the job is running at the attempt that worker claimed; otherwise it changes nothing |
| ProvisioningJobs.RunKeeps | src/agent_memory_service/operator_provisioning.py:174-212 | workers claiming, reporting and dying, interleaved with the checks and the writes of operator requests, keep indexes, attempt counts and claims in agreement |
| ProvisioningJobs.AttemptsAreClaims | src/agent_memory_service/control.py:525-548 | the attempt counter is the number of claims and a running job belongs to its last claimant |
| ProvisioningJobs.JobsAreUnique | src/agent_memory_service/control.py:462-472 | no two jobs share an operator and key, or a tenant and fingerprint |
| ProvisioningJobs.FinalIsAbsorbingExactly | src/agent_memory_service/control.py:1219-1305 | succeeded and cleanup_requested jobs stay as they are along a run iff no job becomes final between the check and the write of a request, but for a cleanup repeated in the same instant |
| ProvisioningJobs.FinalToTheEnd | src/agent_memory_service/control.py:1219-1305 | in such a run a final job is at the end what it was at the beginning |
| ProvisioningJobs.SucceededIsOverwritten | src/agent_memory_service/control.py:486-522 | a run in which a cancel that read running overwrites a success and a retry queues the provisioned job again |
| ProvisioningJobs.CleanupIsOverwritten | src/agent_memory_service/control.py:1242-1305 | wherever a job has failed, a retry held up between check and write undoes a cleanup accepted meanwhile |
| ProvisioningJobs.LateWritesAreStale | src/agent_memory_service/control.py:486-522 | in every reachable state a write off the edges, or to a final job, comes after the job left the state its request read |
| ProvisioningJobs.JobsMoveAlongEdgesExactly | src/agent_memory_service/control.py:1219-1305 | jobs keep their identity and move only along the edges of claim, report, cancel, retry and cleanup along a run iff no request writes after its job has left the states the request is meant for |
| ProvisioningJobs.KeyIsHonouredExactly | src/agent_memory_service/control.py:462-472 | a repeated operator key gets the same job iff the key was recorded or the manifest is that job's |
| ProvisioningJobs.KeyCanAnswerTwice | src/agent_memory_service/control.py:462-472 | two requests with one key answered with two jobs |
| ProvisioningJobs.OldestIsUnique | src/agent_memory_service/control.py:531-534 | creation time and id order determine the claimed job |
| ProvisioningJobStore.InMemoryJobStore.ClaimNext | src/agent_memory_service/control.py:525-548 | claims a queued job that no other queued one precedes by creation time and id, and none iff none is queued |
| ProvisioningJobStore.InMemoryJobStore.Create | src/agent_memory_service/control.py:462-472 | creation through the two indexes |
| ProvisioningJobStore.InMemoryJobStore.Finish | src/agent_memory_service/control.py:550-600 | complete or fail, only for the holder of a running job |
| ProvisioningJobStore.InMemoryJobStore.UpdateState | src/agent_memory_service/control.py:486-522 | the unconditional write of an operator request: state, stamps and claim of that one job |
| ProvisioningJobStore.InMemoryJobStore.Request | src/agent_memory_service/control.py:1219-1305 | cancel, retry and cleanup when nothing comes between check and write: the states each is meant for, the exact confirmation and an inactive tenant for cleanup |
| ProvisioningJobsExact.CreateExactly | src/agent_memory_service/control.py:462-472 | a known operator key answers first, then a known manifest, without a change; a new request is queued and indexed under both |
| ProvisioningJobsExact.ClaimExactly | src/agent_memory_service/control.py:525-548 | what a claim changes of a job |
| ProvisioningJobsExact.PrecedesExactly | src/agent_memory_service/control.py:531-534 | ids are compared at the first difference, a prefix first |
| ProvisioningJobsExact.FinishExactly | src/agent_memory_service/control.py:550-600 | a report is taken iff the worker holds the running job, and what it records |
| ProvisioningJobsExact.RequestExactly | src/agent_memory_service/control.py:1219-1305 | the states each request is for, the confirmation "cleanup " with the tenant's name and an inactive tenant for cleanup, and the job it leaves |
| ProvisioningJobsExact.UpdateExactly | src/agent_memory_service/control.py:486-522 | the unconditional update: state, stamps and claim of that one job |
| Provisioning.ApplyExactly | src/agent_memory_service/provisioning.py:356-382 | a call refuses a changed manifest, does nothing when complete, and otherwise makes exactly the adapter calls of the missing steps up to the first that fails or kills it, records exactly the steps that went through, and answers the step that raised or the finished progress |
| Provisioning.ActiveExactly | src/agent_memory_service/provisioning.py:239-249 | over all calls with failures and deaths: completed steps are a prefix of the ten named ones, active iff all ten, and then every step, the verifications among them, had a successful adapter call |
| Provisioning.RecordedStepNeverRunsAgain | src/agent_memory_service/provisioning.py:368-377 | no later call executes a recorded step, and the prefix only grows |
| Provisioning.StoreRunKeeps | src/agent_memory_service/provisioning.py:169-258 | under any interleaving of store operations by several provisioners the prefix grows under one fingerprint and active means all ten |
| ProvisioningRace.ActiveIsEarned | src/agent_memory_service/provisioning.py:356-382 | with provisioner calls overlapping at every store operation and adapter call: completed steps are a prefix, active iff all ten, and then every step had a successful adapter call made for the manifest the tenant is provisioned under |
| ProvisioningRace.RepeatsExactly | src/agent_memory_service/provisioning.py:368-377 | a call executes a recorded step iff more is completed by then than when it last heard |
| ProvisioningAlone.AloneApplies | src/agent_memory_service/provisioning.py:356-382 | a call of ProvisioningRace without anyone in between records the progress that the provisioner's call records, whichever step fails |
| ProvisioningStore.TenantProvisioner.Apply | src/agent_memory_service/provisioning.py:356-382 | the provisioner's call does what the specification says |
| ProvisioningStore.TenantProvisioner.PerformSteps | src/agent_memory_service/provisioning.py:368-382 | its loop over the fixed order |
| ProvisioningStore.InMemoryProvisioningStateStore.MarkCompleted | src/agent_memory_service/provisioning.py:206-219 | only the next step of a provisioning tenant can complete, never activation |
| Archive.RoundTrip | src/agent_memory_service/archive.py:53-148 | decoding an encoded archive of valid records returns the same three sequences in order, under LF, CRLF or CR line ends |
| Archive.NormalForm | src/agent_memory_service/archive.py:90-148 | for any accepted bytes, decode after encode after decode is decode, and what was accepted is valid |
| Archive.ScopesNeverMix | src/agent_memory_service/archive.py:90-110 | an archive of one scope is refused under another |
| Archive.SplitTerminated | src/agent_memory_service/archive.py:90-96 | splitting terminated lines gives the lines back |
| Archive.Decode | src/agent_memory_service/archive.py:90-148 | the loop over the records computes the decoding function |
| ArchiveExact.SplitExactly | src/agent_memory_service/archive.py:90-96 | the lines of any bytes: none, a last line without an end, or a line, its end and the lines of the rest |
| ArchiveExact.OpensExactly | src/agent_memory_service/archive.py:90-125 | an archive opens iff it has at least two lines, all JSON objects, the first the manifest of the scope and the last the footer with the number of records and the digest of all before it |
| ArchiveExact.RecordExactly | src/agent_memory_service/archive.py:188-206 | a line is a record of a type iff its fields are exactly four, with that type and the digest of type and payload |
| ArchiveExact.AddExactly | src/agent_memory_service/archive.py:126-148 | an accepted record adds what its schema reads to the end of exactly one of three lists |
| ArchiveExact.AddsExactly | src/agent_memory_service/archive.py:126-148 | records are accepted iff each of them is |
| ArchiveExact.AcceptsExactly | src/agent_memory_service/archive.py:90-148 | an archive is accepted iff it opens, each record is readable, and no memory is kept or erased twice, nor kept and erased, and no candidate comes twice |
| ArchiveExact.EncodesExactly | src/agent_memory_service/archive.py:53-87 | what is written: manifest, records in order, footer, with their exact fields |
| ArchiveExact.ValidRecordsExactly | src/agent_memory_service/archive.py:213-275 | the conditions on the fields of an item, a candidate and a tombstone |
| ArchiveCodec.LawfulCodecExists | src/agent_memory_service/archive.py:53-148 | the laws assumed of JSON and of the record schemas can all be met: a concrete codec over every document, finite doubles included, meets them |
| CorrectionHistory.OrderCorrectionHistory | src/agent_memory_service/archive.py:151-173 | the depth-first sort terminates, raises iff the corrections form a loop, which it exhibits, and otherwise returns a permutation with every ancestor before its descendants |
| CorrectionHistory.AcceptsExactly | src/agent_memory_service/memory.py:552-572 | the archive validation accepts iff all items are private, no parent is corrected twice, and every link leads to a superseded item or an erased one |
| CorrectionHistory.AcceptedArchiveIsChains | src/agent_memory_service/memory.py:552-572 | a sorted and accepted archive falls apart into disjoint linear chains whose non-tip items are superseded and whose root corrects nothing or an erased item |
| CorrectionHistory.SortedIsAcyclic | src/agent_memory_service/archive.py:151-173 | a list with parents first has no cycle |
| OpenApi.Explore | scripts/export-admin-openapi.py:51-72 | the worklist terminates with exactly the schemas reachable from the roots |
| OpenApi.OpenApiDocument.PruneComponents | scripts/export-admin-openapi.py:51-72 | the kept schemas are exactly the reachable ones and nothing else of the document changes |
| OpenApi.ReferencesExactly | scripts/export-admin-openapi.py:75-86 | the collected names are exactly those referenced by some part of the value |
| OpenApiExact.CollectsExactly | scripts/export-admin-openapi.py:75-86 | a name is collected iff some part at any depth has the `$ref` "#/components/schemas/" and the name |
| OpenApiExact.PrunedExactly | scripts/export-admin-openapi.py:51-72 | of the schemas under components those are kept to which references lead from the paths; the rest of the document is unchanged |
| OpenApi.PruningKeepsReferences | scripts/export-admin-openapi.py:51-72 | every reference that resolved still resolves iff references from outside paths and schemas, and from a kept schema object that is itself a reference, are reachable from the paths too |
| OpenApi.PruningCanBreakReferences | scripts/export-admin-openapi.py:40-72 | a document with paths and one response component, named in the contract, whose pruning leaves that response dangling |
| BodyLimits.BufferBody | src/agent_memory_service/body_limits.py:63-84 | too large iff the received bytes exceed the limit; otherwise the buffer holds exactly the bytes up to the end of the request |
| BodyLimits.ReplayFaithful | src/agent_memory_service/body_limits.py:85-100 | replay delivers the same bytes in chunks of exactly 65,536 but for the last, with more_body false on the last only, one empty message for an empty body |
| BodyLimits.ReplayReceive.Receive | src/agent_memory_service/body_limits.py:87-99 | each call of the closure yields the next message of the replay |
| BodyLimits.HandleRequest | src/agent_memory_service/body_limits.py:54-101 | rejects iff there is one length header with a value above the limit or the received bytes exceed it; the application runs only on a stream validated whole |
| BodyLimits.Serve | src/agent_memory_service/body_limits.py:54-101 | an application that calls receive any number of times sees the replay of the whole body, then the messages that came later |
| BodyLimits.CompareChunkings | src/agent_memory_service/body_limits.py:63-100 | two chunkings of the same bytes are rejected alike or give the application the very same messages, the first of which are the faithful replay |

## Left out

- SQL, Docker, encryption, Neo4j, AMQP client calls, web routes, Telegram, MCP and the admin app: each is a step or an injected action that succeeds, fails or dies.
- Hashing, secrets and generated ids: verifiers are opaque strings compared for equality, ids are parameters drawn fresh; parsing of the dotted token strings is not modelled.
- JSON text and the record schemas' own parsing in the archive: an assumed codec with laws, which `ArchiveCodec` shows can be met; NaN, the infinities and number texts beyond integers and finite doubles are not modelled. Line framing, record grouping, checksums and validation are.
- ISO year and week numbers in retention: a week is a Monday-aligned floor division of the day, which separates the same weeks.
- `assess_rpo`, manifest digests, restore drills, pin deadlines: computed values or I/O.
- Display names, audit events, listings and tenant routes of the control plane: they carry no authority.
- External channel ids that are decimal digits outside ASCII: only ASCII digits are accepted.
- `auth.py`'s own in-memory token store: the control store's token dictionary, which adds the authority checks, is modelled instead.
- Rejection of blank idempotency keys, and heartbeats, of provisioning jobs.
- Two workers sharing one id: fencing is by worker id, so each id runs one job at a time.
- Claiming sorts all jobs and takes the first queued one in the program; the model scans for the minimum of the same order.
- The quiescence queries of the backup barrier: the model says that what they read cannot change.
- Barrier inspection and the tenant route record's name checks.
- Derivation checks of decommission resource names and time-zone checks on instants.
- Overlapping cancel calls run the five reactivation checks as one step of DecommissionRace.
- One tenant per governance store: `import_candidate` assumes it, and tenant ids are left off its records.
- The memory graph is modelled as the Neo4j store keeps it, with a look and a write that are two steps; the in-memory store does both in one, and keeps a superseded flag that the Neo4j store works out when it reads.
- Who may erase what, and review of erasure requests: an erasure is accepted for an item that was put, until an erasure of it is applied. Which items a correction supersedes is left to the readers.
- Delivery attempts are not counted: the broker may dead-letter any rejected message.
- The Content-Length header's integer parsing: the parsed values are a parameter.
- ControlRace and OperatorRace: the reads of one call, and its checks on them, are one step.
- DecommissionAlone and ProvisioningAlone compare calls that live to their end; deaths are steps of the races. An activation that raises has no adapter call and is not in ProvisioningRace.
- Windows of retention that change from night to night.
