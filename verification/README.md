# Verification of the session, execution, connection and history logic

This Dafny 4.11 project models the parts of the MCP manager whose correctness depends on many steps fitting
together, and proves what they promise over every run. `dafny verify dfyconfig.toml` checks all of it.

## The four components

**Sessions.** `AuthProtocol` is the refresh-token protocol as a state machine: any number of logins, refreshes,
logouts, token checks, password changes and user updates, where one repository call or transaction is one atomic step,
any request may come between two steps of another, time passes, and any request may end with a storage error. The row
updates themselves are in `AuthRepositories.dfy` (module `RowUpdates`) and shared by everything else. `AuthInvariants`
and `AuthSteps` hold the invariant and its preservation, `AuthTheorems` and `AuthSingleUse` the results.
`AuthOperations` describes each operation run on its own, with the version cache and the session-status cache;
`AuthAlone` shows that a login, refresh, token check, logout, password change or user update left alone in the protocol
does just that (deleting and creating a user are one step in both); `AuthServices` gives the repositories, stores
and services as objects proved against it; `AuthCoherence` shows that the caches change no decision about a user that
has not been deleted. `AuthEffects` and `AuthTrails` say in terms of the rows alone what an operation, and a whole request
of an interleaved run, must have met and what it leaves.

**Execution.** `BackgroundQueue` is the draining queue with its sinks, `RateLimit` the fixed-window limiter,
`Execution` the machine of task workers, synchronous callers, the shared semaphore, the history queue and cleanup, with
its invariants, steps and theorems in the modules of those names. `ExecutionPlans` finds the exact order that cleanup
needs, `ExecutionProgress` shows that it never gets stuck, and `ExecutionOutcomes` follows the status of a finished task
back to its call, its record or its context. `TaskManager` has the semaphore and the task manager
as objects, `TaskManagerRefines` relates the worker to the machine, and `Bootstrap` builds and reverses the cleanup list.

**Connections.** `McpConnect` is how one connection is made, falling back and switching over included; `McpManager` the
manager as an object over aliased handles; `McpRuns` and `McpTheorems` the calls that run outside the manager's lock
while connections are replaced; `McpInitialize` the making of a connection stage by stage, with events of its clients in
between, and what ties the objects and `McpRuns` together; `McpHealth` the run-time state and the health checker.

**History bodies.** `Json` is the grammar of RFC 8259 (sections 2 to 7) with the fact that an object's text has no
JSON text among its proper prefixes; `Sanitize` masks and cuts bodies, and relies on it.

Identifiers, password digests and refresh-token digests are numbers of which only equality matters. Signed tokens are
their claims, and no claims but minted ones are ever presented. New identifiers, the clock, answers of remote
servers, database failures, serializers and hash functions are parameters or free choices of a step.

## What turned out not to hold

* A terminal task status is not absorbing: a task cancelled between the worker's two looks at it is run all the same.
  `ExecutionTheorems.CancelledMayStillRun` is such a run, and `TerminalIsLeftOnlyByBegin` says exactly in which step it
  happens. A cancellation is in time exactly if no worker has looked at the task: `CancelledInTimeNeverRuns`,
  `CancelledTooLateMayRun`.
* A user that is soft-deleted while its version is cached is still let in, since deleting a user bumps no version:
  `AuthCoherence.DeletedUserIsStillLetIn` is such a run. `DecisionAgreesIff` gives the exact condition under which the
  caches let a token in as the database does, and `CheckAgreesUnlessDeleted` the one for the whole verdict.
* They also rely on a positive refresh lifetime: `AuthCoherence.FreshTokenAgreesIffLifetimePositive`.
* A failed probe below the threshold sets the status back to connected even if the transport has reported the
  connection lost: `McpHealth.LostConnectionComesBack` is such a case, and `StatusIsExact` gives the exact status after
  any events.
* A connection lost while it is still being initialized is reported as connected all the same:
  `McpInitialize.LostButServed` is such a run. `LossIsSeenIffAfterWrite` gives the exact order of events: the loss shows
  if and only if the active client reports it after the final state has been written.
* A service dropped between the listing of the names and its ping is reported with a first failure, whatever count it had.
* A session that is found lost by the tool listing that replaces an unsupported ping is counted as one failed probe in
  the report for the service record, because its error is passed on as text (`McpHealth.Checker.CheckOne`).

## Model

| member | source | states |
|---|---|---|
| AuthTheorems.AcceptedTokenWasTrue | internal/service/auth_state_manager.go:34-56 | in every interleaving a served access token had, when its version was read, an existing active user with exactly the claimed name, role and version, and at a later moment a live session of that user and version |
| AuthTheorems.StaleVersionIsDead | internal/repository/user_repository.go:203-212 | once a user's version has moved past v, no later check accepts v, for an access or a refresh token |
| AuthTheorems.StaleTokenIsNeverServed | internal/service/auth_state_manager.go:38-44 | a request started after a bump is never served with an older token, whenever that token was minted |
| AuthTheorems.StaleSessionIsNeverRefreshed | internal/service/auth_service.go:190-192 | a refresh started after a bump never gets a pair for a session of an older version, even one stored after the bump |
| AuthTheorems.FamilyIsOneChain | internal/repository/auth_session_repository.go:57-80 | the sessions of a family form one replaced-by chain from the login session, of one user, and only its last element can be active |
| AuthTheorems.AtMostOneActive | internal/service/auth_service.go:204-216 | a family never has two active sessions |
| AuthTheorems.LinksAreSetOnce | internal/repository/auth_session_repository.go:60-66 | a replaced-by link never changes once it is set |
| AuthTheorems.LinksAreInjective | internal/service/auth_service.go:194-216 | no session replaces two others |
| AuthTheorems.AtMostOnePair | internal/service/auth_service.go:216-248 | over all runs a refresh token yields at most one new pair |
| AuthSingleUse.ExactlyOnePair | internal/service/auth_service.go:154-248 | of any refreshes racing with one unused token, run to the end undisturbed: if one of them looked the session up before it expired, whatever time went by then, exactly one gets a pair and every other one is rejected; if none did, all are rejected |
| AuthSingleUse.ExactlyOnePairWhileUsable | internal/service/auth_service.go:154-248 | so of any positive number of them, while the session has not expired, exactly one gets a pair |
| AuthTheorems.StatusNeverGoesBack | internal/repository/auth_session_repository.go:82-125 | a session only moves forward through active, rotated, revoked |
| AuthTheorems.VersionCountsItsCauses | internal/service/auth_service.go:167-178 | a version is one plus the burnt sessions, password changes and security updates of its user; each burnt session is the user's, revoked, and counted once |
| AuthTheorems.ReplayOfRevokedChangesNothing | internal/service/auth_service.go:179-181 | presenting a token whose session is revoked already changes nothing |
| AuthSteps.RunInvariant | internal/service/auth_service.go:58-281 | the protocol's invariant holds in every state of every run |
| AuthSteps.RunEvolves | internal/repository/auth_session_repository.go:33-125 | between any two states of a run, versions grow, statuses advance, links and identities stay |
| AuthAlone.RefreshAlone | internal/service/auth_service.go:154-248 | a refresh that runs alone in the protocol leaves the rows and gives the answer of the whole operation |
| AuthAlone.LoginAlone | internal/service/auth_service.go:58-115 | so does a login |
| AuthAlone.PasswordAlone | internal/service/auth_service.go:251-281 | so does a password change |
| AuthAlone.CheckAlone | internal/service/auth_state_manager.go:34-56 | a token check that runs alone in the protocol serves the request exactly if the check against the database accepts the token |
| AuthAlone.LogoutAlone | internal/service/auth_service.go:118-151 | a logout, with or without each of its tokens, leaves the rows of the whole operation |
| AuthAlone.UpdateAlone | internal/service/user_service.go:105-154 | so does a user update, in one step or, if it ends the user's sessions, two |
| AuthAlone.SessionsAreNamed | internal/service/auth_service.go:73-85 | no session of any run has the empty identifier |
| AuthEffects.LoginNeedsThePassword | internal/service/auth_service.go:58-72 | a login is rejected if and only if there is no active user with that password, and issues a pair if and only if it is not rejected and its identifiers are new |
| AuthEffects.LoginByName | internal/service/auth_service.go:58-72 | so, user names being distinct, whoever knows the name and password of an active user gets in, and nobody else |
| AuthEffects.LoginOpens | internal/service/auth_service.go:73-115 | the pair tells the truth about its user, one active session with the full lifetime is added, and the caches know of it |
| AuthEffects.CheckAcceptsIff | internal/service/auth_state_manager.go:34-56 | a token is accepted by the database if and only if its user exists at its version and its session is active and within both expiries |
| AuthEffects.FreshTokenIsAccepted | internal/service/auth_service.go:73-98 | the token a login issues is accepted exactly until its session expires |
| AuthEffects.CheckFillsCaches | internal/service/auth_state_manager.go:134-166 | an accepted check leaves the version and the live status it has read in the caches |
| AuthEffects.RefreshNeedsAUsableSession | internal/service/auth_service.go:154-192 | a refresh gets a pair only for an active, unexpired session of an active user at its version, and any other token but a rotated one is rejected without a trace |
| AuthEffects.RefreshRotates | internal/service/auth_service.go:194-248 | the presented session becomes rotated and linked, and one new active session of the same user and family is added |
| AuthEffects.RotationEffects | internal/repository/auth_session_repository.go:57-80 | a rotation is lost if and only if the session is not active with the digest that was read, and nothing is written unless it is done |
| AuthEffects.ReuseEndsEverything | internal/service/auth_service.go:167-178 | presenting a rotated token is rejected, revokes its session, bumps the version and ends every session of the user, in the caches too |
| AuthEffects.PasswordIsStored | internal/service/auth_service.go:251-281 | a password change needs the old password, stores the new one, bumps the version and ends every session of the user |
| AuthEffects.NewPasswordWorks | internal/repository/user_repository.go:157-167 | after it a login with the new password is not rejected and one with the old password is |
| AuthEffects.UpdateStoresWhatIsAsked | internal/service/user_service.go:105-154 | an update stores every requested field and keeps the others; the version moves and every session ends if and only if the role differs or an active user is switched off |
| AuthEffects.DeletedUserIsOut | internal/service/user_service.go:157-169 | no token, refresh token or login of a deleted user is accepted by the database |
| AuthEffects.LogoutRevokes | internal/service/auth_service.go:118-151 | a logout revokes exactly the session of an accepted access token and that of the refresh token, in rows and caches |
| AuthTrails.ReuseIsAnswered | internal/service/auth_service.go:167-178 | in every interleaving a request that looks up a rotated session, or loses the rotation and then reads it as rotated, ends rejected with the session revoked, or in a storage error; if it revoked the session itself, the user's version has moved and no session the user had is active |
| AuthTrails.FirstToMarkBurns | internal/repository/auth_session_repository.go:82-95 | of the requests answering one reuse, the one that comes to the rotated session revokes it |
| AuthTrails.LoginMetThePassword | internal/service/auth_service.go:58-98 | in every interleaving a login that ends with a pair has met an existing active user of that name with that password, who owns the session |
| AuthTrails.LoginIsTurnedAway | internal/service/auth_service.go:59-72 | in every run a login is turned away at its lookup if and only if no active user has that name and password at that moment |
| AuthTrails.RefreshIsSorted | internal/service/auth_service.go:154-192 | what the lookup of a refresh leads to: rejection, the answer to reuse, or the check of the user |
| AuthTrails.UpdateStores | internal/service/user_service.go:105-154 | in every run an update is refused without a trace or stores every requested field, with the version moved exactly when sessions have to end |
| AuthTrails.UpdateEndsSessions | internal/service/user_service.go:128-145 | in every interleaving an update that changed the role or switched the user off has, once it has completed, ended every session the user had |
| AuthTrails.CreatingStores | internal/service/user_service.go:69-104 | a new user is active, at version one, and has to change the password |
| AuthTrails.DeletingMarks | internal/service/user_service.go:157-169 | a deleted user stays as a marked row, and nothing else changes |
| AuthCoherence.DecisionAgreesIff | internal/service/auth_state_manager.go:134-166 | with coherent caches a token is let in as against the database alone if and only if it is not one whose user was soft-deleted while cached and that would otherwise still be good |
| AuthCoherence.CheckAgreesUnlessDeleted | internal/service/auth_state_manager.go:134-166 | the same for the verdict with its reason: the two verdicts are equal if and only if the user is not soft-deleted while cached |
| AuthCoherence.DeletedUserIsStillLetIn | internal/service/user_service.go:157-169 | a run of a login and a deletion after which the caches still accept the token of the deleted user |
| AuthCoherence.DoesCoherent | internal/service/auth_state_store.go:175-186 | every operation keeps the caches coherent: an active entry dies with its session at the latest, any other live entry is about an unusable session |
| AuthCoherence.CachesNeverChangeAVerdict | internal/service/auth_state_manager.go:34-56 | at every time in every run of operations, validation through the caches decides as validation against the database |
| AuthCoherence.SameRowsWithoutCaches | internal/service/auth_service.go:235-239 | an operation writes the same rows and answers the same with and without caches |
| AuthCoherence.FreshTokenAgreesIffLifetimePositive | internal/service/auth_state_store.go:143-153 | a token just issued is judged alike with and without caches if and only if the refresh lifetime is positive |
| AuthServices.AuthService.Refresh | internal/service/auth_service.go:154-248 | the method changes rows and caches exactly as the operation does, on every branch |
| AuthServices.AuthService.Login | internal/service/auth_service.go:58-115 | likewise |
| AuthServices.AuthService.Logout | internal/service/auth_service.go:118-151 | likewise, for each combination of access and refresh token |
| AuthServices.AuthService.ChangePassword | internal/service/auth_service.go:251-281 | likewise |
| AuthServices.UserService.Update | internal/service/user_service.go:105-154 | the edit is refused, saved, or saved with a bump and every session revoked, exactly when role or activity call for it |
| AuthServices.UserService.Delete | internal/service/user_service.go:157-169 | a user is soft-deleted, but never by itself |
| AuthServices.AuthStateManager.ValidateAccessToken | internal/service/auth_state_manager.go:34-56 | the verdict and what is filled into the caches |
| AuthServices.AuthStateManager.RevokeForUser | internal/service/auth_state_manager.go:77-93 | every active session of the user is revoked and cached as revoked, nothing else changes |
| AuthServices.AuthSessionRepository.RotateSession | internal/repository/auth_session_repository.go:57-80 | the conditional update and the insert take effect together or not at all |
| BackgroundQueue.RunInv | internal/service/async_queue.go:56-85 | every accepted job is waiting, with one worker, or run, and pending plus uncounted submissions equals waiting plus running |
| BackgroundQueue.RunsAtMostOnce | internal/service/async_queue.go:56-68 | no job runs a second time |
| BackgroundQueue.ClosedAcceptsNothing | internal/service/async_queue.go:75-77 | nothing is accepted after Stop |
| BackgroundQueue.DrainedIsComplete | internal/service/async_queue.go:88-98 | when Stop returns, exactly the jobs accepted before it have run, errors equals the failed runs, and pending is owed only by submitters that have not counted yet |
| BackgroundQueue.RecordedExactlyOnce | internal/service/async_sinks.go:20-36 | after the drain every recorded item has reached the next sink exactly once, by the queue or by its recorder |
| BackgroundQueue.AsyncQueue.Submit | internal/service/async_queue.go:71-85 | what a submission answers and changes |
| BackgroundQueue.AsyncQueue.Work | internal/service/async_queue.go:56-68 | the worker loop runs the waiting jobs in order and counts exactly the failures |
| BackgroundQueue.FailuresAreCounted | internal/service/async_queue.go:60-64 | the failures counted are as many as there are jobs that fail |
| BackgroundQueue.AsyncQueue.Stop | internal/service/async_queue.go:88-98 | only the first stop closes and drains |
| BackgroundQueue.AsyncSink.Record | internal/service/history_sink.go:41-57 | an item is queued or handed on at once, never both, never neither |
| RateLimit.BucketStore.Ask | internal/service/invoke_control.go:133-156 | a key without a name or a limit is let through uncounted; any other is counted in its open window or a new one, and let through if the count fits |
| RateLimit.InvokeController.Allow | internal/service/invoke_control.go:116-131 | the service is asked first, the user only if it agreed, and both buckets are left as specified |
| RateLimit.BucketIsLog | internal/service/invoke_control.go:137-142 | after any charges a bucket holds when its window opened and how many charges fell into it |
| RateLimit.BucketsAreLogs | internal/service/invoke_control.go:116-131 | every bucket is the replay of its own charges only: a refusal by the service is never charged to the user, one by the user is still charged to the service |
| RateLimit.DecisionReadsLog | internal/service/invoke_control.go:143-155 | a charged key agrees if and only if its charges since the window start, this one included, fit the limit |
| RateLimit.GrantedBound | internal/service/invoke_control.go:133-156 | for any non-decreasing clock a key is granted at most (k+1) limits in any half-open interval of k windows |
| RateLimit.AllowedBound | internal/service/invoke_control.go:116-156 | of all requests that name a limited service, and likewise a limited user, at most (k+1) limits are allowed in any half-open interval of k windows |
| RateLimit.ServiceRefusesIff | internal/service/invoke_control.go:116-156 | a service refuses a request if and only if it has a name and a limit and the requests for it since its window opened exceed the limit |
| RateLimit.UserRefusesIff | internal/service/invoke_control.go:116-156 | the same for a user and the requests its services let pass; a request is allowed if and only if neither refuses |
| RateLimit.WindowIsOpen | internal/service/invoke_control.go:137-142 | all charges of an open window lie within one window of its first, which came at least one window after the opening before |
| ExecutionSteps.RunSafe | internal/service/async_task.go:184-246 | the machine's invariant holds in every state of every run |
| ExecutionTheorems.EveryTaskInOnePlace | internal/service/async_task.go:156-209 | an accepted task is in exactly one of queue, one worker, finished |
| ExecutionTheorems.FinishedIsFinal | internal/service/async_task.go:212-246 | once a worker is done with a task its terminal status never changes |
| ExecutionTheorems.TerminalIsLeftOnlyByBegin | internal/service/async_task.go:191-199 | a terminal status is left if and only if the worker that had found the task pending starts it in this step |
| ExecutionTheorems.CancelledMayStillRun | internal/service/async_task.go:191-199 | a run in which a cancelled task becomes running |
| ExecutionTheorems.CancelledInTimeNeverRuns | internal/service/async_task.go:286-309 | a pending task that no worker has looked at when it is cancelled never calls its tool, leaves no record and stays cancelled |
| ExecutionTheorems.CancelledTooLateMayRun | internal/service/async_task.go:191-199 | that is the exact condition: from every cancellation of a pending task that a worker has looked at, some continuation runs the task |
| ExecutionTheorems.RunningIsBounded | internal/service/async_task.go:184-209 | no more tasks run than there are workers |
| ExecutionTheorems.PermitsAreConserved | internal/service/invoke_control.go:90-113 | the slots in use are exactly the workers and callers between taking and returning one, and never exceed the limit |
| ExecutionTheorems.CalledOnce | internal/service/async_task.go:201-208 | no two steps of a run call the tool for the same task or caller |
| ExecutionTheorems.HandedOnce | internal/service/tool_invoke_service.go:189-216 | no two steps hand over the record of the same task or caller |
| ExecutionOutcomes.StatusTellsTheCall | internal/service/async_task.go:212-246 | in every run a finished task whose tool was called succeeded, failed, was cancelled or timed out if and only if its call and record left no error, an ordinary one, a cancellation or a passed deadline |
| ExecutionOutcomes.StatusTellsTheWait | internal/service/async_task.go:201-205 | a finished task whose tool was not called had been cancelled when its worker came, or gave up waiting and is cancelled or timed out as its context then was |
| ExecutionOutcomes.ContextEndsForAReason | internal/service/async_task.go:130-139 | a context is over only after a cancellation of its task, or after the deadline of a task that has one |
| ExecutionOutcomes.SubmitEffects | internal/service/async_task.go:156-182 | a task is queued as pending if and only if tasks are not stopped and there is room |
| ExecutionOutcomes.CancelEffects | internal/service/async_task.go:286-309 | a pending task is over, a running one is asked to stop, any other stays as it is |
| ExecutionOutcomes.ExpireEffects | internal/service/async_task.go:130-139 | a deadline ends the context of a task that has one and changes no status |
| ExecutionTheorems.AfterCleanup | internal/service/async_task.go:345-372 | after a cleanup plan that closes the database last, every accepted task is terminal and its record has been handed to the sink, while the database was open, if and only if its tool was called |
| ExecutionProgress.CleanupNeverDeadlocks | internal/service/async_task.go:345-372 | every run can be continued until cleanup has gone through its plan, whatever the plan, the limit, the calls under way and the records that wait |
| ExecutionProgress.CleanupCanFinish | internal/bootstrap/app.go:184-189 | with an ordered plan that continuation ends with every task terminal and every record handed to the open database |
| ExecutionTheorems.TaskRecordsAreQueued | internal/service/history_sink.go:41-57 | if tasks stop before the history queue, a task's record never meets a stopped queue and is written at once only when the queue is full |
| ExecutionPlans.UnorderedPlanLosesARecord | internal/bootstrap/app.go:184-189 | for every plan that closes the database before the tasks, or before a history queue that is on, have stopped, there is a run that hands a task's record over too late |
| ExecutionPlans.OrderIsExact | internal/bootstrap/app.go:184-189 | with the history queue on or off, a plan that closes the database hands no task's record over too late in any run if and only if it is ordered |
| Bootstrap.Build | internal/bootstrap/app.go:184-301 | the list holds exactly what the configuration needs, once each, in the order of registration |
| Bootstrap.Cleanup | internal/bootstrap/app.go:185-189 | cleanup runs the list backwards |
| Bootstrap.EveryPlanIsOrdered | internal/bootstrap/app.go:258-290 | every configuration stops tasks before history and closes the database after both |
| Bootstrap.CleanupLosesNothing | internal/bootstrap/app.go:184-189 | so after cleanup, in every configuration, every task is terminal and no record is lost |
| Bootstrap.CleanupCanReturn | internal/bootstrap/app.go:184-189 | and in every configuration cleanup can always return, with that result |
| Bootstrap.CleanupStopsTasksInTime | internal/bootstrap/app.go:258-290 | and until then no task's record is turned away by a stopped queue |
| TaskManager.Semaphore.Acquire | internal/service/invoke_control.go:90-100 | a caller is refused exactly when every slot is in use |
| TaskManager.Semaphore.WaitAcquire | internal/service/invoke_control.go:103-113 | a slot or the context's error, and only what is there |
| TaskManager.Manager.Submit | internal/service/async_task.go:156-182 | a task is accepted, or leaves no trace |
| TaskManager.Manager.Cancel | internal/service/async_task.go:286-309 | a pending task ends, a running one is asked to stop, a terminal one stays |
| TaskManager.Manager.WorkOne | internal/service/async_task.go:184-246 | one turn of a worker, which leaves the semaphore as it found it on every path and ends the task with the status that tells of its outcome |
| TaskManager.Manager.Count | internal/service/async_task.go:311-343 | each of the six counters is the number of tasks with its status, and together they are the number of tasks |
| TaskManagerRefines.WorksAlone | internal/service/async_task.go:184-210 | whenever WorkOne can be called, a worker alone in the machine skips, calls or gives up in the same cases, with the same effect on tasks and permits |
| McpConnect.ManagedClient.Initialize | internal/mcpclient/managed_client.go:157-239 | when the declared or the fallback connection serves, why neither does, and that only the active client is left open |
| McpConnect.NewManagedClient | internal/mcpclient/managed_client.go:92-121 | when it fails and why, how many clients it builds, and that on success exactly the active one is open and on failure none |
| McpInitialize.MakeNamed | internal/mcpclient/managed_client.go:92-121 | the clients it builds and leaves open are exactly those of one connection attempt in McpRuns, and it serves over the same one |
| McpInitialize.InitializeIsConnect | internal/mcpclient/managed_client.go:157-239 | so are those of initialization taken stage by stage, whatever events of its clients come in between |
| McpInitialize.SwitchedOffIsIgnored | internal/mcpclient/managed_client.go:196-204 | from the moment the declared connection loses its place to the fallback, before it is closed and ever after, its late events change nothing |
| McpInitialize.FailedSwitchLeavesNothingOpen | internal/mcpclient/managed_client.go:199-203 | a switch-over that cannot close the declared connection leaves neither client open |
| McpInitialize.LossIsSeenIffAfterWrite | internal/mcpclient/managed_client.go:214-233 | over any run of stages and events, a connection that serves is in error if and only if the active client reported it lost at some event after the final write |
| McpInitialize.LostButServed | internal/mcpclient/managed_client.go:214-233 | a run in which a connection lost during initialization is served as connected |
| McpConnect.ValidateSession | internal/mcpclient/session_mode.go:28-46 | a connection is refused exactly when it violates the session policy |
| McpConnect.ServesByPolicy | internal/mcpclient/managed_client.go:157-239 | under each session policy, which answers make the declared connection serve and which the fallback |
| McpConnect.RefusalTells | internal/mcpclient/managed_client.go:157-239 | the error of a failed attempt is that of the first thing that went wrong |
| McpManager.Manager.Connect | internal/mcpclient/manager.go:26-40 | the old entry is closed and dropped even if the new connection fails, and no client leaks |
| McpManager.Manager.Disconnect | internal/mcpclient/manager.go:43-55 | when an entry goes, and that it stays, closed, if closing fails |
| McpManager.Manager.HandleClientError | internal/mcpclient/manager.go:139-156 | a call failing on any old handle closes and drops the entry only if it is still that handle's |
| McpTheorems.NoConnectionLeaks | internal/mcpclient/manager.go:26-55 | in every run of attempts, replacements, calls and failures a client that was built and never closed is the active client of an entry; what an attempt closes itself is McpInitialize's |
| McpTheorems.OpenIsBounded | internal/mcpclient/manager.go:26-55 | there are never more open clients than entries |
| McpTheorems.ConnectionStays | internal/mcpclient/managed_client.go:293-315 | a handle that can be fetched never changes its connection, and what is closed stays closed |
| McpTheorems.LateEventsAreIgnored | internal/mcpclient/managed_client.go:256-281 | once a handle can be fetched, events of any client but its own change nothing, whenever they come |
| McpTheorems.OldHandleIsHarmless | internal/mcpclient/manager.go:69-156 | no stage of a call on an older handle touches the entry's newer handle, its connection or its state |
| McpTheorems.EntryChangesOnlyBy | internal/mcpclient/manager.go:26-55 | an entry changes only by connecting or disconnecting its service or by a lost session on its own handle |
| McpTheorems.ConnectLeaves | internal/mcpclient/manager.go:26-40 | in every run a connection that serves becomes the entry, open and idle, one that does not leaves none, the former connection is closed, and no other entry is touched |
| McpTheorems.DisconnectLeaves | internal/mcpclient/manager.go:43-55 | in every run disconnecting closes the connection, and drops the entry unless closing has answered with an error |
| McpTheorems.CallEndsAsItReturned | internal/mcpclient/managed_client.go:323-354 | what each result of a call leaves in the run-time state, and that a lost session goes on to be dropped |
| McpTheorems.LostSessionIsDropped | internal/mcpclient/manager.go:139-156 | in every run a lost session closes and drops the entry if and only if the handle is still the entry's own |
| McpTheorems.InFlightIsExact | internal/mcpclient/managed_client.go:357-372 | a handle's count is the number of business calls between begin and end on it |
| McpTheorems.GuardIsNeverNeeded | internal/mcpclient/managed_client.go:368-370 | the count is positive whenever an interaction ends |
| McpHealth.Checker.CheckOne | internal/mcpclient/health_checker.go:67-100 | what one probe does to the client and reports, one of a service dropped in the meantime included |
| McpHealth.Checker.MarkFailure | internal/mcpclient/health_checker.go:122-138 | a lost session is reported as an error at once, any other failure from the threshold on |
| McpHealth.Client.Finish | internal/mcpclient/managed_client.go:323-354 | what a success, a failure and a lost session leave behind |
| McpHealth.LostConnectionComesBack | internal/mcpclient/health_checker.go:122-130 | a connection reported lost is connected again after one failed ping of two allowed |
| McpHealth.StatusIsExact | internal/mcpclient/health_checker.go:112-138 | over any events after a success the failure count is the number of failed probes since the last success, and the status is error exactly from the threshold on or after a loss of connection or session that no probe or successful call has followed |
| McpHealth.SessionLossIsAtOnce | internal/mcpclient/manager.go:138-156 | over any events, a lost session is an error at once and stays one, whatever is probed or fails then, until a call still under way succeeds |
| McpHealth.ErrorComesAtTheThreshold | internal/mcpclient/health_checker.go:122-130 | the first move to error by counting is made by exactly the threshold-th failed probe in a row |
| McpHealth.EventEffects | internal/mcpclient/managed_client.go:256-281 | every field of the run-time state after each kind of event |
| McpHealth.FlagsAreExact | internal/mcpclient/managed_client.go:323-354 | over any events, a session is there until it was lost, and an error is on record if and only if the last event but notifications was no success |
| Json.NoPrefixOfAnObject | internal/service/tool_invoke_service.go:261-262 | no proper prefix of the text of a JSON object is a JSON text |
| Json.ValueIsLevel | internal/service/tool_invoke_service.go:252-252 | the text of any value ends a scan at the depth where it began and never goes below it |
| Json.ANumberMayBeginAnother | internal/service/tool_invoke_service.go:261-262 | the fact is one about objects: some numbers have numbers as prefixes |
| Json.AnObjectIsAText | internal/service/tool_invoke_service.go:252-252 | a concrete object text is a JSON text |
| Sanitize.DeepSanitize | internal/service/tool_invoke_service.go:270-284 | the loop over the keys, in any order, computes the mask of the body |
| Sanitize.SecretKeys | internal/service/tool_invoke_service.go:274-275 | a key is secret if and only if it spells one of three words, or contains a fourth, in any mixture of cases |
| Sanitize.OpenPathsAreKept | internal/service/tool_invoke_service.go:277-280 | a path without a secret key leads where it did, to the masked form of what was there |
| Sanitize.SecretPathsAreMasked | internal/service/tool_invoke_service.go:275-276 | a path through a secret key leads to the mask if it existed and ends there, and nowhere otherwise |
| Sanitize.UnchangedIffNothingSecret | internal/service/tool_invoke_service.go:270-284 | masking changes nothing if and only if nothing secret is left |
| Sanitize.MaskingTwiceIsMaskingOnce | internal/service/tool_invoke_service.go:270-284 | masking is idempotent |
| Sanitize.SanitizeMap | internal/service/tool_invoke_service.go:247-267 | a body within the limit is stored masked, an oversized one always as exactly the truncation marker, with size and digest of the whole masked body |

## Left out

* A user update is one atomic step. In the code the branch without a bump writes back the whole row it read, so that it can overwrite a concurrent bump.
* The caches are modelled with each operation atomic and cache writes succeeding; a cache write ordered after a newer bump, and failures of the cache server, are not.
* Storage errors in the middle of a whole operation occur in the protocol but not in `AuthOperations`.
* `passwordChanges` and `securityUpdates` count successful bumps; what an audit log records is not modelled.
* Login and user rows leave out display fields, client addresses and the last-login time.
* The access-token blacklist and the expiry of access tokens are not modelled: they only reject more.
* Token versions and counters are unbounded integers; the 64-bit wrap-around of the database column is not reached in practice and not modelled.
* Password hashing, token signing, digests and UUIDs are taken as unforgeable, injective and fresh.
* `AsyncQueue.Submit` reads the closed flag and sends in one step, and so does the task manager's `submit` with its lock and its send.
* A nil job, a nil queue, a nil manager or a nil sink is not modelled.
* Tasks are not removed from the manager in the code either; their results, times, error messages and displayed queue figures are left out.
* Who may see or cancel a task is a parameter of `TaskManager.Manager.Cancel`.
* Stop is called once per queue and with a background context, as cleanup does; a stop that gives up waiting is not modelled.
* Failures while the application is being assembled run a cleanup list that holds only the database; they come before any task and are not modelled.
* A record that is handed to the database sink may still fail there; what is proved is that it is handed over.
* Loading the tool and its service, and mapping errors to responses, come before and after what is modelled.
* Connections: the protocol version, the capability snapshot, headers and error texts are left out; closing a client always takes effect, whatever it answers.
* Whether Close is called only once per low-level client is not claimed: a failed switch-over closes the primary twice.
* The agreement between the service status in the database and the live clients is not an invariant of the code and not modelled.
* A service dropped between an unsupported ping and the tool listing that replaces it is not modelled.
* Health checks of several services in parallel are modelled one client at a time; `McpRuns` lets a probe of an old handle set the state of a newer one, as the code does.
* Masking does not look into lists, in the code and in the model.
* Bodies are read and written by any serializer that writes maps as JSON objects and any reader that reads JSON texts only; a body that cannot be serialized is not modelled.
* Pagination, export, e-mail, alert silencing, configuration, migrations, routing and the remote-procedure layer are plumbing.
