# A model of the notebook execution platform

The project models the stateful core of the backend and proves what it keeps over
every input and every interleaving. `dafny verify dfyconfig.toml` checks all of it.

**Execution.** `SessionProtocol` is one session with its runtime and its worker
process as a labelled transition system: the session lock and its waiters, the
verifications and installations that use the runtime without the lock, the pipe in both
directions, the worker's namespace, and the threads that a cancelled caller leaves
behind. A label is the code between two suspension points, so a sequence of
labels is one interleaving. User code is an arbitrary function of the namespace, and
the environment chooses which calls time out. `ExecutionSession` is the same as an
object changed in place. `SessionHealth` says what a run's labels make of the statuses,
and what every call returns. `SessionSerial` compares the system with a serial machine
that has no pipe, lock or suspension. `ExecutionManager` is the race of
`submit_execution` and `cancel_execution` on one task, `SessionLifecycle` the fleet of
sessions and worker processes with the sweeps that terminate it, `PythonWorker` the
worker's two loops.

**Jobs.** `CronFields` and `CronSchedule` are the cron pattern, its grammar, a scanner
and the calculation of the next run. `JobStore` holds the tables and a database session
with commit and rollback, `JobManager` the requests, `JobScheduler` one tick, `JobEffects`
what each of them comes to column by column, `JobRuns` whole runs of requests and ticks.

**Dependencies.** `Regex` gives patterns their language. `PackageNames`,
`VersionSpecifiers` and `Requirements` are the validator, its printer and the worker's
own parser, `Pep440` compares the accepted specifiers with the standard; `Resolver` is
the loop over declared packages; `DependencyLifecycle` drives an operation through its
statuses while cancellations race with it.

**Output.** `Output` makes, numbers and truncates events, `OutputStore` stores and lists
them, `Publisher` streams them to subscribers.

## Where the code differs from what one would expect

- A caller can be handed another cell's reply, because messages are not matched by
  `request_id`. `TakesOldestUnread` says exactly whose reply a caller gets,
  `ResponseIntegrity` gives the condition under which it is always its own, and
  `StaleReply` with `StaleReplyReachable` is the run in which a cell waiting on the lock
  ahead of a cancellation's reset receives the cancelled cell's reply. A package
  verification, which takes no lock, can receive a running cell's reply without any
  cancellation (`VisitorTakesReply`).
- A task that shows CANCELLED can still become SUCCEEDED, FAILED or TIMED_OUT: the
  cancellation can return while the submission has its reply but has not resumed
  (`CancelledThenSucceeded`). `TerminalChanges` and `OnlyCancelOverwrites` say exactly
  when; what a cancellation finds at its test of the inner task decides whether it can
  happen at all (`CancelOfPending`, `CancelOfDone`).
- A cell that arrives while a reset restarts the worker marks the session FAILED although
  the reset succeeds (`ArrivalDuringReset`); `ResetKeepsActive` gives the exact condition.
- A session can be STOPPED with a live worker when its unlocked `stop` overlaps a `reset`
  (`StoppedButAlive`); `StopLeaves` says exactly when.
- A stop of a runtime waits once more after it has terminated the process, and a reset may
  start a new one in that time. The end of the stop then closes the pipe of the new
  process and writes TERMINATED over it (`WorkerCutOff`, from every such state: `LateEnd`).
  No stop ends this worker any more, and a sweep passes it by; `NoStrayWorkers` has the
  exact condition.
- `terminate_all_sessions` can lose a worker: it forgets a runtime whose reset is under
  way, and the reset then starts a process that no registry knows (`LostInReset`); so can
  a session object that is still ACTIVE after its identifier was given to another one;
  and a worker that was cut off by the late end of a stop is skipped and forgotten.
  `RegistryExact` says exactly when emptying the registry is safe, `AfterTermination`
  exactly which workers can live afterwards, and `SweepLeavesNone` when none is left.
- The worker does not recover the package name from a requirement whose specifier begins
  with `~=` (`RoundTrip`); the specifier pattern's `!=` can never be reached
  (`GrammarOfAccepted`); an occurrence without a specifier hides a conflict (`PinLost`).
- An operation can have `completed_at` set and be open (`CompletedButOpen`, exactly when:
  `CompletedExactly`), and a cancellation between two steps is overwritten
  (`CancelIsOverwritten`). The installation only flushes its writes, so both need a
  cancellation in the same database session; from another one the record is not visible
  before the commit, and there is nothing to cancel.
- `create_job` compares the schedule type with its case and stores it upper-cased, so
  "cron" skips validation (`LowerCaseCron`). A minute field such as `*/0` makes the
  fallback stand still (`ZeroStepStandsStill`), so such a job stays due after a tick that
  commits (`DueAgain`).
- A job that is updated from "CRON" to another type keeps the next run of the schedule it
  gave up, so from then on it is due at every tick (`AbandonedStaysDue`).
- With a manager for each request no job execution ever leaves RUNNING (`NothingEnds`), so
  a job with PREVENT_OVERLAP runs at most once, ever (`OneExecutionEver`); and two
  triggers that overlap in time both run (`OverlapReachable`).
- A result that is truncated can be longer than the text it was made from: a text whose
  characters fit keeps all of them and gets the marker (`TruncationMeans`). Events stored
  under a reused identifier come back in an order that is not determined
  (`ReusedIdentifier`).

## Model

| member | source | states |
|---|---|---|
| SessionProtocol.CallsApartStep | app/execution/session/session.py:51-101 | every step of every interleaving keeps each call in one place: waiting, holding the lock, using the runtime without it, or finished; and no call finishes twice |
| SessionProtocol.InOrderStep | app/runtime/python_worker.py:60-112 | every step keeps the two pipe queues equal to the unanswered and the unread part of what was sent, in order, each message carrying the answer to its own request |
| SessionProtocol.SendersKnownStep | app/runtime/python_runtime.py:78-109 | every step keeps each request sent at most once, by a caller that awaits its reply or has given up |
| SessionProtocol.SoundRun | app/execution/session/session.py:51-101 | the three invariants together, over every run |
| SessionProtocol.TakesOldestUnread | app/runtime/python_runtime.py:87-104 | in every run any caller that takes the next message gets the answer to the oldest unread request, so its own exactly when everything sent before was read |
| SessionProtocol.OneAtATimeStep | app/runtime/python_runtime.py:78-178 | a step of such an orderly run keeps at most one caller awaiting a reply, and its reply next on the pipe |
| SessionProtocol.ResponseIntegrity | app/runtime/python_runtime.py:78-178 | in every run that sends one request at a time and restarts the worker between an abandoned request (cancelled, timed out, or its worker found dead) and the next send, every reply went to the call that asked |
| SessionProtocol.StaleReply | app/execution/manager.py:118-124 | from every state with a cell awaited and another caller next at the lock, cancelling the first hands its reply to the second |
| SessionProtocol.VisitorTakesReply | app/runtime/python_runtime.py:147-173 | from every state with a cell awaited, a verification can take the cell's reply |
| SessionProtocol.StaleReplyReachable | app/execution/session/session.py:73-75 | two cells and the reset of a cancellation reach that state, the reset queued third |
| SessionProtocol.ResetKeepsActive | app/execution/session/session.py:63-101 | in every run, a reset that takes its turn under an ACTIVE session and succeeds leaves it ACTIVE exactly if no cell arrived since it got the lock |
| SessionHealth.StatusesTold | app/runtime/python_runtime.py:69-178 | in every run the process is there exactly until it dies, its work kills it or it is terminated; the runtime is RUNNING exactly unless a caller found the process dead, a cell or an installation timed out, a restart failed, or a reset is restarting it; the session is FAILED exactly once a cell has met one of these |
| SessionHealth.Admission | app/execution/session/session.py:59-71 | in every run a cell is let in exactly if the session has not failed and the runtime is up, a verification or an installation exactly if the runtime is up, and the others are told why |
| SessionHealth.RefusedWhileDown | app/runtime/python_runtime.py:93-145 | over every continuation without a restart of the timeout of a cell or an installation, or of a caller that found the process dead: no process is there, and every cell, waiting or new, and every verification and installation is refused |
| SessionHealth.GivingUp | app/runtime/python_runtime.py:93-178 | a timeout or a dead process ends one call and leaves the others, the pipe and the namespace; the timeout of a verification changes neither process nor statuses |
| SessionHealth.ReturnsTold | app/runtime/python_runtime.py:69-178 | which calls finish at each label, and what they return |
| SessionHealth.SenderOutlives | app/runtime/python_runtime.py:87-88 | a request whose sender is cancelled still reaches the worker, behind what was sent since |
| SessionHealth.ReceiverOutlives | app/runtime/python_runtime.py:99-102 | a reception that had begun when its caller is cancelled still takes the next message, which nobody gets |
| ExecutionSession.Session.EnterExecuteCell | app/execution/session/session.py:59-73 | refuses unless the session is ACTIVE and the runtime RUNNING, fails the session in the second case, and otherwise joins the lock's waiters: the label Arrive |
| ExecutionSession.Session.LockedExecuteCell | app/execution/session/session.py:73-91 | with the lock, raises exactly when the runtime is down, and its handler then fails the session: the label Acquire |
| ExecutionSession.Session.EnterVisit | app/runtime/python_runtime.py:111-128 | a verification or installation raises exactly when the runtime is not RUNNING, and takes no lock: the label Visit |
| ExecutionSession.Session.SendRequest | app/runtime/python_runtime.py:78-88 | puts the request on the pipe: the label Send |
| ExecutionSession.Session.ReceiveReply | app/runtime/python_runtime.py:99-102 | returns whatever message is first, whoever it answers: the label Take |
| ExecutionSession.Session.FindProcessDead | app/runtime/python_runtime.py:93-97 | a dead process fails the runtime, and for a cell the session: the label Notice |
| ExecutionSession.Session.TimeOut | app/runtime/python_runtime.py:106-178 | the timeout of a cell or an installation terminates the worker, that of a verification does not: the label Expire |
| ExecutionSession.Session.EnterReset | app/execution/session/session.py:93-95 | a reset queues for the lock without a check |
| ExecutionSession.Session.LockedReset | app/execution/session/session.py:95-99 | refused exactly when the session is not ACTIVE, else the runtime begins to stop |
| ExecutionSession.Session.StartRuntime | app/runtime/python_runtime.py:34-67 | refused over a live process without any change; else a new pipe, and a RUNNING runtime with a fresh namespace, or a FAILED one when the process exits at once |
| ExecutionSession.Session.RestartRuntime | app/execution/session/session.py:99-101 | the old pipe fails those who still use it, then a new worker is started: the label Restart |
| ExecutionSession.Drive | app/runtime/python_runtime.py:78-178 | the object under any sequence of calls is in the state of the protocol's run, and in an orderly one every caller of it gets its own reply |
| SessionSerial.Linearizable | app/execution/session/session.py:51-101 | in every run of cells and resets that abandons no request, every finished call was refused or withdrawn without the lock, or had it exactly once and got the result it gets when the calls run one at a time in that order; between calls session, runtime and namespace are those of the serial run |
| SessionSerial.NamespaceSinceReset | app/runtime/python_worker.py:54-112 | while the runtime is up the namespace is the fold of the cells since the last reset, and right after a reset it is fresh |
| SessionSerial.ArrivalDuringReset | app/execution/session/session.py:63-68 | a run in which a cell that arrives during a successful reset leaves the session FAILED over a running worker |
| PythonWorker.RunWorker | app/runtime/python_worker.py:48-215 | the loop serves what it is asked as the fold over it, one namespace and one reply each, until the stop message, a request that kills the process, or one that its outermost handler answers and ends with |
| PythonWorker.RepliesInOrder | app/runtime/python_worker.py:60-215 | replies come one for each request, in order, each to the request whose id the model records with it (the source sends that id with every reply but that of the outermost handler, lines 206-212); where the worker ended, that request is answered exactly if the outermost handler did it, and those behind it are not |
| PythonWorker.LoopIsServe | app/runtime/python_worker.py:60-112 | the loop on the queued requests is the Serve steps of the session protocol in a row |
| ExecutionManager.InvRun | app/execution/manager.py:76-168 | over every run, what each task's status says about its submission and its cancellation |
| ExecutionManager.ExitedIsCleanedUp | app/execution/manager.py:89-136 | whenever a submission has exited its `_running_tasks` entry is gone, `completed_at` is set and the status is terminal; before that the entry is there; at most one cancellation of it ever passes |
| ExecutionManager.TerminalChanges | app/execution/manager.py:92-168 | in every reachable state terminal statuses are never left, and change exactly when a cancellation writes CANCELLED over another one, or a submission with a reply, an exception or a timeout resumes after a cancellation that returned first |
| ExecutionManager.OnlyCancelOverwrites | app/execution/manager.py:92-168 | a terminal status can only turn into CANCELLED exactly unless a cancellation has returned to a submission that still waits with a reply, an exception or a timeout |
| ExecutionManager.OutlastingCancels | app/execution/manager.py:158-163 | so no CANCELLED is lost in a run whose cancellations never return before their submission has resumed |
| ExecutionManager.CancelOfPending | app/execution/manager.py:154-156 | a cancellation that passes and finds the inner task pending, with no timeout, makes the submission end CANCELLED in every continuation |
| ExecutionManager.CancelOfDone | app/execution/manager.py:154-168 | one that finds it done races with the submission: in every continuation that touches neither otherwise, the task settles on the reply exactly if the cancellation returns first, else on CANCELLED |
| ExecutionManager.SettledStays | app/execution/manager.py:131-168 | once a submission has exited and no cancellation is under way, its task never changes again |
| ExecutionManager.CancelledThenSucceeded | app/execution/manager.py:151-168 | a run in which SUCCEEDED replaces a returned cancellation's CANCELLED |
| ExecutionManager.RefusedIsFailed | app/execution/manager.py:61-75 | in every run, a submission to a session that is not ACTIVE is FAILED ever after, and no cancellation of it passes |
| ExecutionManager.EndsCancelled | app/execution/manager.py:92-156 | in every run an inner task ends cancelled exactly if the timer, an interruption of the submission or a cancellation struck it before |
| ExecutionManager.OutcomeOfRun | app/execution/manager.py:76-168 | over every run, by its labels: what a task shows while its submission waits; after that CANCELLED if a cancellation returned since, else SUCCEEDED for a reply that is ok, FAILED for another reply or an exception, TIMED_OUT for the timer, CANCELLED for an interruption; when a reset follows, and when `completed_at` is set |
| ExecutionManager.UncancelledOutcome | app/execution/manager.py:92-136 | so without a cancellation while it waits, each of the four statuses exactly for its own way of ending |
| ExecutionManager.Manager.BeginSubmit | app/execution/manager.py:50-90 | registers, validates and starts the inner task, or fails the task for a session that is not active |
| ExecutionManager.Manager.ResumeSubmit | app/execution/manager.py:92-130 | the status each way of waking gives, and whether the session is reset first |
| ExecutionManager.Manager.ExitSubmit | app/execution/manager.py:113-136 | the reset in a handler never keeps the submission from cleaning up |
| ExecutionManager.Manager.BeginCancel | app/execution/manager.py:138-161 | passes exactly for QUEUED, VALIDATING and RUNNING, then marks the task and cancels a pending inner task |
| ExecutionManager.Manager.EndCancel | app/execution/manager.py:158-168 | writes CANCELLED and `completed_at`, whatever the status is by then |
| SessionLifecycle.SoundReact | app/execution/session/session.py:93-117 | every event, also of verifications, installations and stops of the runtime alone, each stop with its two waits, keeps what a session's and its runtime's status say about the process |
| SessionLifecycle.InvRun | app/execution/session/manager.py:22-104 | the same over every run, sweeps included |
| SessionLifecycle.CreatedTold | app/execution/session/manager.py:22-45 | a created session is ACTIVE over a running worker and nobody uses it; one whose worker did not start never has a process |
| SessionLifecycle.ProcessChanges | app/runtime/python_runtime.py:34-67 | a process ends by itself, by a timeout, by a stop that waited for it and terminates it once, or by its reset, and only a reset starts one |
| SessionLifecycle.SessionChanges | app/execution/session/session.py:59-117 | which events fail a session, which stop it, and that none makes it ACTIVE again |
| SessionLifecycle.RuntimeChanges | app/runtime/python_runtime.py:34-210 | which events make a runtime RUNNING, TERMINATING, TERMINATED or FAILED |
| SessionLifecycle.CallsChange | app/execution/session/session.py:51-101 | which events take and release the lock, and count verifications and installations |
| SessionLifecycle.RegistriesTold | app/execution/session/manager.py:22-104 | over every run both registries hold exactly what was created since they were last emptied; a failed start is registered as a runtime alone |
| SessionLifecycle.NoStrayWorkers | app/runtime/python_runtime.py:180-210 | in every run a live worker's runtime is RUNNING, or TERMINATING with a stop or reset under way, exactly unless it was started between the kill and the end of a stop of the runtime that has ended since, and then it is TERMINATED; and under a STOPPED session a stop overlapped a reset, another stop still waits, or the worker was cut off so |
| SessionLifecycle.LateEnd | app/runtime/python_runtime.py:194-210 | from every state between the kill and the end of a stop of the runtime, a reset and that end leave a live worker under a TERMINATED runtime, which no stop or reset begun later ends |
| SessionLifecycle.WorkerCutOff | app/runtime/python_runtime.py:194-210 | the concrete run to a live worker under a FAILED session and a TERMINATED runtime with nothing under way, and a sweep leaves it as it is |
| SessionLifecycle.StopLeaves | app/execution/session/session.py:103-117 | over every continuation of a stop of the session up to the next one, STOPPED over a live worker is possible exactly if the stop met a reset under way, or a live worker whose runtime was TERMINATING or TERMINATED, so that it returned early |
| SessionLifecycle.CanLiveExact | app/execution/session/session.py:93-101 | over every continuation of every state, a session object can have a live worker, now or ever again, exactly if it has one (cut off or not), a reset of it is under way, or it is ACTIVE |
| SessionLifecycle.AccountedStep | app/runtime/manager.py:47-78 | every step keeps all workers that live or can live registered, except emptying the registry, which does so exactly if there are none |
| SessionLifecycle.LiveIsRegistered | app/runtime/manager.py:21-78 | in every run that empties the registry only when no worker lives, not even one that was cut off, or can live, every live worker is registered |
| SessionLifecycle.RegistryExact | app/runtime/manager.py:73-78 | the condition is exact: when the registry is about to be emptied, all live workers are registered in every continuation if and only if no worker lives, cut off or not, or can live at that moment |
| SessionLifecycle.TerminationLeaves | app/execution/session/manager.py:98-104 | from every reachable state, an uninterrupted `terminate_all_sessions` leaves no registered session starting or ACTIVE and no registered runtime starting or RUNNING; and which registered workers live or can live after it, and which of them it leaves to another stop or for good |
| SessionLifecycle.AfterTermination | app/execution/session/manager.py:98-104 | over every continuation of it: exactly those with a reset under way, whether or not the old process is dead, those whose ACTIVE session is not registered, and the live ones whose runtime was TERMINATING or TERMINATED, because somebody else is stopping them or because they were cut off |
| SessionLifecycle.SweepLeavesNone | app/execution/session/manager.py:98-104 | in every interleaving with cells, verifications, installations, stops and dying processes: begun with no reset under way, and with nothing created or reset meanwhile, it leaves empty registries, no ACTIVE session it found, and no worker it found but those a pending stop is ending and those that were started while another stop was closing |
| SessionLifecycle.LostInReset | app/execution/session/manager.py:98-104 | a run that ends with empty registries and a live worker, restarted by a reset that was under way |
| SessionLifecycle.ResetOutlivesStop | app/execution/session/session.py:93-117 | from every state with a reset under way, a stop of the session ends STOPPED and the reset then starts a live worker |
| SessionLifecycle.StoppedButAlive | app/runtime/python_runtime.py:180-183 | the concrete run: the stop returns early from a runtime that the reset is stopping |
| SessionLifecycle.SessionStoppedIsEvents | app/execution/session/session.py:103-117 | an uninterrupted stop is its events in a row: its beginning, and where it waits the kill and the end |
| SessionLifecycle.SessionManager.CreateSession | app/execution/session/manager.py:22-45 | registers runtime and session, or only the failed runtime |
| SessionLifecycle.SessionManager.StopRuntime | app/runtime/python_runtime.py:180-210 | nothing for a runtime that is stopping or stopped, else no process and TERMINATED |
| SessionLifecycle.SessionManager.StopSession | app/execution/session/session.py:103-117 | the session's stop on its runtime, nothing if it is stopping or stopped |
| SessionLifecycle.SessionManager.TerminateAllRuntimes | app/runtime/manager.py:73-78 | a run of the sweep's own labels: each registered runtime that starts or runs is stopped, no other is touched, the registry is empty |
| SessionLifecycle.SessionManager.TerminateAllSessions | app/execution/session/manager.py:98-104 | a run of the sweep's own labels: each registered session that starts or is active is stopped, then the runtimes; both registries are empty |
| PackageNames.NameLanguage | app/dependencies/validator.py:7 | the pattern accepts exactly the names of PEP 508, section "Names" |
| PackageNames.AcceptedNames | app/dependencies/validator.py:25-47 | exactly the inputs whose stripped form is such a name are accepted, so the loop over forbidden characters rejects nothing more |
| PackageNames.RejectedNames | app/dependencies/validator.py:25-47 | the error of every input that is not |
| PackageNames.CanonicalRefinesPep503 | app/dependencies/resolver.py:44 | names with one canonical form have one normal form under PEP 503, section "Normalized Names" |
| PackageNames.CanonicalIsFiner | app/dependencies/resolver.py:44 | not conversely |
| VersionSpecifiers.ScanThenPrint | app/dependencies/validator.py:10-12 | a left-to-right scanner without backtracking: printing what it read gives the text back |
| VersionSpecifiers.PrintThenScan | app/dependencies/validator.py:10-12 | and reading what is printed gives the clauses back, so a text has one clause list |
| VersionSpecifiers.SpecifierLanguage | app/dependencies/validator.py:10-12 | the pattern accepts exactly what the scanner reads, which is exactly the comma-separated clause grammar |
| VersionSpecifiers.BareLanguage | app/dependencies/validator.py:65 | the pattern of versions without an operator and its scanner agree |
| VersionSpecifiers.AcceptedSpecifiers | app/dependencies/validator.py:49-74 | for every input, when it is accepted, as what, and when it counts as absent |
| VersionSpecifiers.RejectedSpecifiers | app/dependencies/validator.py:49-74 | the error of every input that is not |
| VersionSpecifiers.ValidationIsStable | app/dependencies/resolver.py:41-57 | an accepted specifier is accepted again unchanged, so validating twice is validating once |
| VersionSpecifiers.GrammarOfAccepted | app/dependencies/validator.py:10-18 | the accepted specifiers are exactly the stripped clause lists without "!=" |
| Pep440.Pep440OfAccepted | app/dependencies/validator.py:10-18 | an accepted specifier is a specifier set of PEP 440 exactly if that standard, in its section "Version specifiers" and Appendix B, allows the version of every clause after its operator |
| Pep440.AcceptedOfPep440 | app/dependencies/validator.py:49-74 | a specifier set of PEP 440 is accepted exactly if no version has an epoch or local part, no clause is an exclusion, and no line break is among its blanks |
| Pep440.NumberIsVersion | app/dependencies/validator.py:10-18 | what the standard allows is not nothing: a plain number is a version after every operator but "~=" |
| Pep440.OrderedPrefixes | app/dependencies/validator.py:11 | so every accepted specifier with "*" in a clause other than "==" lies outside the standard |
| Pep440.NoArbitraryEquality | app/dependencies/validator.py:10-12 | no accepted specifier uses arbitrary equality in any clause |
| Requirements.CutOfSpec | app/runtime/python_worker.py:143 | the chain of splits leaves nothing of a specifier, or its "~" |
| Requirements.RoundTrip | app/runtime/python_worker.py:142-143 | for every accepted name and specifier the worker recovers exactly the name printed by `format_requirement` if and only if the first operator is not "~=" |
| Resolver.Resolve | app/dependencies/resolver.py:10-59 | the loop computes the fold, and its output lists the map in insertion order |
| Resolver.Resolution | app/dependencies/resolver.py:24-59 | succeeds exactly when every item is valid and no occurrence carries another specifier than the previous one of its package; then one entry for each package, in order of first occurrence, holding the last |
| Resolver.FirstFailure | app/dependencies/resolver.py:26-51 | a failure is that of the first item that is invalid or clashes, and a conflict exactly in the second case |
| Resolver.PinSurvives | app/dependencies/resolver.py:46-57 | a specifier survives to the result unless an occurrence without one follows |
| Resolver.PinLost | app/dependencies/resolver.py:46-57 | any two accepted specifiers with an occurrence without one in between resolve to the second |
| Resolver.ShowIsFormatted | app/dependencies/resolver.py:53-57 | the stored requirement is what `format_requirement` prints for the validated pair |
| Resolver.TextIsEntry | app/dependencies/resolver.py:27-32 | a text is a name, or a name and the version behind its first "==" |
| Resolver.EntryMeans | app/dependencies/resolver.py:32-42 | what a dictionary is read as, and the error of one that is not |
| PythonWorker.VerifyPackages | app/runtime/python_worker.py:169-200 | satisfied exactly without problems; the problems and versions of all packages in order |
| PythonWorker.ProblemsMean | app/runtime/python_worker.py:176-192 | no problem exactly when every package is installed and every "==" text equals the installed version |
| PythonWorker.ProblemsInOrder | app/runtime/python_worker.py:176-192 | one problem for each package that is not installed or is installed in another version than its "==" asks for, in the order of the packages |
| PythonWorker.LookupMeans | app/runtime/python_worker.py:36-47 | a name is looked up in its canonical form, and as given only if that is unknown |
| PythonWorker.VersionsMean | app/runtime/python_worker.py:176-185 | versions are recorded for exactly the installed packages |
| PythonWorker.ExactThenMore | app/runtime/python_worker.py:186-188 | "==" followed by another clause is satisfied by no version without a comma |
| DependencyLifecycle.OperationRepository.UpdateStatus | app/repositories/dependency.py:129-152 | nothing for a missing record; else writes the status, keeps what is not given, and sets the completion time that is given, or now for terminal statuses |
| DependencyLifecycle.OperationRepository.CancelOperation | app/dependencies/manager.py:190-197 | nothing for a missing record, the record itself if it is terminal, else CANCELLED |
| DependencyLifecycle.Install | app/dependencies/manager.py:60-188 | writes exactly the stages of its circumstances to its own record and to no other, returns or raises as they say, ends READY with the versions of the deciding verification exactly when it returns, FAILED without versions otherwise, and with `completed_at` set however it ends |
| DependencyLifecycle.ReturnsExactly | app/dependencies/manager.py:79-188 | it returns exactly if nothing is declared, or the list resolves and the first verification finds every package, or that answers, pip works, its output could be recorded and the second finds them; and the circumstances of each error |
| DependencyLifecycle.EndingMeans | app/dependencies/manager.py:86-176 | the stages it goes through in each case |
| DependencyLifecycle.ScriptClimbs | app/dependencies/manager.py:79-188 | without a cancellation the status strictly climbs from REQUESTED to READY or FAILED |
| DependencyLifecycle.ReadyMeansVerified | app/dependencies/manager.py:101-176 | READY means the last verification found every declared package, each "==" exactly, also where the resolver dropped a pin |
| DependencyLifecycle.CancelIsOverwritten | app/dependencies/manager.py:190-197 | in every race the final status is the installation's own unless a cancellation writes after its last write |
| DependencyLifecycle.TerminalChanges | app/dependencies/manager.py:190-197 | in every interleaving a terminal status comes with `completed_at`, and changes exactly when the installation writes on over CANCELLED or a cancellation let through writes over READY or FAILED |
| DependencyLifecycle.CompletedExactly | app/repositories/dependency.py:141-149 | in every interleaving `completed_at` is set exactly when the installation has written its last status or a cancellation has written |
| DependencyLifecycle.CancelsOfRun | app/dependencies/manager.py:190-197 | in every run a cancellation reads the status once, and writes once at most, after that |
| DependencyLifecycle.CompletedButOpen | app/repositories/dependency.py:141-149 | so a cancellation in between leaves an open operation with `completed_at` set |
| CronFields.ScanThenPrint | app/jobs/schedule_utils.py:30 | printing the items read from a field gives the field back |
| CronFields.PrintThenScan | app/jobs/schedule_utils.py:30 | and reading printed items gives the items back |
| CronFields.FieldLanguage | app/jobs/schedule_utils.py:30 | the pattern accepts exactly the comma-separated items with range and step, each field with one reading |
| CronSchedule.SplitIs | app/jobs/schedule_utils.py:25 | splitting at blanks gives the only decomposition into parts |
| CronSchedule.CronLanguage | app/jobs/schedule_utils.py:20-35 | valid expressions are exactly five fields between blanks |
| CronSchedule.StepIsZero | app/jobs/schedule_utils.py:65-77 | for every valid field the fallback steps by nothing exactly when its only "/" is followed to the end by zeros |
| CronSchedule.NextRunAdvances | app/jobs/schedule_utils.py:38-78 | the next run is never before its base, and after it exactly unless the library fails on a zero step |
| CronSchedule.NextRunTold | app/jobs/schedule_utils.py:44-78 | the library's time where it answers, else as many minutes after the base as the fallback steps, or an overflow |
| CronSchedule.StepBehindSlash | app/jobs/schedule_utils.py:68-72 | the fallback steps by the number behind the only "/" |
| CronSchedule.StepAtStart | app/jobs/schedule_utils.py:73-75 | or by the number at the start of a field without one, at least by one |
| CronSchedule.StepOtherwise | app/jobs/schedule_utils.py:70-77 | or by one minute |
| CronSchedule.ZeroStepStandsStill | app/jobs/schedule_utils.py:64-78 | the instance: `*/0 * * * *` without the library |
| JobStore.Database.Update | app/repositories/job.py:98-148 | None keeps a column, `clear_next_run` empties the next run, a taken name fails, a missing job changes nothing |
| JobStore.Database.ListDue | app/repositories/job.py:87-96 | exactly the ACTIVE jobs whose next run is set and not later than now, each once |
| JobManager.Manager.CreateJob | app/jobs/manager.py:42-97 | its checks in order, and the row it adds; nothing changes when it raises |
| JobManager.Manager.UpdateJob | app/jobs/manager.py:119-163 | its checks on the merged schedule, and the columns it writes |
| JobManager.Manager.PauseJob | app/jobs/manager.py:170-178 | PAUSED without a next run |
| JobManager.Manager.ResumeJob | app/jobs/manager.py:180-192 | ACTIVE with a new next run for cron jobs, or a schedule error |
| JobManager.Manager.DeleteJob | app/jobs/manager.py:165-168 | removes the job and keeps its executions |
| JobManager.Manager.TriggerJobExecution | app/jobs/manager.py:194-254 | refused for a missing, paused or disabled job and for an active execution under PREVENT_OVERLAP; else one RUNNING record and the last run |
| JobManager.Manager.SubmitCells | app/jobs/manager.py:222-241 | the recorded execution is that of the last code cell, and none if any submission raises |
| JobManager.Manager.CancelJobExecution | app/jobs/manager.py:256-273 | fails for an execution its own manager does not know; else cancels the one record of that execution |
| JobEffects.TriggerMeans | app/jobs/manager.py:194-254 | when a trigger is refused or fails; when it is done, one RUNNING record more, of its kind, with the execution of the last code cell or the placeholder, the last run set to the launch, and nothing else |
| JobEffects.CreationMeans | app/jobs/manager.py:42-97 | the order of the failures; when it is done, one ACTIVE row with the columns of the request; created as "CRON" it is due exactly from a next run on that is not before now, and after it unless the library fails on a zero step; otherwise it has none and is never due |
| JobEffects.UpdateMeans | app/jobs/manager.py:119-163 | the failures; when it is done, which columns change; a job that it leaves "CRON" gets its next run from the new expression and zone, any other keeps the one it had |
| JobEffects.ResumptionMeans | app/jobs/manager.py:180-192 | the failures; when it is done, ACTIVE, and a new next run for a cron schedule, nothing else |
| JobEffects.PauseMeans | app/jobs/manager.py:170-178 | PAUSED without a next run, so not due at any time |
| JobEffects.DeletionMeans | app/jobs/manager.py:165-168 | the row goes, all others and all records stay |
| JobEffects.CancellationMeans | app/jobs/manager.py:256-273 | each failure; when it is done, the one record of the execution is CANCELLED now, nothing else |
| JobEffects.TickMeans | app/jobs/scheduler.py:68-102 | a tick runs a job exactly if it is due, not running under PREVENT_OVERLAP, its launch works and its next run can be calculated; then one SCHEDULED record more and a next run calculated from now, else nothing |
| JobEffects.CreatedJobRuns | app/jobs/scheduler.py:75-99 | a job created as "CRON" gets its first record in the tick that is not before its next run |
| JobEffects.AbandonedStaysDue | app/jobs/manager.py:142-162 | an active job updated to another type than "CRON" stays due once its old next run has come, after every tick |
| JobScheduler.EvaluateSessionJobs | app/jobs/scheduler.py:68-105 | commits exactly the due jobs' transactions, in some order, and leaves nothing uncommitted |
| JobScheduler.TickIsTransactions | app/jobs/scheduler.py:82-102 | each due job ends fully committed with one new RUNNING record or exactly as it was, as its own row and records decide; all others are untouched |
| JobScheduler.CommittedMeans | app/jobs/scheduler.py:90-98 | a commit sets the last run to now and a cron job's next run strictly after now unless its fallback stands still; other jobs keep theirs |
| JobScheduler.OrderDoesNotMatter | app/repositories/job.py:87-96 | the order that the query leaves open changes no row and no job's records |
| JobScheduler.DueAgain | app/jobs/scheduler.py:82-102 | a job is due again at the same time exactly when its transaction failed or its next run did not advance |
| JobRuns.TriggerIsBothSteps | app/jobs/manager.py:194-254 | the checks and the later record of a trigger in a row are `trigger_job_execution` |
| JobRuns.CreateKeepsSchedules | app/jobs/manager.py:63-97 | a successful creation keeps stored schedules valid exactly when its type is exact |
| JobRuns.StepKeepsSchedules | app/jobs/manager.py:119-254 | every request and tick keeps them valid |
| JobRuns.SchedulesStayValid | app/jobs/manager.py:63-192 | over every run with exact types, every stored CRON job has a valid expression and zone |
| JobRuns.SchedulesNeverFail | app/jobs/schedule_utils.py:38-55 | so over every run with exact types no resumption raises a schedule error, and no due job of a tick fails on one |
| JobRuns.NeverDue | app/jobs/manager.py:68-97 | over every run that does not update it, a job of another type without a next run is never due |
| JobRuns.LowerCaseCron | app/jobs/manager.py:69-88 | "cron" with a broken expression is stored as CRON and cannot be resumed |
| JobRuns.QuietStep | app/jobs/manager.py:170-203 | no step but its own resumption or creation wakes a paused job or raises what it may record |
| JobRuns.PausedStaysPaused | app/jobs/manager.py:170-203 | over every run without a resumption a paused job gets no record but those of triggers already past their checks |
| JobRuns.SerialStep | app/jobs/manager.py:205-254 | a serial step keeps active records and triggers under way at one or less |
| JobRuns.NoOverlap | app/jobs/manager.py:205-254 | in every serial run a job that keeps PREVENT_OVERLAP never has two queued or running records |
| JobRuns.OverlapOfTwo | app/jobs/manager.py:243-254 | two triggers under way at once always add two active records |
| JobRuns.OverlapReachable | app/jobs/manager.py:205-254 | so any job with PREVENT_OVERLAP that may start can end with two active records |
| JobRuns.NothingEnds | app/api/v1/routes/jobs.py:271 | with a manager for each request no record ever leaves RUNNING |
| JobRuns.OneExecutionEver | app/jobs/manager.py:205-210 | then a job that keeps PREVENT_OVERLAP records one execution at most, ever, and refuses every trigger after it |
| Output.TruncationMeans | app/output/manager.py:50-54 | a text is kept exactly when its encoding fits; else a prefix with the limit's number of characters and the marker, the whole text if its characters fit |
| Output.TruncationBound | app/output/manager.py:50-54 | at most four times the limit plus the marker in UTF-8 (section 3 of RFC 3629), the limit plus the marker for ASCII |
| Output.BoundIsTight | app/output/manager.py:50-54 | both bounds are reached |
| Output.NegativeLimit | app/output/manager.py:50-54 | a negative limit cuts every text, by that many characters from its end |
| Output.LeastOctets | app/output/manager.py:50-54 | the octets that are counted for a character are the least that can carry it, by the table of RFC 3629 |
| Output.CreateOutputEvents | app/output/manager.py:29-144 | one event for each stream that has one, numbered from one without gaps, in the order STDOUT, STDERR, TRACEBACK, RESULT, each with its truncated text; the metrics are a recount of the events |
| Output.EventsMean | app/output/manager.py:29-144 | which streams give an event, in which place, with which text and metadata |
| Output.MetricsMean | app/output/manager.py:29-144 | the metrics by what the call was given |
| OutputStore.OutputRepository.BulkCreate | app/repositories/output.py:34-54 | appends the events in order and returns them |
| OutputStore.ProcessAndPersist | app/output/manager.py:146-160 | every event is published in order, and all are stored |
| OutputStore.ListingIsDetermined | app/repositories/output.py:56-64 | the listing has one possible order exactly when no two different rows share a number |
| OutputStore.ListingExists | app/repositories/output.py:56-64 | and there always is one |
| OutputStore.PersistThenRetrieve | app/output/manager.py:146-170 | under a fresh identifier what is retrieved is exactly the stored list |
| OutputStore.ReusedIdentifier | app/connectors/manager.py:152-160 | under a reused one the order is not determined |
| Publisher.OutputPublisher.Publish | app/output/publisher.py:15-21 | the event goes to the end of every queue of its execution and to no other |
| Publisher.OutputPublisher.Subscribe | app/output/publisher.py:27-32 | a new empty queue joins the end of the list |
| Publisher.OutputPublisher.Take | app/output/publisher.py:34-38 | the oldest event is yielded |
| Publisher.OutputPublisher.Unsubscribe | app/output/publisher.py:39-45 | the queue leaves its list, and an empty list leaves the registry |
| Publisher.TidyStep | app/output/publisher.py:15-45 | every step keeps lists non-empty and every queue listed once |
| Publisher.RegistryStaysTidy | app/output/publisher.py:29-45 | over every run |
| Publisher.UnsubscribeIsLocal | app/output/publisher.py:39-45 | unsubscribing removes the caller's queue and no other |
| Publisher.RunIsYielded | app/output/publisher.py:34-38 | every run hands every queue some sequence of events, so the next statement is about every run |
| Publisher.SubscriberSeesAll | app/output/publisher.py:15-45 | in every interleaving what a subscriber was yielded followed by its queue is exactly what was published to its execution since it joined, in order |

## Left out

- A cancellation that strikes a reset or a stop while it waits for the process to end. In `SessionProtocol` a restart is one step, also the polling of a process that fails to start; in `SessionLifecycle` the polling is a wait of its own.
- A worker that ignores the signal of `terminate`, as a cell's code could make it: a terminated process is dead.
- Verifications and installations have no place in the serial order of `SessionSerial`, since they can swap replies with cells (`VisitorTakesReply`); nor has a worker that dies while it is idle, or that ends with an answer of its outermost handler, which its caller may or may not see before the death.
- An installation's verifications are taken to get their own replies, whatever else uses the runtime.
- `stop` in `SessionProtocol`: stops and their overlap with resets are modelled in `SessionLifecycle`, where what passes over the pipe is not.
- Starting a runtime under an explicit identifier, and starting a session again after it has stopped.
- StopSession, StopRuntime: nothing interferes with them; interleaved stops are the events of `SessionLifecycle`.
- Messages and durations: records keep whether an error message is set, and tasks whether `completed_at` is, not what they hold.
- The non-ASCII half of `lower` and `upper`; names and types are ASCII wherever they are accepted.
- CPython's limit on the digits of `int`: cron expressions arrive with at most 100 characters (app/schemas/job.py:18).
- NextRun: times are readings of one zone's clock, as Python compares them within one zone; the hour that a clock repeats is not modelled. `croniter` is an arbitrary partial function whose results lie after their base, and zone validity an arbitrary predicate, without the errors `ZoneInfo` raises besides "not found".
- The database: tables are maps with commit and rollback. Lazy loading and expiry of rows after a rollback, stale rows in a long session, column widths and connection errors are not modelled; the uniqueness of job names is.
- EvaluateSessionJobs: a tick is one step of `JobRuns`, no request commits between its transactions.
- Database.ListDue: the loop stands for the query; only the set it returns is the source's.
- `cell.code_content` and `nb.workspace_id`, which the row types do not have, are taken as the cell's source and the notebook's workspace.
- The malformed capture of pip's output: whether recording printed output raises is a parameter of `Install`.
- Characters that UTF-8 cannot encode (lone surrogates), on which truncation raises.
- A subscription begins when its generator is first advanced; what is published between the call and that moment is not part of SubscriberSeesAll. Events without an `execution_id` are not modelled.
- Queries that only filter (`list_all`, `list_by_session`, `list_by_cell_id`, `get_session_info`), `JobScheduler.start` and `stop`: one-branch members.
- Routes, schemas, middleware, rate limiting, workspaces, projects, notebooks and cells as stored rows, credentials and their encryption, connectors, the sanitising of the worker's environment, pip and operating-system processes.
