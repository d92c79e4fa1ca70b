# Verified model of the governed agent control plane

This project models the run-execution protocol of the control plane: the FastAPI
backend with its run ledger and executor threads, the Kubernetes operator that
projects AgentRuns onto that ledger, and the readiness chain of TenantPolicy, Agent
and AgentRun. `dafny verify dfyconfig.toml` checks all of it.

How the parts fit together:

- **DAG checks.** `Graph` says what a valid dependency graph is. `Kahn` holds the
  backend's queue algorithm, `Dfs` the operator's recursive search over maps; both are
  proved to accept exactly the valid graphs, and `Submission` carries the agreement
  over to what the operator really sends. The backend's order is the one topological order
  that is first in, first out.
- **Stores.** `Ledger` says what every store call does to a record. `MemoryStore` and
  `PostgresStore` are the two stores as classes, the second over two tables and a
  unique index. `Database` and `Simulation` say exactly when they answer alike.
- **Executor.** `Executor` is `execute_run` as a machine with one store call per step;
  `ExecutorInvariant` ties each program point to the stored record, `ExecutorSafety`
  and `ExecutorProgress` prove what it keeps and that it comes to an end, `ExecutorDeath`
  exactly which step kills the thread. `ThreadHistory` is the sequence of steps that led a
  thread where it is; over every history `LocalOutputs` proves what a local run stores,
  `ExternalOutcome`, `ExternalSteps` and `ExternalAttempts` what an external one stores, how
  it ends and how often a step is attempted. `ExecutorLimits` holds the runs in which it
  goes wrong, `ProviderRequests` what the provider is asked. `ExecuteRun`
  is the same code as loops, proved to follow the machine call by call.
- **Backend.** `Protocol` interleaves any number of submissions, reads, cancellations,
  executor threads and crashes. `ProtocolSafety`, `ProtocolRuns` and `ProtocolHistory` state
  what holds of every run of it; `ProtocolSimulation` carries that over to PostgreSQL, where
  `PostgresDeath` says exactly when a thread stops for good; `TenantIsolation` and
  `PostgresIsolation` separate tenants in either store.
- **Operator.** `Specs` holds what the controllers read of the custom resources; `Status` and `ReconcileStatus` hold the status projections; `Operator`
  is `Reconcile` over compare-and-set writes with stale reads, lost answers, failed and
  unnoticed writes, overlapping reconcilers, user edits and deletion. `OperatorSafety`
  and `OperatorRuns` prove what every run keeps, `OperatorCalls` which gateway call a
  reconciliation makes and what becomes of the answer. `LedgerView` is the ledger the operator assumes;
  `BackendLedger` and `OperatorBackend` show that the backend provides it, and
  `OperatorLimits` what is not promised.
- **Together.** `JointRuns` runs operator and backend side by side and proves that this is
  a run of the operator over the backend's own records; `JointPostgres` carries it over to
  the rows of PostgreSQL.
- **Governance.** `Governance` holds the three controllers' decisions and interleaves
  them; `GovernanceSafety` proves that nothing is submitted without an approval, and
  `GovernanceLimits` that the approval may be an outdated one.

Assumptions: each store method is atomic; identifiers supplied by uuid4 are fresh, and
PostgreSQL shows them as they were supplied; external run ids are distinct within a
tenant; a provider answers with a non-empty text or a declared error, and the client of the
external runtime with an object or a `RuntimeClientError` (it catches no other error of the
HTTP library while it reads a body); the execution mode is a supported one, since
`build_executor` raises errors nothing catches for any other; texts hold no NUL
character, and an external answer's output is a text; polling settings are finite, and the
clock moves on by each sleep; the namespace's tenant label is fixed; status is written by
the controllers only. Which texts are UUIDs, and how they may be spelled, is a parameter.

What the proofs turned up:

- In-memory `start`, `succeed` and `fail` look at the cancelled flag only, so a terminal
  status is not kept by arbitrary call sequences (`Ledger.TerminalNotAbsorbing`, and
  exactly when in `Ledger.TerminalKeptIff`). It is kept by every sequence the protocol
  produces (`ProtocolSafety.TerminalIsForever`).
- The two stores answer some requests differently: an empty project id is "" in memory and
  None in PostgreSQL; an id that is no uuid is unknown in memory and raises in PostgreSQL;
  another spelling of a stored id is unknown in memory and found in PostgreSQL; and a number
  its columns refuse raises there and kills the executor. Every other answer is equal
  (`ProtocolSimulation.StepSimulates`, `ProtocolSimulation.SameRequestAnswered`).
- Not every exit of `execute_run` leaves the run terminal. Over memory a thread dies, and
  leaves a run nobody cancelled running, exactly when a pass over an external answer, between
  one store call and the next, meets something that raises
  (`ProtocolRuns.ThreadDiesIff`, `ProtocolHistory.EndedThreadIsTerminalIff`): an answer whose
  steps are no list, a name that cannot be looked up, or a success with numbers that are
  none (`ExecutorLimits.NoListKills`, `ExecutorLimits.UnhashableNameKills`,
  `ExecutorLimits.BadNumbersKill`). An entry without a name raises nothing, whatever its
  numbers are.
- Over PostgreSQL a number its columns refuse stops a thread as well, in local mode too
  (`ExecutorLimits.HugeCountLeavesRunning`); with these two causes the condition is exact
  again (`PostgresDeath.ThreadStopsIff`, `PostgresDeath.EndedRowIsTerminalIff`).
- In external mode a step can be attempted more often than its AgentRun allows: when one
  answer names it twice, the second entry starts it again after a failure
  (`ExecutorLimits.NamedTwiceAttemptedTwice`). Otherwise every step is attempted at most once
  (`ExternalAttempts.OnceIffNoRestart`, `ExternalAttempts.OnceUnlessNamedTwice`).
- The custom resource definition admits AgentRuns that the backend's request model refuses
  (`Submission.LongNameIsRefused`; exactly which in `Submission.AdmittedFitsIff`).
- In local execution neither the prompt nor the role of a node reaches the provider, which
  is asked with the run's task and the node's name (`ProviderRequests.ProviderIsAskedFor`).
- An AgentRun cancelled before its submission can be submitted after all, and its phase
  then goes back (`OperatorLimits.EarlyCancellationCanBeUndone`); exactly when a phase goes
  back is `OperatorRuns.PhaseGoesBackIff`.
- Deletion for age is by name: a reconciler that read an expired AgentRun can delete a new
  one of the same name that has never run (`OperatorLimits.DeleteCanHitNewObject`). It hits
  the one it read exactly when no new one was created since (`OperatorRuns.DeletesOnlyExpired`),
  and that one is past its time to live unless it was changed after it was read
  (`OperatorLimits.RaisedTimeToLiveIsMissed`).
- A time to live above 9,223,372,036 seconds overflows the delay; one second more makes
  it negative, so the run expires at once (`Operator.TtlDelayOverflows`).
- The policy an Agent was approved against may have changed by the time a run is submitted,
  and no longer permit it (`GovernanceLimits.ApprovalMayBeOutdated`). As long as the policy of
  any of its approvals was neither edited nor removed since, it still does
  (`GovernanceLimits.KeptPolicyStillPermits`);
  an edited one may, too (`GovernanceLimits.EditedPolicyMayStillPermit`).
- README.md:74-75 of the repository says each node honours its retry budget; a run
  without a DAG gets one attempt whatever `maxAttempts` says (`Submission.RetriesWithinPolicy`).
- README.md:100 of the repository says the API verifies membership and project tenancy;
  the handlers take the tenant header and the project id as they come, and the model
  follows the handlers.

## Model

| member | source | states |
|---|---|---|
| Kahn.OrderIsTopological | backend/app/main.py:280-306 | a returned order lists every position once, each dependency before its dependents, even when a dependency is repeated |
| Kahn.TopologicalIsAcyclic | backend/app/main.py:297-306 | with unique names and known dependencies, a topological order rules out every cycle |
| Kahn.UnprocessedIsStuck | backend/app/main.py:299-306 | every node the queue never reached waits for another such node |
| Kahn.StuckMeansCycle | backend/app/main.py:299-306 | with unique names and known dependencies, None exhibits a cycle through unprocessed nodes only |
| Kahn.OrderIffValid | backend/app/main.py:280-306 | an order is returned if and only if names are unique, dependencies known and the graph acyclic |
| Kahn.IndexNames | backend/app/main.py:281-286 | the first loop gives every name its position, or fails exactly at a duplicate |
| Kahn.CountDependencies | backend/app/main.py:287-296 | the second loop counts in-degrees and lists dependents, or fails exactly at an unknown dependency |
| Kahn.OrderIsFirstInFirstOut | backend/app/main.py:297-305 | in a returned order, nodes stand in the order of their last dependencies, and those with the same one, or none, in the order they are listed |
| Kahn.OnlyOneOrder | backend/app/main.py:297-305 | no two topological orders are first in, first out |
| Kahn.OrderIsExactly | backend/app/main.py:280-306 | an order is returned if and only if the node list is valid and it is the topological order that is first in, first out |
| Kahn.FindReady | backend/app/main.py:297 | the initial queue holds exactly the positions of in-degree zero, ascending |
| Kahn.RelaxAll | backend/app/main.py:302-305 | the inner loop decrements the dependents in place and enqueues those that reach zero |
| Kahn.DrainQueue | backend/app/main.py:299-305 | the main loop computes the specified processing order |
| Kahn.TopologicalOrder | backend/app/main.py:280-306 | the loops return an order exactly for valid node lists, and it is topological and first in, first out |
| Dfs.Search.Visit | controllers/agentrun_controller.go:135-152 | the recursive search ends, and leaves the node finished after all it depends on, or names a node on a real cycle |
| Dfs.CheckDeclared | controllers/agentrun_controller.go:126-132 | whatever the map order, an error means a really unknown dependency, and none means all are declared |
| Dfs.VisitAll | controllers/agentrun_controller.go:153-158 | whatever the map order, the search succeeds if and only if the graph is acyclic |
| Dfs.ValidateDag | controllers/agentrun_controller.go:115-159 | accepts exactly the valid node lists for every map order, and every reported fault is really there |
| Submission.BothChecksAgree | controllers/agentrun_controller.go:115-159 | on every node list both algorithms give the same verdict, which is validity |
| Submission.SubmittedGraph | controllers/agentrun_controller.go:171-202 | the graph of a submission is the AgentRun's DAG, or a single node when there is none |
| Submission.AcceptedIffAccepted | backend/app/main.py:339-355 | the backend accepts a submission's graph exactly when the operator's check accepts the AgentRun's DAG |
| Submission.BuildNodes | controllers/agentrun_controller.go:171-202 | the loop builds the specified nodes, with prompt, role and retry defaults |
| Submission.AdmittedFitsIff | api/v1alpha1/agentrun_types.go:8-65 | an AgentRun its definition admits is within the limits of a request if and only if it has at most 32 nodes, names of at most 63 characters and a token limit of at most 32768 |
| Submission.LongNameIsRefused | backend/app/main.py:23-36 | an admitted AgentRun whose request is refused |
| ProviderRequests.StoredSpecs | controllers/agentrun_controller.go:171-202 | each stored step carries the node's prompt and role or the task and the agent's role, the agent's model and token limit, and one retry less than the attempts allowed |
| ProviderRequests.ProviderIsAskedFor | backend/app/main.py:309-324 | every provider call of a run created for an AgentRun asks for the node whose turn it is, with the stored task, the completed outputs, and the agent's model and token limit |
| Submission.RetriesWithinPolicy | controllers/agentrun_controller.go:189-202 | a node may be attempted max(1, maxAttempts) times; a run without a DAG gets one attempt |
| Submission.AttemptsWithinPolicy | controllers/agentrun_controller.go:189-202 | in every interleaving, no step of a run created for an AgentRun is ever attempted more than max(1, maxAttempts) times, in external mode as long as no answer names a step twice; there every step is attempted at most once if and only if no failed one is started again |
| ExternalAttempts.RestartIsNamedTwice | backend/app/main.py:257-260 | a failed step is started again only by an answer that names it twice |
| ExternalAttempts.OnceIffNoRestart | backend/app/main.py:244-277 | outside local mode all steps were attempted at most once if and only if no failed step was started again |
| ExternalAttempts.OnceUnlessNamedTwice | backend/app/main.py:244-277 | in external mode a step is attempted at most once as long as no answer names a step twice |
| ExecutorLimits.NamedTwiceAttemptedTwice | backend/app/main.py:257-260 | a run in which a step that may be attempted once is attempted twice |
| Ledger.NormalizingKeepsGraph | backend/app/store.py:17-52 | normalising, storing and snapshotting keep every name and dependency |
| Ledger.EndsDropSteps | backend/app/store.py:144-231 | a failure drops exactly the queued steps, a cancellation the running ones, too |
| Ledger.CancelledIsFrozen | backend/app/store.py:144-231 | once the cancelled flag is set no operation changes anything |
| Ledger.TerminalKeptIff | backend/app/store.py:158-231 | exactly which in-memory operations keep a terminal status |
| Ledger.TerminalNotAbsorbing | backend/app/store.py:212-231 | fail then succeed resurrects a run in memory |
| MemoryStore.NormalizeStepSpecs | backend/app/store.py:17-44 | the loop fills in the defaults of every step |
| MemoryStore.SweepSteps | backend/app/store.py:153-155 | the loop cancels queued steps, and running ones on cancellation, and no others |
| MemoryStore.InMemoryRunStore.SubmitRun | backend/app/store.py:68-115 | returns the run already stored for the tenant and key, or stores a new one |
| MemoryStore.InMemoryRunStore.GetRun | backend/app/store.py:117-120 | shows a tenant its own run only |
| MemoryStore.InMemoryRunStore.SetRuntimeRun | backend/app/store.py:136-142 | records the external id unless cancelled or foreign |
| MemoryStore.InMemoryRunStore.CancelRun | backend/app/store.py:144-156 | cancels a run that is not terminal with its open steps |
| MemoryStore.InMemoryRunStore.StartRun | backend/app/store.py:158-165 | starts unless cancelled or foreign |
| MemoryStore.InMemoryRunStore.StartRunStep | backend/app/store.py:167-178 | starts a queued or failed step and counts the attempt |
| MemoryStore.InMemoryRunStore.SucceedRunStep | backend/app/store.py:180-200 | stores the output, or the mock output for an empty one |
| MemoryStore.InMemoryRunStore.FailRunStep | backend/app/store.py:202-210 | stores the error |
| MemoryStore.InMemoryRunStore.SucceedRun | backend/app/store.py:212-219 | succeeds unless cancelled or foreign |
| MemoryStore.InMemoryRunStore.FailRun | backend/app/store.py:221-231 | fails and cancels queued steps unless cancelled or foreign |
| Database.LoadAgrees | backend/app/store.py:526-545 | rows selected in position order show the record they represent |
| PostgresStore.PostgresRunStore.OrderedPositions | backend/app/store.py:537-544 | ORDER BY position lists each selected position once, ascending |
| PostgresStore.PostgresRunStore.LoadSnapshot | backend/app/store.py:526-545 | loads a run of the tenant with its steps |
| PostgresStore.PostgresRunStore.RowsFit | backend/migrations/003_dag_retries.sql:1-4 | reports exactly whether the columns accept the rows of a new run |
| PostgresStore.PostgresRunStore.SubmitRun | backend/app/store.py:271-322 | inserts a run and its steps, or loads the one the unique index finds; raises when a row is refused |
| PostgresStore.PostgresRunStore.SetRuntimeRun | backend/app/store.py:347-358 | the guarded update of the external id |
| PostgresStore.PostgresRunStore.CancelRun | backend/app/store.py:360-380 | both updates of a cancellation, then the load |
| PostgresStore.PostgresRunStore.StartRun | backend/app/store.py:496-507 | starts only a queued run |
| PostgresStore.PostgresRunStore.StartRunStep | backend/app/store.py:385-403 | starts a queued or failed step of a run that is not cancelled |
| PostgresStore.PostgresRunStore.SucceedRunStep | backend/app/store.py:405-442 | stores the output; without one, raises when the row is missing |
| PostgresStore.PostgresRunStore.FailRunStep | backend/app/store.py:444-460 | stores the error of a step of a run that is not cancelled |
| PostgresStore.PostgresRunStore.SucceedRun | backend/app/store.py:462-473 | succeeds only a running run |
| PostgresStore.PostgresRunStore.FailRun | backend/app/store.py:475-494 | fails only a running run, and cancels its queued steps |
| PostgresStore.GroupStepUpdate | backend/app/store.py:388-402 | an update of one row of the step table changes that step of that run only |
| PostgresStore.GroupSweep | backend/app/store.py:373-379 | the sweeping update changes the open steps of that run only |
| Simulation.RunAgreesIff | backend/app/store.py:324-507 | on a tenant's own run the stores answer alike if and only if the stated guards agree and the columns accept the numbers, and then stay in step |
| Simulation.OwnedAgreesIff | backend/app/store.py:324-507 | the same for whole stores |
| Simulation.NotOwnedAgreesIff | backend/app/store.py:324-507 | on foreign or unknown runs nothing changes, and the answers agree if and only if the id is a uuid and no mock output is looked up |
| Simulation.SubmitAgreesIff | backend/app/store.py:271-322 | submissions are answered alike, and keep the stores in step, if and only if the key was used before or the columns accept the rows |
| Runtime.FindNode | backend/app/main.py:248 | the position dictionary gives a step of that name, or there is none |
| Runtime.RuntimeFloat | backend/app/main.py:225-229 | a setting is at least 0.01 and never below what was set; an unparsable one is the default |
| Runtime.WordsNormalized | backend/app/main.py:232-241 | which words, in small or capital letters, say succeeded, failed, cancelled and running |
| Runtime.StartTimer | backend/app/main.py:192-195 | whatever the settings, polling starts with a positive interval, the poll setting, and a deadline ahead by the timeout setting |
| Runtime.SleepSpendsBudget | backend/app/main.py:193-220 | one sleep uses up at least one of the polls the timeout leaves |
| ExecutorSafety.StepKeepsInv | backend/app/main.py:99-222 | every executor step keeps the invariant between its program point and the record |
| ExecutorSafety.CancelKeepsInv | backend/app/store.py:144-156 | so does a cancellation at any program point |
| ExecutorSafety.PlanIsRecomputed | backend/app/main.py:127-130 | the order recomputed from the snapshot is the validated one, so the invalid-DAG branch is not taken |
| ExecutorProgress.CallsAreReady | backend/app/store.py:158-231 | every store call the executor makes meets the guards of the in-memory store, and those of both unless a column refuses a number |
| ExecutorProgress.StepEvolves | backend/app/main.py:99-222 | a step never changes a terminal record, moves status only forward, and in local mode keeps succeeded steps |
| ExecutorProgress.StepsComeCloser | backend/app/main.py:131-222 | every step lowers a lexicographic distance to the exit |
| ExecutorDeath.PassDiesIff | backend/app/main.py:244-277 | the rest of a pass raises before its next store call if and only if some entry raises and every entry before it is passed over |
| ExecutorDeath.StepKillsIff | backend/app/main.py:244-277 | a step kills its thread if and only if the stored record and the answer in hand say so, in external mode only |
| ExecutorDeath.EndedIsTerminalIff | backend/app/main.py:99-222 | a thread that has ended leaves its run terminal if and only if it was not killed or the run was cancelled |
| ExecutorLimits.NoListKills | backend/app/main.py:249 | a run in which an answer whose steps are no list kills the thread and leaves the run running |
| ExecutorLimits.UnhashableNameKills | backend/app/main.py:252-253 | so does a name that cannot be looked up |
| ExecutorLimits.BadNumbersKill | backend/app/main.py:258-270 | so does a success whose numbers are none |
| ExecutorLimits.HugeCountLeavesRunning | backend/app/main.py:149-157 | over PostgreSQL a token count too large for its column stops a local thread and leaves its row running |
| ExecutorProgress.AttemptedNeedsDependencies | backend/app/main.py:131-163 | a step ever attempted has all transitive dependencies succeeded |
| ExecutorProgress.ProviderSeesCompletedSteps | backend/app/main.py:319 | the prior output is joined from exactly the succeeded steps in order, and the counters agree |
| ExecutorProgress.CallsAreBounded | backend/app/main.py:134-148 | attempts stay within max_retries + 1 and provider calls within their sum |
| ExecutorProgress.JoinFromFront | backend/app/main.py:319 | empty outputs leave no trace in the prior output, and the others stand in order with a blank line between two |
| ThreadHistory.HistoryGrows | backend/app/main.py:99-222 | a step of the machine extends the history of its thread |
| ThreadHistory.DeadIffKilled | backend/app/main.py:244-277 | in every history a thread is dead exactly when one of its steps killed it, in external mode |
| LocalOutputs.StoredIsAnswered | backend/app/main.py:138-160 | in local mode a succeeded step stores the text and numbers of the provider's last completion for it, a failed one its last error, and a failed run the error that failed it |
| ExternalOutcome.ExternalOutcome | backend/app/main.py:197-222 | an external thread that has left a run no request cancelled leaves it succeeded, cancelled or failed as the last answer says in its words, or failed at the deadline, for want of an id or with the runtime's error |
| ExternalOutcome.PollsWhileRunning | backend/app/main.py:197-220 | the thread polls again only after an answer that says no end, and sleeps for the set interval |
| ExternalOutcome.RuntimeIdIsAccepted | backend/app/main.py:188-191 | the stored run id of the runtime is the one it accepted the run under |
| ExternalSteps.StoredIsReported | backend/app/main.py:261-277 | in external mode a succeeded or failed step stores the output and numbers, or the error, of the last entry that reported a result for its name |
| ExternalSteps.ReportIsHeard | backend/app/main.py:197-198 | the entries reported are those of the answer last heard |
| ExternalSteps.PassIsApplied | backend/app/main.py:244-277 | after a pass over an answer that names no step twice, every step it names is as its entry reports it |
| ExecuteRun.IndexSteps | backend/app/main.py:248 | the dictionary maps each name to its last position |
| ExecuteRun.Thread.Execute | backend/app/main.py:99-165 | the whole of execute_run comes to an end, having taken steps of the machine only; it raises if and only if one of them read a record and an answer that kill it, the run is terminal at the end unless that happened to a run nobody cancelled, and locally it never raises and has the promised shape; locally the steps hold the provider's answers, externally what the runtime reported, and an external run ends as its last answer says |
| ExecuteRun.Thread.ExecuteLocal | backend/app/main.py:127-165 | local execution follows the machine to its exit |
| ExecuteRun.Thread.ExecuteInOrder | backend/app/main.py:131-165 | so does the loop over the order |
| ExecuteRun.Thread.ExecuteStep | backend/app/main.py:136-164 | the retry loop ends with an output recorded or the thread exited |
| ExecuteRun.Thread.ExecuteExternal | backend/app/main.py:168-222 | external execution follows the machine to its exit, or to its death when an answer is malformed |
| ExecuteRun.Thread.PollToEnd | backend/app/main.py:197-220 | the polling loop ends, whatever the answers |
| ExecuteRun.Thread.NextAnswer | backend/app/main.py:212-222 | another round of polling leaves a smaller poll budget |
| ExecuteRun.Thread.ReportEnd | backend/app/main.py:199-211 | a terminal external status, and only that, ends the run |
| ExecuteRun.Thread.SyncSteps | backend/app/main.py:244-277 | one pass over an external answer makes exactly the machine's store calls, and raises only on a malformed one |
| ExecuteRun.Thread.SyncStep | backend/app/main.py:252-277 | so does one entry of it, which raises only if it is a faulty one |
| ProtocolSafety.RunKeepsInv | backend/app/main.py:333-403 | in every interleaving each run keeps its invariant, its one thread and its key |
| ProtocolSafety.RunsEvolve | backend/app/main.py:333-403 | over any stretch of any interleaving a run keeps owner, key, plan and mode, and evolves forward only |
| ProtocolSafety.TerminalIsForever | backend/app/store.py:144-231 | a terminal run never changes again |
| ProtocolSafety.TerminalLocalShape | backend/app/main.py:122-165 | a succeeded, failed or cancelled local run has the promised step shape |
| ProtocolSafety.CancelledHasNothingOpen | backend/app/store.py:144-156 | a cancelled run has no queued or running step |
| ProtocolSafety.OneRunOneExecutor | backend/app/main.py:356-368 | one thread is ever spawned per run, and runs are the same exactly when tenant and key are |
| ProtocolSafety.ResubmitIsIdempotent | backend/app/main.py:356-368 | submitting a key again changes nothing and is answered with the run it created |
| ProtocolSafety.DependenciesSucceededForGood | backend/app/main.py:131-163 | an attempted step has its transitive dependencies succeeded at every later moment |
| ProtocolRuns.AtMostOneStepRuns | backend/app/main.py:131-163 | at most one step of a local run is running in every reachable state |
| ProtocolRuns.WorkIsBounded | backend/app/main.py:134-148 | in every reachable local state attempts and provider calls are within their limits |
| ProtocolRuns.ProviderSeesWhatCompleted | backend/app/main.py:319 | at every reachable provider call the text passed on comes from exactly the completed steps |
| ProtocolRuns.ThreadDiesIff | backend/app/main.py:244-277 | in every interleaving a thread dies at an event if and only if that is its own step on a record and an answer that kill it |
| ProtocolRuns.ThreadsComeCloser | backend/app/main.py:131-222 | a thread's own steps always bring its exit closer, and nothing sets it back |
| ProtocolRuns.NoInvalidDag | backend/app/main.py:127-130 | the order of the stored steps is always the order validated at submission |
| ProtocolHistory.OwnStepsAreHistory | backend/app/main.py:356-368 | in every interleaving the steps of a thread are a history of it, whatever requests come between them |
| ProtocolHistory.DeadThreadWasKilled | backend/app/main.py:244-277 | in every interleaving a thread is dead exactly when one of its steps so far killed it |
| ProtocolHistory.EndedThreadIsTerminalIff | backend/app/main.py:99-222 | a thread that makes no more calls leaves its run terminal if and only if the run was cancelled or none of its steps killed it; outside external mode the run is terminal |
| ProtocolHistory.ExternalRunsEndAsTold | backend/app/main.py:197-222 | in every interleaving an external run ends as its runtime's last answer says, or failed for want of one |
| ProtocolHistory.LocalStepsStoreAnswers | backend/app/main.py:138-160 | in every interleaving local steps store the provider's own last answers |
| ProtocolHistory.ExternalStepsStoreReports | backend/app/main.py:261-277 | in every interleaving external steps store what the last entry on them reported, under the accepted run id |
| ProtocolHistory.PassedAnswersAreApplied | backend/app/main.py:244-277 | between two polls of a run that is not cancelled every step is as the last answer reports it, if it names none twice |
| ProtocolHistory.AttemptedOnceIff | backend/app/main.py:257-260 | in every interleaving, outside local mode, each step was attempted at most once if and only if none was started again, which takes an answer that names it twice |
| ProtocolSimulation.StepSimulates | backend/app/store.py:237-507 | each event over PostgreSQL is matched by one over memory that keeps the systems in step, with equal answers if and only if it is not one of the stated kinds |
| ProtocolSimulation.SameRequestAnswered | backend/app/main.py:372-403 | the same read or cancellation is answered alike if and only if its id is a uuid, and as PostgreSQL shows it or of no run of the tenant |
| ProtocolSimulation.PostgresRunIsMatched | backend/app/store.py:237-507 | every run over PostgreSQL is matched by a run over memory of the matching events |
| ProtocolSimulation.PostgresTerminalIsForever | backend/app/store.py:360-507 | a terminal run's rows never change again |
| PostgresDeath.OwnStepStopsIff | backend/app/store.py:385-435 | a step over PostgreSQL stops its thread for good if and only if the answer kills it or a column refuses a number, where it stands |
| PostgresDeath.ThreadStopsIff | backend/app/store.py:385-435 | the same at every step of every run over PostgreSQL |
| PostgresDeath.EndedRowIsTerminalIff | backend/app/main.py:99-222 | over PostgreSQL a thread that makes no more calls, in a process that lives, leaves its row terminal if and only if the run was cancelled or none of its steps stopped it |
| TenantIsolation.OthersChangeNothing | backend/app/store.py:68-231 | another tenant's call leaves a tenant's records and keys alone |
| TenantIsolation.OwnCallSeesView | backend/app/store.py:68-231 | a tenant's call depends on and yields its own records only |
| TenantIsolation.NonInterference | backend/app/store.py:68-231 | deleting all other tenants' calls from any sequence leaves a tenant's replies and records unchanged |
| TenantIsolation.SeparateRuns | backend/app/store.py:68-231 | the same of any store whose single calls separate tenants |
| PostgresIsolation.ReceivedSeparates | backend/app/store.py:237-507 | over PostgreSQL another tenant's call leaves a tenant's rows alone, its own depends on and yields its rows only |
| PostgresIsolation.RepresentedIsOwned | backend/app/store.py:271-322 | tables that represent a ledger have every step row under the tenant of its run |
| PostgresIsolation.PostgresNonInterference | backend/app/store.py:237-507 | deleting all other tenants' calls leaves a tenant's replies and rows unchanged |
| Status.SetThenFind | controllers/agentrun_controller.go:412-415 | setting a condition changes what is found of its type only |
| Status.ProjectedWords | controllers/agentrun_controller.go:481-496 | which words stand for which phase, in small or capital letters |
| Status.ProjectionSays | controllers/agentrun_controller.go:396-415 | after a projection the Completed condition is True for a succeeded run, False with its reason for a failed or cancelled one, and Unknown otherwise |
| Status.SanitizedSays | controllers/agentrun_controller.go:456-479 | so it is after sanitising a terminal status, which changes the message and two conditions only |
| Status.ProjectionIsIdempotent | controllers/agentrun_controller.go:367-416 | projecting the same snapshot again changes nothing |
| Status.SanitizedIff | controllers/agentrun_controller.go:456-479 | exactly which statuses sanitising leaves alone |
| Status.SanitizingIsIdempotent | controllers/agentrun_controller.go:456-479 | sanitising twice is sanitising once |
| Status.ProjectedIsSanitized | controllers/agentrun_controller.go:443-479 | what a poll stores for a terminal run needs no sanitising |
| Status.ProjectSteps | controllers/agentrun_controller.go:397-404 | the loop rebuilds every node state |
| Status.StatusObject.ApplyControlPlaneStatus | controllers/agentrun_controller.go:367-416 | the in-place edits amount to the projection, and the Completed condition says how the run stands |
| Status.StatusObject.SanitizeTerminalStatus | controllers/agentrun_controller.go:456-479 | the in-place edits amount to sanitising, the Completed condition of a terminal run says how it ended, and the result says whether anything changed |
| ReconcileStatus.Reject | controllers/agentrun_controller.go:331-345 | a rejection keeps the lifecycle and sets Ready to false, and no other condition |
| ReconcileStatus.RecordGatewayFailure | controllers/agentrun_controller.go:347-365 | a gateway failure keeps the lifecycle and sets ControlPlaneReady to false, and no other condition |
| ReconcileStatus.RecordSubmission | controllers/agentrun_controller.go:213-225 | the status after an accepted submission: the lifecycle is the answer's, one attempt, Ready, ControlPlaneReady and Accepted are True, Completed says how the run stands, and no other condition changes |
| ReconcileStatus.RecordPoll | controllers/agentrun_controller.go:241-249 | the status after a poll: the lifecycle is the answer's, ControlPlaneReady is True, Completed says how the run stands, and no other condition changes; and whether it has to be written |
| ReconcileStatus.RecordCancellation | controllers/agentrun_controller.go:276-283 | the status after a cancellation reached the ledger: the lifecycle is the answer's, Ready, ControlPlaneReady and CancelRequested are True, Completed says how the run stands, and no other condition changes |
| ReconcileStatus.CancelBeforeSubmit | controllers/agentrun_controller.go:261-269 | an early cancellation ends the AgentRun now without a run, and its conditions say so |
| Operator.TtlDelayExactIff | controllers/agentrun_controller.go:297 | the delay is the configured one exactly up to 9,223,372,036 seconds |
| Operator.TtlDelayOverflows | controllers/agentrun_controller.go:297 | one second more makes the delay negative |
| OperatorSafety.ProjectionIsForward | controllers/agentrun_controller.go:367-383 | an answer received after the copy was read is never behind it |
| OperatorSafety.DecideIsOk | controllers/agentrun_controller.go:47-86 | every branch of Reconcile starts from sound conclusions |
| OperatorSafety.MoveKeepsInv | controllers/agentrun_controller.go:47-365 | every move of every reconciler, user, gateway and ledger keeps the invariant |
| OperatorRuns.RecordedRunIsForever | controllers/agentrun_controller.go:232-291 | an AgentRun's recorded run id never changes and its stored phase only moves forward |
| OperatorRuns.TerminalPhaseAgrees | controllers/agentrun_controller.go:367-371 | a stored terminal phase is the ledger's status of the recorded run, then and ever after |
| OperatorRuns.TerminalHasFinishTime | controllers/agentrun_controller.go:378-383 | a stored terminal phase comes with its finishing time |
| OperatorRuns.FinalizerReleasedOnlyWhen | controllers/agentrun_controller.go:305-329 | the finalizer goes only from a deleted AgentRun without a recorded run, with a terminal one, or with one that is not its label's tenant's |
| OperatorRuns.DeletesOnlyExpired | controllers/agentrun_controller.go:293-303 | the operator deletes only on a version that is terminal and whose time to live has run out; the delete hits the AgentRun it read, still terminal, if and only if no new one was created since, and past its time to live unless that or its finishing time was changed since |
| OperatorRuns.OneRunPerKey | controllers/agentrun_controller.go:161-230 | submissions reach the same run exactly when tenant and key are the same |
| OperatorRuns.RecordedRunIsTheRun | controllers/agentrun_controller.go:161-230 | while its key stays the same an AgentRun has one run, and records that one |
| OperatorRuns.PhaseGoesBackIff | controllers/agentrun_controller.go:71-76 | a stored phase goes back if and only if an early cancellation is followed by a recorded run that is not cancelled |
| OperatorCalls.RequestsAreMeant | controllers/agentrun_controller.go:47-86 | a submission is made only for a copy that asks for no cancellation and has no run, a poll only for one whose run is not terminal, a cancellation only for one that asks for it or is being deleted |
| OperatorCalls.CallIsMeant | controllers/agentrun_controller.go:54-86 | every call goes back to a branch on the copy it is made for, with valid references unless it is being deleted |
| OperatorCalls.BranchLeadsToCall | controllers/agentrun_controller.go:54-86 | a branch makes a submission, a poll or a cancellation due if and only if the copy asks for it |
| OperatorCalls.BranchWithoutCall | controllers/agentrun_controller.go:54-86 | what the other branches write: the finalizer, a rejection, an early cancellation, or a terminal status in shape |
| OperatorCalls.SubmissionIsWritten | controllers/agentrun_controller.go:203-230 | an accepted submission is written with the run's id and its state, a failed one reported with the lifecycle kept |
| OperatorCalls.PollIsWritten | controllers/agentrun_controller.go:232-254 | a poll's answer is written unless the status already says so, and a terminal one leads to the time to live |
| OperatorCalls.CancellationIsWritten | controllers/agentrun_controller.go:272-291 | a cancellation's answer is written, and a terminal one leads to the time to live |
| OperatorCalls.DeletionIsWritten | controllers/agentrun_controller.go:305-329 | a deletion writes the answer before it takes the finalizer away, and takes it away at a 404 |
| OperatorCalls.WriteStores | controllers/agentrun_controller.go:226-252 | a write stores the status or the finalizer alone, and what the reconciler does next |
| OperatorCalls.TtlLeadsToDelete | controllers/agentrun_controller.go:293-303 | a delete is due exactly when the finishing time plus the time to live is reached |
| OperatorCalls.SubmissionCarriesKey | controllers/agentrun_controller.go:167-170 | a submission carries the key of the spec, or the uid without one |
| OperatorLimits.EarlyCancellationCanBeUndone | controllers/agentrun_controller.go:256-271 | a run of moves in which it does |
| OperatorLimits.DeleteCanHitNewObject | controllers/agentrun_controller.go:299-301 | a run of moves in which a new AgentRun is deleted for the age of an old one |
| OperatorLimits.RaisedTimeToLiveIsMissed | controllers/agentrun_controller.go:299-301 | a run of moves in which an AgentRun is deleted although a time to live raised after it was read has not run out |
| LedgerView.NamesProject | controllers/agentrun_controller.go:481-496 | the projected phase is the ledger's status |
| BackendLedger.BackendAdvances | backend/app/main.py:333-403 | every backend step keeps runs, owners and keys, and moves statuses only forward |
| BackendLedger.SubmitAnswers | backend/app/main.py:333-369 | a submission is answered with the run of its tenant and key as it then is |
| BackendLedger.CallAnswers | backend/app/main.py:372-403 | a read or cancellation is answered with the run as it then is, or not at all exactly when the tenant has no such run |
| OperatorBackend.BackendStepIsAMove | backend/app/main.py:99-165 | whatever the backend does is a move of the operator's world |
| OperatorBackend.SubmissionIsAMove | controllers/agentrun_controller.go:203-212 | so is a submission, its answer received or lost |
| OperatorBackend.PollIsAMove | controllers/agentrun_controller.go:237-240 | so is a poll |
| OperatorBackend.CancellationIsAMove | controllers/agentrun_controller.go:272-275 | so is a cancellation, its answer received or lost |
| JointRuns.JointIsOperatorRun | controllers/agentrun_controller.go:47-86 | operator and backend running together are a run of the operator over the backend's own ledger |
| JointRuns.TerminalPhaseAgreesWithRecord | controllers/agentrun_controller.go:367-371 | a stored terminal phase is the status in the backend's record of the run, then and ever after |
| JointRuns.PollMirrorsRecord | controllers/agentrun_controller.go:232-249 | what an answered poll stores, or has found stored, mirrors the backend's record of the run and of every step |
| JointRuns.CancellationStopsTheRun | controllers/agentrun_controller.go:272-291 | a cancellation the operator hears of was asked for, leaves the backend's record terminal and is about to store that phase |
| JointRuns.OneRecordPerKey | backend/app/store.py:68-115 | every submission reached a record of its tenant and key with one executor, the same one exactly for the same tenant and key |
| JointPostgres.PostgresJointRunIsMatched | backend/app/store.py:237-507 | every joint run over PostgreSQL is matched by one over memory with the same AgentRuns |
| JointPostgres.TerminalPhaseAgreesWithRow | controllers/agentrun_controller.go:367-371 | a stored terminal phase is the status in the run's row, then and ever after |
| JointPostgres.OneRowPerKey | backend/app/store.py:271-322 | every submission reached a row of its tenant and key, the same one exactly for the same tenant and key |
| Governance.FindDuplicate | controllers/tenantpolicy_controller.go:71-80 | reports exactly whether a value occurs twice |
| Governance.ValidateTenantPolicy | controllers/tenantpolicy_controller.go:52-69 | active exactly for a bound, versioned, non-empty, duplicate-free, default-deny policy, and else the first requirement missed, spelled out one by one |
| Governance.Allowed | controllers/agent_controller.go:106-113 | reports exactly whether the candidate is listed |
| Governance.ValidateAgent | controllers/agent_controller.go:62-104 | ready exactly when bound, well formed and permitted by an active policy of the same tenant, and else the first requirement missed, spelled out one by one |
| Governance.ReadinessObject.Record | controllers/agent_controller.go:45-58 | the verdict, its generation and its condition are what a reader finds, and whether it has to be written |
| GovernanceSafety.MoveKeepsInv | controllers/agent_controller.go:35-60 | every move of the three controllers and of users keeps the invariant |
| GovernanceSafety.SubmissionsAreGoverned | controllers/agentrun_controller.go:88-113 | every submission's agent spec was approved earlier against a sound, active policy of the same tenant listing its model and tools |
| GovernanceSafety.ApprovalsAreValidations | controllers/agent_controller.go:62-104 | every approval is an earlier validation that found the agent ready against that stored policy |
| GovernanceSafety.PolicyJudgementIsWritten | controllers/tenantpolicy_controller.go:30-49 | a policy is about to be written active exactly when it meets every requirement, and its condition says so |
| GovernanceSafety.AgentJudgementIsWritten | controllers/agent_controller.go:35-60 | an Agent is approved and about to be written ready exactly when it meets every requirement, and its condition says so |
| GovernanceSafety.CheckedRunIsSubmittedIff | controllers/agentrun_controller.go:88-113 | an AgentRun is submitted exactly when its namespace binds it and its agent, the agent is ready for its generation and the DAG is valid |
| GovernanceLimits.KeptPolicyStillPermits | controllers/agentrun_controller.go:103-112 | if the policy of any approval of the agent was neither edited nor removed since, the current one permits the agent when the run is submitted |
| GovernanceLimits.KeptApprovalStillPermits | controllers/agent_controller.go:62-104 | in every reachable state a policy kept since an approval is there and permits what it was approved to |
| GovernanceLimits.ApprovalMayBeOutdated | controllers/agentrun_controller.go:103-112 | a run of moves that submits for an agent the current policy no longer permits |
| GovernanceLimits.EditedPolicyMayStillPermit | controllers/agentrun_controller.go:103-112 | a run of moves in which an edited policy still permits |

## Left out

- HTTP, JSON, UUID parsing and environment handling: gateway, runtime and provider are nondeterministic results; a request refused for its fields, its DAG or a missing tenant makes no store call.
- Timestamps of the ledger (`created_at`, `finished_at`): not stored by the model; the operator's own times are, and an answer may carry any.
- Message wording and its truncation, prompts and condition transition times: opaque values. The reason texts of the Ready and Active conditions written by the Agent and TenantPolicy controllers are one value each in the interleaved model; the verdict methods give them in full.
- Nil versus empty slices in the status comparison: idempotence is proved of values, not of API writes.
- PostgreSQL internals: isolation levels, row-level security, the unique index on external run ids, migrations; a number out of its column's range is refused when a row is written, not before.
- Controller-runtime internals: caches, queues and leader election appear as stale reads and repeated reconciles; the mapping of policies to agents' requests only decides when a reconcile happens.
- Non-ASCII lower-casing of status words: no such character folds into the words compared.
- `cancel_run`'s forwarding to the external runtime after the ledger is cancelled: it has no effect on the ledger; its three store calls are separate events.
- `InMemoryRunStore.clear`, `_update_step` and `close`: not used by the protocol.
- Step shapes in external mode: a run may succeed without every local step having succeeded; what is claimed there is status, contents, freezing, attempts and termination.
- Reconcile as control flow: its branches are the functions `Decide` and `After...` of a transition system, because reads, gateway calls and writes interleave with everything else; the edits it makes to the status object are methods.
- ExecutorProgress.CallsAreBounded: local mode and undecided threads only; external mode makes no provider calls of its own.
