# SaaS Agent Lab: the agent-run executor, verified

A Dafny model of how the application lets a language model act on licence
seats, and proofs of what it guarantees whatever the model, the provider,
other people and the database do. `dafny verify dfyconfig.toml` checks it all.

## What is modelled

**The business layer** (`Domain`, `Listings`, `Services`). Users, licences, assignments and
the audit log are one `Store`. The services are classes that change their
tables in place, with the loops of their queries; each method is proved against
a function of the old tables, and seat safety and audit replay are proved of
those functions.

**The executor as a machine of transactions** (`Machine`). A run's life is
RECEIVED, RESOLVED, EXECUTING, VERIFYING or AWAITING_APPROVAL, and an end. Each
step is one transaction. A run's *frame* says where the executor's methods
stand on it between two transactions, so that the three transactions of a tool
call, a crash between any two of them (`Die`), and an exception that the
planner swallows (`Interrupt`) are ordinary histories. A history interleaves
any number of runs with people who assign, revoke, create rows and edit policy
and status; within one run steps are serial, which is what the code assumes.
The planner is unconstrained: any sequence of requests to record, limit checks,
tool calls, conclusions and exceptions. It may keep the recorder and the tool
callback it was given and use them later: to record at any time, to ask for a
request or call a tool whenever no method of the executor stands on the run.

**The executor as code** (`Databases`, `Schedules`, `Executor`).
`AgentExecutor` is a class over a `Database` that allows one open transaction:
`Begin` demands that none is open, and a log commit demands that every CHECK of
the rows passes. Each method is proved to extend a ghost history by exactly the
machine's steps, so the machine's guarantees are guarantees of this code.

**The planners the application ships** (`Outputs`, `Decisions`, `Requests`).
The closed union of what a model may be recorded as saying; which responses
give an extraction, run tools or conclude; the wrapped model request (checked,
then recorded exactly once), and the decision loop, which ends for any provider.

**Resolution, checks and migrations** (`Resolution`, `SqlChecks`, `Migrations`).
Text to row ids, by the services' own queries; the tables' CHECK constraints in SQL's three-valued logic; the
0005 and 0007 migrations as a class that empties, rebuilds and refills tables.

**The public view** (`Projection`) of a persisted run: a summary, and a whole view
whose trace reads every recorded output back and fails on one it does not know.

## How to read it

- `Invariant` holds the inductive invariant and its proof, one lemma a
  transaction; `Reachable` is its conclusion.
- `Guarantees`, `History`, `Origins` and `Control` say what it means over whole
  histories: rows, budget, trace, attribution; what was so in committed state
  when an outcome was decided, as read by the run's own step in its own frame;
  where each stored text came from; what can still change once a planner was
  stopped or a run has ended.
- `Stages`, `Calls`, `Conclusions` and `Endings` say exactly what each step
  answers and leaves, by the stored rows alone and in both directions: when a
  request is accepted, a stage starts, a call is admitted, a seat is taken, a
  conclusion is accepted; what each extraction, resolution and verification makes
  of the run; what the model is shown; and which step each stored reason came
  from. The same is said of the services' changes in `Services`, of the decision
  loop's moves in `Requests`, and of the view's columns in `Projection`.
- `Renaming` and `NonInterference` prove that row ids cannot influence a
  decision. Any step on rows under other ids does the same, renamed, except that
  the names an ambiguous product matches are listed in id order: the list is
  kept if and only if the order of those ids is. States that differ by the ids
  and by such lists alone are *alike*, and stay so in every history.
- `Witness` holds concrete histories: one for each documented claim that does not
  hold, and two that show where row ids can be seen.

## Where the code and its documentation differ

- The run status documentation says that nothing leaves AWAITING_APPROVAL
  (src/app/models/agent_run.py:25). Once the run's requests are used up, the
  check before a further one ends it FAILED (step_limit), because ending a run
  tests only `completed_at`. In `Witness.PausedRunCanFail` the planner carries on
  after it was stopped; in `Witness.KeptRecorderEndsPausedRun` it lets the stop
  through, and its recorder is asked for a request after it has returned.
  `Control.PausedLeavesExactlyAtTheLimit` says that no other step does it. So a
  planner must promise two things for its run to stay paused: to let
  DecisionStopped through, and not to ask for a request once it has returned.
  `Control.PausedStaysPaused` says that this is enough.
- The same documentation says that an ended run never changes again
  (src/app/models/agent_run.py:21). Recording a model call does not test the
  status, so model-call rows and the trace counter can still grow.
  `Witness.EndedRunCanGrow` is such a history, and
  `Control.EndedChangesExactlyByRecording` says that a step changes an ended run
  if and only if it records a well-formed request with a recorder the run gave out.
- The public view is documented to show what was persisted
  (src/app/schemas/agent_runs.py:1-13), but reading a recorded output back raises
  when it is not of a known kind (src/app/schemas/agent_runs.py:184-188), and a
  planner may record anything.
  `Witness.RecordedRunCannotBeShown` is such a history;
  `Projection.ViewAccountsForOutcome` says that the view fails exactly then, and
  `Projection.ShippedPlannersCanBeShown` that the application's own planners never
  cause it.
- The resolver lists candidates by name so as not to hand out row ids
  (src/app/agent/resolver.py:39-40), but in id order. In
  `Witness.CandidateOrderShowsIds` two histories differ by an exchange of two
  ids and leave different recorded details; `Renaming.CandidatesKeptIffOrderKept`
  says when a renaming keeps the list.

## Model

| member | source | states |
|---|---|---|
| Guarantees.ExactlyOnceAttribution | src/app/agent/executor.py:448-564 | In every history, the audit events under a run's actor number its SUCCEEDED mutations plus its STARTED one if that committed; they are at most one, are exactly the run's committed changes, assign the run's resolved ids, and belong to a call recorded with those arguments and admitted with policy allow |
| Guarantees.EventsAreCommits | src/app/services/assignments.py:117-127 | No other step, of a person or another run, ever writes an event under a run's actor: events and commits of the run are equally many |
| NonInterference.DecisionsIgnoreIds | src/app/agent/executor.py:293-515 | From two states alike under any injective renaming of user and licence ids, the same planner gets the same answers through a whole decision, observation texts included, and the states it leaves are alike |
| NonInterference.HistoriesIgnoreIds | src/app/agent/tools.py:164-233 | A whole history under any other ids leaves exactly the renamed tables, and the renamed runs but for the order of an ambiguous outcome's candidates |
| NonInterference.HistoriesInOrder | src/app/agent/tools.py:164-233 | Under ids in the same order it leaves exactly the renamed database |
| NonInterference.AlikeStep | src/app/agent/executor.py:166-605 | Every step of the machine, resolution's read included, keeps two states alike |
| NonInterference.RenamedIsAlike | src/app/agent/decision.py:89-104 | The renamed database is alike the original |
| NonInterference.SameStepInOrder | src/app/agent/executor.py:166-605 | Under ids in the same order, every step commutes with the renaming |
| NonInterference.SameRunStep | src/app/agent/executor.py:199-605 | Under any ids, every transaction of a run but resolution's read is the renamed transaction on renamed rows, and answers the planner the same |
| NonInterference.DecidedAlike | src/app/agent/executor.py:370-515 | A run decided under other ids ends with the same status, reason, proposal and claim, and the same calls, policies, errors and observations |
| Renaming.SameHumanTx | src/app/services/assignments.py:70-162 | Services called by people cannot tell renamed rows apart |
| Renaming.SameTool | src/app/agent/tools.py:164-193 | Each tool on the renamed goal gives the renamed result and changes the renamed tables alike |
| Renaming.SameObservation | src/app/agent/tools.py:196-233 | What the model is shown is the same under any ids |
| Renaming.SameResolve | src/app/agent/resolver.py:15-55 | Under any ids resolution finds the renamed rows, or fails with the same code and detail, an ambiguous product's candidates being the same names in some order |
| Renaming.SameResolveInOrder | src/app/agent/resolver.py:15-55 | Under ids in the same order it is exactly the renamed resolution |
| Renaming.CandidatesKeptIffOrderKept | src/app/agent/resolver.py:38-47 | The list of candidates is the same if and only if the renaming keeps the order of the matching ids |
| History.CompletionIsSound | src/app/agent/executor.py:391-433 | A COMPLETED run's own verification read an active assignment of exactly its user and licence; goal_satisfied exactly when its own change committed, and otherwise it wrote no audit event |
| History.BlockingIsSound | src/app/agent/executor.py:786-865 | A BLOCKED run's reason was a condition of committed state in the business transaction of its own recorded attempt, or when its verification checked the very claim it concluded with; or its last call's own admission read that policy denies; a denied or held run committed nothing |
| History.CommittedChangeWasAllowed | src/app/agent/policy.py:28-36 | A run's committed change is that of one recorded call whose own admission read policy allow for the licence |
| History.VerifiedAttemptIsSettled | src/app/agent/executor.py:382-389 | At verification a run has at most one mutation row, not both succeeded and blocked, and a failed one carries a code the model was shown |
| History.ResolvedRunsAreGrounded | src/app/agent/executor.py:253-289 | A run has ids only if both texts stand in its instruction and its own resolution read rows they name, the licence being the only one |
| History.ClarificationIsSound | src/app/agent/executor.py:253-289 | A run that ended because a text was invalid, no user or licence matched, or several licences did, ended so because its own resolution, of its own two texts, read exactly that |
| History.HistoryExplains | src/app/agent/executor.py:370-605 | At every point of a history, a run's rows and frame are explained by steps of that run, each in the frame and on the call it concerns, that read committed state as claimed |
| Origins.RowsHaveOrigins | src/app/agent/executor.py:653-731 | The instruction is stored as given, the goal's texts are one extraction's, the proposal and claim one conclusion's, and every model-call and tool-call row answers a request or call of the planner |
| Control.StoppedOnlyOnceHalted | src/app/agent/executor.py:511-564 | In every history, whenever the executor raises DecisionStopped to a run's planner, the committed run has ended or is paused |
| Control.PausedLeavesExactlyAtTheLimit | src/app/agent/executor.py:764-774 | A paused run leaves AWAITING_APPROVAL if and only if its planner asks for a request at the request limit, in its loop or with a recorder it kept, and then ends FAILED (step_limit) |
| Control.PausedStaysPaused | src/app/agent/planner.py:65-79 | Under a planner that lets DecisionStopped through and asks for no request afterwards, nothing leaves AWAITING_APPROVAL |
| Witness.PausedRunCanFail | src/app/models/agent_run.py:25 | A concrete history pauses a run, and its next step ends it FAILED |
| Witness.KeptRecorderEndsPausedRun | src/app/agent/executor.py:764-774 | A concrete history leaves a run paused under a planner that let the stop through, and its next step, a kept recorder's check, ends the run FAILED |
| Control.EndedChangesExactlyByRecording | src/app/agent/executor.py:653-676 | A step changes an ended run if and only if it records a well-formed request with a recorder that the run gave out |
| Witness.EndedRunCanGrow | src/app/models/agent_run.py:21 | A concrete history ends a run, and its next step adds a model call to it |
| Witness.RecordedRunCannotBeShown | src/app/schemas/agent_runs.py:184-188 | A concrete history leaves a run whose view fails |
| Witness.CandidateOrderShowsIds | src/app/repositories/licences.py:37-39 | Two concrete histories that differ by an exchange of two licence ids record different details |
| Guarantees.CommittedRowsAreAccepted | src/app/models/agent_run.py:110-188 | Every committed run, tool-call and model-call row passes every CHECK with NULLs as SQL treats them, and refers only to rows that exist |
| Guarantees.UnfinishedCallIsUnique | src/app/agent/executor.py:529-533 | A run has at most one STARTED call, and none while VERIFYING, AWAITING_APPROVAL, COMPLETED or BLOCKED, even if a planner swallows an exception and carries on |
| Guarantees.CallsStayWithinBudget | src/app/agent/executor.py:811-845 | At most 6 reads and 1 mutation are admitted and one call refused over a limit, so at most 8 rows, whatever the planner does |
| Guarantees.TraceIsNumbered | src/app/repositories/agent_runs.py:40-50 | However the rows of both tables are sorted by number, entry i is number i + 1 up to last_sequence_no, and that order is unique |
| Guarantees.RunsEvolve | src/app/agent/executor.py:590-605 | Every later trace extends the earlier one, changing only STARTED calls; goal and proposal never change once written; an ended run is frozen but for model calls and the counter |
| Guarantees.StepEvolves | src/app/models/agent_run.py:11-26 | A step moves the status only as documented, or from AWAITING_APPROVAL to FAILED |
| Guarantees.TablesStaySound | src/app/services/assignments.py:57-60 | In every history the audit log replays to the assignments table, no licence is over-filled, no pair has two active rows, and available seats are total less taken |
| Guarantees.SortingNumbersIsUnique | src/app/repositories/agent_runs.py:50 | Entries numbered 1 to n have one sorted order |
| Guarantees.InterleavedIsNumbered | src/app/repositories/agent_runs.py:21-38 | Rows that took their numbers from one counter merge into a trace numbered 1 to n |
| Guarantees.OneSucceededMutation | src/app/repositories/tool_calls.py:31-37 | A run with one attempt at most has as many succeeded mutations as the query says |
| Invariant.Reachable | src/app/agent/executor.py:166-575 | Every reachable state satisfies the invariant of every run and of the tables |
| Invariant.StepKeeps | src/app/agent/executor.py:166-575 | Every step, of a run, a person or a crash, keeps the invariant |
| Invariant.RunStepKeeps | src/app/agent/executor.py:199-605 | Every transaction on a run keeps that run's invariant |
| Invariant.ExtractKeeps | src/app/agent/executor.py:679-731 | The extraction's last transaction keeps the invariant, for every outcome of the planner |
| Invariant.ResolveKeeps | src/app/agent/executor.py:277-289 | The resolution's last transaction keeps the invariant |
| Invariant.AdmitMayAppend | src/app/agent/executor.py:517-564 | However a call is admitted, refused, denied or held, the row added is one that may be last, with its run's status and reason matching it |
| Invariant.ReportKeeps | src/app/agent/executor.py:486-515 | Recording a call's outcome keeps the invariant, attribution included |
| Invariant.FinishKeeps | src/app/agent/executor.py:410-433 | Ending a verified run keeps the invariant |
| Invariant.RecordKeeps | src/app/agent/executor.py:653-676 | Recording a model call keeps the invariant, whatever the run's status |
| Invariant.BusinessWritesOwnEvent | src/app/agent/executor.py:470-484 | A business transaction writes one event of exactly the goal's ids under its own run's actor if it commits a change, and changes nothing otherwise |
| Invariant.HumanWritesNoAgentEvent | src/app/services/validation.py:27-43 | No person's step writes an event under any run's actor |
| Invariant.InterruptKeeps | src/app/agent/executor.py:62-67 | An exception between two transactions of a call, swallowed by the planner, keeps the invariant |
| Text.ExternalActorIsNoAgent | src/app/services/validation.py:27-43 | An actor accepted from outside is never stored under a run's name, however spaced or capitalised |
| Text.AgentActorInjective | src/app/services/validation.py:46-48 | Two runs never share an actor |
| Text.AgentRunActorIsItsName | src/app/services/validation.py:46-48 | A run's actor is its name unchanged, or an error when it does not fit |
| Text.ValidatedActorIdempotent | src/app/services/validation.py:13-24 | Validating an actor twice changes nothing |
| Text.StripRemovesOuterSpace | src/app/services/validation.py:15 | Stripping removes only spaces, and every one at either end |
| Services.AssignmentService.Assign | src/app/services/assignments.py:70-127 | The in-place assignment yields exactly the row, event, id or error of Services.AssignLicence, whose conditions Services.AssignsExactlyWhenFree gives, and leaves the tables alone on an error |
| Services.AssignsExactlyWhenFree | src/app/services/assignments.py:82-116 | An assignment succeeds if and only if the actor fits, the user exists and is active, the licence exists, the pair holds no seat and fewer seats than the total are taken; each error exactly under its condition, in the fixed order |
| Services.AssignmentAddsOneRow | src/app/services/assignments.py:117-127 | It then adds one active row and one event of the two ids under the actor, takes one more seat, and changes nothing else |
| Services.RevokesExactlyWhenActive | src/app/services/assignments.py:129-162 | A revocation succeeds if and only if the row exists and is active, sets when it was revoked and nothing else, and each error has exactly its condition |
| Services.PersonChangesExactly | src/app/services/assignments.py:70-162 | What each of a person's requests and edits leaves of the tables |
| Services.AssignmentService.Revoke | src/app/services/assignments.py:129-162 | The in-place revocation yields exactly the specified row and event, or error and no change |
| Services.AssignmentService.GetActive | src/app/repositories/assignments.py:49-55 | The loop returns the query's row: found exactly when the pair holds a seat, and then an active row of it |
| Services.AssignmentService.CountActiveForLicence | src/app/repositories/assignments.py:57-62 | The count is the number of rows that use a seat of the licence |
| Services.AssignmentService.ListForUser | src/app/services/assignments.py:167-171 | The listing, or user-not-found exactly for a missing user |
| Services.AssignmentService.SeatUsageOf | src/app/services/assignments.py:180-188 | The licence with its seats in use, or licence-not-found |
| Services.UserService.Create | src/app/services/users.py:55-87 | The in-place creation yields exactly the specified row and event, or the error and no change |
| Services.CreatesUserExactlyWhenFree | src/app/services/users.py:55-87 | A user is created, active and under the normalized email, if and only if email, name and actor fit and the email is free |
| Services.EmailIsValidExactly | src/app/services/users.py:29-42 | An email is valid if and only if its normal form fits and has one "@" with something on either side and no space |
| Services.UserService.GetByEmail | src/app/repositories/users.py:31-34 | A user is found exactly when the email is taken |
| Services.LicenceService.Create | src/app/services/licences.py:57-102 | The in-place creation yields exactly the specified row and event, or the error and no change |
| Services.CreatesLicenceExactlyWhenFree | src/app/services/licences.py:57-102 | A licence is created if and only if name, seats and actor fit and the name is free |
| Services.LicenceService.GetByProduct | src/app/repositories/licences.py:32-35 | A licence is found exactly when the product name is taken, case-sensitively |
| Services.RowsOfUserIsComplete | src/app/repositories/assignments.py:64-71 | A user's listing holds every row of that user, active or revoked, no other, in id order |
| Services.AssignLicenceKeepsSound | src/app/services/assignments.py:82-127 | An assignment keeps seats within totals, one active row a pair, and the audit log replaying to the table |
| Services.RevokeAssignmentKeepsSound | src/app/services/assignments.py:129-162 | A revocation keeps the same |
| Services.HumanTxKeepsSound | src/app/services/assignments.py:70-162 | Anything a person can do keeps the tables sound, refused and rolled-back requests included |
| Services.SeatsAvailableIsExact | src/app/services/assignments.py:57-60 | In a sound store the clamp at zero is never used |
| Tools.ClaimConfirmableIffAttemptBlocked | src/app/agent/verifier.py:47-73 | With the goal not holding, an attempt is blocked if and only if one of the two claims is confirmed, over-filled licences included |
| Tools.ListedSeatIsHeldSeat | src/app/agent/tools.py:223-229 | The listing shown to the model answers exactly the verifier's question |
| Tools.ShownNumbersAreStored | src/app/agent/tools.py:208-222 | The model is shown the user's stored status, and the licence's total, seats taken and their difference |
| Services.ActiveRow | src/app/repositories/assignments.py:49-55 | The verifier's row exists exactly when the pair holds a seat |
| Resolution.ResolvesExactlyWhenNamed | src/app/agent/resolver.py:15-55 | Resolution gives a goal if and only if both texts are valid, the email is a user's, and the licence is the only one the product names |
| Resolution.FailureCodesInPriority | src/app/agent/resolver.py:29-47 | Each failure code exactly under its condition, in the fixed priority invalid, user, none, ambiguous |
| Resolution.GroundedExactlyWhenCopied | src/app/agent/planner.py:92-107 | A text is grounded if and only if it is not blank and, stripped, stands letter by letter somewhere in the instruction, capitals or not |
| Resolution.ValidatedEmailIsNormalized | src/app/services/users.py:29-42 | A valid email is looked up in its normal form |
| Listings.SortedIds | src/app/repositories/licences.py:37-39 | A listing ordered by id holds exactly the ids of the set, each once, ascending |
| Listings.InOrderIsUnique | src/app/repositories/licences.py:37-39 | There is one such listing |
| Resolution.ResolveGoal | src/app/agent/resolver.py:15-55 | The resolver's code, over the services' queries, is the specified resolution |
| Services.UserService.FindByEmail | src/app/services/users.py:98-104 | The one user with the normalized email, or none; an error for an invalid email or for several |
| Services.LicenceService.ListAll | src/app/repositories/licences.py:37-39 | Every licence once, in id order |
| Services.LicenceService.FindByProduct | src/app/services/licences.py:113-132 | Exactly the licences of that name, ignoring case and surrounding space, in id order |
| Tools.EvaluatePolicy | src/app/agent/policy.py:28-36 | The licence's own policy for the mutation, none for a read |
| Tools.VerifyGoal | src/app/agent/verifier.py:27-44 | The verifier's code gives the specified verdict |
| Tools.CheckClaim | src/app/agent/verifier.py:47-73 | The check of a claimed block, by the session's services, is the specified one |
| SqlChecks.RunAcceptedIffShape | src/app/models/agent_run.py:110-188 | A run row passes all the CHECKs in SQL's three-valued logic if and only if it has the intended two-valued shape |
| SqlChecks.RunCheckIsExact | src/app/models/agent_run.py:110-188 | No single CHECK lets a NULL slip through |
| SqlChecks.CallAcceptedIffShape | src/app/models/tool_call.py:46-81 | The same for tool calls |
| SqlChecks.ModelCallAcceptedIffWellFormed | src/app/schemas/agent.py:109-119 | A model call is stored if and only if its record is well formed |
| Databases.Database.Begin | src/app/agent/executor.py:8-32 | A transaction begins only when none is open, on committed state |
| Databases.Database.CommitLog | src/app/agent/executor.py:8-32 | A log commit publishes the work, and needs every CHECK of the run's rows to pass |
| Databases.Database.CommitBusiness | src/app/agent/executor.py:467-484 | A business commit publishes the work, or fails and leaves the committed state |
| Databases.Database.EndRun | src/app/agent/executor.py:590-605 | A run is ended once; ending it again changes nothing and raises |
| Databases.Database.NextSequenceNo | src/app/repositories/agent_runs.py:21-38 | The next number is one more than the last, and is stored |
| Databases.Database.RefuseOverLimit | src/app/agent/executor.py:828-845 | The call is recorded FAILED (step_limit) and the run ended, both or neither |
| Databases.Database.Deny | src/app/agent/executor.py:848-865 | The call is recorded FAILED (policy_denied) and the run ended BLOCKED, both or neither |
| Databases.Database.HoldForApproval | src/app/agent/executor.py:868-875 | The call is recorded held with its arguments and the run paused |
| Executor.AgentExecutor.Run | src/app/agent/executor.py:170-195 | Makes exactly the machine's steps; refuses exactly the invalid requests and then records nothing; whenever it returns normally, and its planner forged no DecisionStopped, the run has ended or is paused |
| Executor.AgentExecutor.ReceiveRun | src/app/agent/executor.py:199-218 | Persists a new RECEIVED run, or refuses and records nothing |
| Executor.AgentExecutor.ExtractIntent | src/app/agent/executor.py:220-251 | Exactly the steps of extraction; the run then has a goal to resolve or has ended |
| Executor.AgentExecutor.EndExtraction | src/app/agent/executor.py:679-731 | Exactly the machine's last transaction of extraction, which Stages.ExtractionIsExact describes, with every CHECK passing |
| Executor.AgentExecutor.ResolveRun | src/app/agent/executor.py:253-289 | Exactly the steps of resolution, with people at work between them; the run may then decide or has ended |
| Executor.AgentExecutor.Decide | src/app/agent/executor.py:293-368 | For any moves of the planner and any end of its loop, exactly the machine's steps, and no transaction open when the planner is asked or answered |
| Executor.AgentExecutor.CallTool | src/app/agent/executor.py:448-515 | The three transactions of a call, by a loop or a kept callback, with people, a database error or a lost outcome between them, are exactly the machine's, and the reply is what the last of them answers |
| Executor.AgentExecutor.StartCall | src/app/agent/executor.py:517-564 | Admission in one transaction is exactly the machine's step, which Calls.AdmissionIsExact describes; stopping means the run has ended or is paused |
| Executor.AgentExecutor.RunIn | src/app/agent/tools.py:164-193 | The tool's service call gives the specified result and change, or the normalized error and no change |
| Executor.AgentExecutor.RunBusiness | src/app/agent/executor.py:470-484 | The business transaction commits the change with its event or rolls both back |
| Executor.AgentExecutor.ReportCall | src/app/agent/executor.py:486-515 | The outcome and its observation are recorded together, or the run is ended with the call |
| Executor.AgentExecutor.RecordCall | src/app/agent/executor.py:653-676 | A model call takes the next number in its own transaction, or is refused and takes none |
| Executor.AgentExecutor.BeforeModelRequest | src/app/agent/executor.py:764-774 | Asked in the loop or later, a request is granted below the limit; at it the run is ended and the planner stopped, or the call raises on an ended run |
| Executor.AgentExecutor.FinishDecision | src/app/agent/executor.py:370-433 | It returns if and only if the run executed and had no unfinished call; its steps are the proposal, the verification read and the end, with people at work around the read, and leave the run ended as Conclusions.OutcomeIsExact says |
| Executor.AgentExecutor.EndDecision | src/app/agent/executor.py:435-444 | A planner's exception ends an executing run; an outcome that already stands is kept |
| Executor.AgentExecutor.Crashed | src/app/agent/executor.py:58-62 | A crash between two transactions leaves every committed row, and the run undecided |
| Executor.AgentExecutor.Person | src/app/services/validation.py:39-43 | A person's request or edit is one transaction, and a reserved actor opens none |
| Executor.CommittedStateIsSound | src/app/agent/executor.py:166-195 | Whatever the executor was made to do, its committed database is sound, its rows accepted, its runs within budget and attribution |
| Stages.ReceivesExactly | src/app/agent/executor.py:199-218 | A request is accepted if and only if the instruction is not blank and at most 2000 characters and the actor fits and is no agent's; it becomes a new RECEIVED run with the instruction as given |
| Stages.StagesStartExactly | src/app/agent/executor.py:220-345 | Extraction, resolution and decision each start if and only if the run waits for them; the decision's start records the context of the goal's two texts |
| Stages.ExtractionIsExact | src/app/agent/executor.py:679-731 | Copied texts become the goal; uncopied texts, a failing planner, an unclear and an unsupported instruction and an exception each end the run under their own status, reason and detail, and nothing else changes |
| Stages.ResolutionIsExact | src/app/agent/executor.py:253-289 | By the state that was read, whatever people do before the last transaction: RESOLVED to the rows the texts name, if and only if they name one user and one licence; otherwise each clarification code exactly under its condition, with its detail, candidates in id order |
| Stages.FailedLookupEndsRun | src/app/agent/executor.py:253-289 | A failing read ends the run FAILED (unexpected_error) |
| Stages.AbortIsExact | src/app/agent/executor.py:435-444 | A planner's exception ends an executing run under its own reason and detail, and leaves any other run alone |
| Calls.RequestIsGrantedBelowSix | src/app/agent/executor.py:764-774 | A request is granted if and only if fewer than six decision requests are recorded; otherwise an open run ends FAILED (step_limit) and an ended one raises |
| Calls.RecordIsStoredAsGiven | src/app/agent/executor.py:653-676 | A record is stored if and only if it is well formed, last and under the next number, as given |
| Calls.AdmissionIsExact | src/app/agent/executor.py:517-564 | A call is admitted from a run that executes and has no unfinished call, and from no other. It is refused over the limit if and only if six reads, or one mutation, of its own kind stand in the trace; otherwise a read starts, and a mutation starts, is denied or is held exactly as the licence's policy is allow, deny or require_approval |
| Calls.ReadsAreExact | src/app/agent/tools.py:164-184 | A read answers with the stored user, the licence's numbers or all of the user's rows and no other, or with its missing row, and writes nothing |
| Calls.AssignmentIsExact | src/app/agent/executor.py:464-484 | A mutation takes the seat, with its event under the run's own name, if and only if one may be taken; otherwise nothing is written and each error has exactly its condition |
| Calls.FaultsWriteNothing | src/app/agent/executor.py:481-484 | A fault of the database writes nothing and is recorded as an unexpected error |
| Calls.ObservationIsExact | src/app/agent/tools.py:196-233 | What the model is shown of each outcome; an error is shown if and only if it is the mutation's rejection by one of three rules |
| Calls.ReportIsExact | src/app/agent/executor.py:486-515 | The outcome is recorded with its call, as it was, with what is shown of it; the planner is answered exactly that, or is stopped and the run ends FAILED (tool_failed) |
| Conclusions.ConcludesExactlyWhenSettled | src/app/agent/executor.py:370-389 | A conclusion is accepted if and only if the run executes and has no unfinished call, whatever it called before; it is recorded and the run is VERIFYING |
| Conclusions.OutcomeIsExact | src/app/agent/executor.py:391-433 | By the state that verification read, whatever people do around it: COMPLETED if and only if the goal's user held the goal's seat, satisfied by the run itself if and only if its change committed; BLOCKED if and only if not held and the attempt was rejected by that rule, or else the claimed condition was so; otherwise FAILED (verification_failed); with the evidence that was read |
| Conclusions.FailedReadEndsRun | src/app/agent/executor.py:394-408 | A failing verification read ends the run FAILED (unexpected_error) |
| Endings.EndingsHaveCauses | src/app/agent/executor.py:590-605 | In every history, each stored reason goes back to a step of the run that can give it, and the detail says what that step carried: an unclear, unsupported or failed extraction with the planner's own code, the limit that was met, the exception that was raised |
| Schedules.HaltedStays | src/app/agent/executor.py:341-368 | A run that has ended or is paused has still ended or is paused after any further steps |
| Decisions.RunsToolsExactly | src/app/agent/pydantic_ai_decision.py:98-132 | A response runs tools if and only if it has tool calls and all are bare calls of known tools, and it runs those in order |
| Decisions.ConcludesExactly | src/app/agent/pydantic_ai_decision.py:111-121 | A response concludes if and only if its one tool call is a proposal that says nothing else |
| Decisions.ParsesBareCalls | src/app/agent/pydantic_ai_decision.py:122-141 | The calls are accepted as tools exactly when each is a bare call |
| Decisions.IntendsExactly | src/app/agent/pydantic_ai_planner.py:85-123 | An extraction is accepted if and only if it is the response's one tool call, says an allowed result and nothing else, and its texts stand in the instruction |
| Outputs.ReadsExactlyDumps | src/app/schemas/agent_runs.py:138-148 | Recorded fields are read back as an output if and only if they are what that output is recorded as |
| Requests.ShippedRecordsAreReadable | src/app/agent/model_requests.py:113-171 | Whatever the provider answers, both planners record only outputs that can be read back |
| Requests.WrapRequest | src/app/agent/model_requests.py:113-171 | A request is made exactly when the limit allows it and then recorded exactly once, whatever came of it |
| Requests.DriveModel | src/app/agent/pydantic_ai_decision.py:177-203 | The loop ends for any provider, by requests left and then tools pending; its moves are whole rounds, a check, a record and then exactly the tools that the response asked for in order, up to the move where it ended, and how it ended follows from the answer to that move; it makes no more requests than are left, each recorded but one that the table refuses |
| Requests.ToolsRunAsAsked | src/app/agent/pydantic_ai_decision.py:132-203 | After each recorded response come the tools it asked for, in order: all of them before the next check, unless the loop ended at one |
| Requests.RecordSaysWhatWasAnswered | src/app/agent/model_requests.py:113-171 | A request's record holds the model, the time, the tokens and the accepted output, which reads back as what the response parsed to, or why there is none |
| Requests.DecideWithModel | src/app/agent/decision.py:25-32 | A decision's requests are those among its moves, each adding a recorded row unless the table refuses it, which ends the loop, and with the rows recorded before never more than 6; its moves and its ending are those of the loop; it proposes only what its last response concluded; when it returns normally the run has ended or is paused |
| Requests.OthersRequestNothing | src/app/repositories/model_calls.py:18-23 | Only recording changes the number of requests counted |
| Migrations.Stored0006 | alembic/versions/0007_policy_checks.py:64-132 | Revision 0006 stores exactly the run rows of 0007 that the guard lets through |
| Migrations.CallStored0006 | alembic/versions/0007_policy_checks.py:134-170 | The same for tool calls |
| Migrations.Stored0004 | alembic/versions/0005_decision_stage.py:59-129 | Revision 0004 stores exactly the run rows of 0005 that the guard lets through; a missing proposal forces a missing reason code |
| Migrations.Schema.Upgrade0007 | alembic/versions/0007_policy_checks.py:181-198 | Every row is kept, fits the new CHECKs, and agent_runs is rebuilt on SQLite only with both trace tables empty |
| Migrations.Schema.Downgrade0007 | alembic/versions/0007_policy_checks.py:201-236 | Refused exactly while some row holds policy data, changing nothing; otherwise every row is kept and fits the older CHECKs |
| Migrations.Schema.Upgrade0005 | alembic/versions/0005_decision_stage.py:132-160 | Every row is kept and the new columns start NULL |
| Migrations.Schema.Downgrade0005 | alembic/versions/0005_decision_stage.py:163-202 | Refused exactly while some run holds decision data, changing nothing; otherwise every row is kept |
| Migrations.Schema.UpThenDown0007 | alembic/versions/0007_policy_checks.py:181-236 | Upgrading and then downgrading is never refused and gives back the database it started from |
| Migrations.Schema.DownThenUp0007 | alembic/versions/0007_policy_checks.py:181-236 | Downgrading, refused exactly on policy data, and upgrading again gives back the database it started from |
| Migrations.Schema.UpThenDown0005 | alembic/versions/0005_decision_stage.py:132-202 | The same for 0005 |
| Migrations.Schema.DownThenUp0005 | alembic/versions/0005_decision_stage.py:132-202 | The same for 0005, refused exactly on decision data |
| Migrations.Schema.SetAside | alembic/versions/0007_policy_checks.py:46-53 | On SQLite both trace tables are emptied and their listed columns kept aside; elsewhere nothing happens |
| Migrations.Schema.PutBack | alembic/versions/0007_policy_checks.py:55-59 | Rows go back only if each fits its table and refers to a run |
| Migrations.Schema.AlterRuns | alembic/versions/0005_decision_stage.py:32-56 | agent_runs is altered only when every row fits and, on SQLite, no trace row exists |
| Migrations.ReplaceChecks | alembic/versions/0007_policy_checks.py:173-178 | Each listed check has the other text afterwards, and no other check changes |
| Migrations.RunChecksOf0007 | alembic/versions/0007_policy_checks.py:64-133 | The dictionary leads from one schema to the other and back |
| Migrations.CallChecksOf0007 | alembic/versions/0007_policy_checks.py:134-170 | The same for tool calls, new checks included |
| Migrations.RunChecksOf0005 | alembic/versions/0005_decision_stage.py:109-129 | The same for 0005 |
| Migrations.RunFitsAt | alembic/versions/0007_policy_checks.py:62-133 | A schema's rows are exactly those its revision accepts |
| Projection.ViewAccountsForOutcome | src/app/schemas/agent_runs.py:239-342 | The summary of every run the executor wrote can be shown, and the whole view if and only if every recorded output is a member of the union; the view then has a refining code exactly for the reasons that have one, says COMPLETED exactly if it found the goal holding, and BLOCKED (policy apart) exactly if it shows a rejection or a confirmed claim, for that reason |
| Projection.ShippedPlannersCanBeShown | src/app/schemas/agent_runs.py:175-190 | With the application's own planners the whole view of every run can be shown |
| Projection.TraceIsShown | src/app/schemas/agent_runs.py:184-188 | A trace is shown, entry by entry, if and only if each of its entries can be |
| Projection.ViewShowsNoId | src/app/schemas/agent_runs.py:1-13 | The public view is the same under any user and licence ids |
| Projection.ViewShowsWhatIsStored | src/app/schemas/agent_runs.py:151-342 | The instruction, actor, goal's texts, context, refining code and verification are the stored columns, and every row of both trace tables stands under its own number with its own status, policy, error code, observation or output |
| Projection.ViewTraceIsNumbered | src/app/schemas/agent_runs.py:248-253 | The view's trace shows entry i under number i + 1 |
| Projection.HistoryFits | src/app/schemas/agent_runs.py:305-342 | In every history a run carries the detail that its outcome's projection reads |

## Left out

- HTTP routers, dependency injection, settings and the health check: transport only.
- PydanticAI, the provider and their retry scheduling are not part of this model: a provider answers each request in any way, and says itself when its library gives up on rejected answers.
- SQLAlchemy's session, flush and identity map: a transaction is one atomic change of the committed database or none.
- Concurrent callers on one run, and concurrent seat checks, which the code disclaims: steps on one run are serial, so a kept recorder asks for a request, and a kept callback calls a tool, only while none of the executor's own methods stands between two transactions of the run; and a business transaction sees committed state alone.
- A commit whose outcome the client cannot learn: a failed business commit has rolled back.
- Row ids are positions in their tables counted from 0, except for users and licences; a run's trace rows are kept with the run, which stands for their foreign key and for the per-table uniqueness of numbers.
- Error messages, timestamps beyond set or unset, latencies beyond their sign, and prompt texts; a decision context stands for the pair of texts it is built from, and an observation for its exact serialized text.
- Text.Fold: folds ASCII letters only, for both lower() and casefold(), so that a fold never changes a string's length.
- Executor.AgentExecutor.CallTool: people act between its transactions, but other runs' steps and a crash appear only in the machine's histories, which the guarantees are about.
- Executor.AgentExecutor.Person: an edit of a policy or a status, which no endpoint offers, is applied as specified; the database's choice of a new id is given with the request.
- Migrations.Schema.AlterRuns: checks are tested when the batch ends, for databases that alter tables in place too, where each is tested as it is created.
- Migrations 0001 to 0004 and 0006: they create tables or one column.
- Uniqueness of audit rows, indexes and the string lengths of columns other than a tool call's status.
- An extraction's recorder may record from the run's creation on, which allows more histories than the code has.
- The extraction planner's loop over responses: its parser and its records are modelled.
