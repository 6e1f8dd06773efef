/** The executor as a machine whose steps are single transactions. A run's
    frame says where the executor's methods stand on that run between two
    transactions; a step that its frame does not allow changes nothing. Steps
    of different runs and of people interleave freely; those of one run are
    serial. */
module Machine {
  import opened Basics
  import opened Text
  import opened Domain
  import opened AgentRows
  import opened SqlChecks
  import opened Services
  import opened Resolution
  import opened Tools

  const INSTRUCTION_MAX_LENGTH := 2000

  // --- queries on one run's rows --------------------------------------------------

  predicate AnyStarted(calls: seq<ToolCall>) {
    exists i :: 0 <= i < |calls| && calls[i].status == Started
  }

  predicate AnyMutationSucceeded(calls: seq<ToolCall>) {
    exists i :: 0 <= i < |calls| && calls[i].tool.Mutates() && calls[i].status == Succeeded
  }

  /** How many calls of a kind are recorded, whatever their outcome. */
  function CountCalls(calls: seq<ToolCall>, mutates: bool): nat {
    if calls == [] then 0
    else CountCalls(calls[..|calls| - 1], mutates) + if calls[|calls| - 1].tool.Mutates() == mutates then 1 else 0
  }

  function CountStage(models: seq<ModelCall>, stage: Stage): nat {
    if models == [] then 0
    else CountStage(models[..|models| - 1], stage) + if models[|models| - 1].stage == stage then 1 else 0
  }

  /** The latest recorded mutation, in trace order. */
  function LatestMutation(calls: seq<ToolCall>): (i: Option<nat>)
    ensures i.Some? ==> i.value < |calls| && calls[i.value].tool.Mutates()
    ensures i.Some? ==> forall j | i.value < j < |calls| :: !calls[j].tool.Mutates()
    ensures i.None? ==> forall j | 0 <= j < |calls| :: !calls[j].tool.Mutates()
  {
    if calls == [] then None
    else if calls[|calls| - 1].tool.Mutates() then Some(|calls| - 1)
    else LatestMutation(calls[..|calls| - 1])
  }

  function RefOf(id: nat, call: ToolCall): CallRef {
    CallRef(id, call.seqNo, call.tool, call.error)
  }

  /** The blocking reason recorded for the latest mutation, if it was rejected by a blocking rule. */
  function BlockingRejection(calls: seq<ToolCall>): Option<Reason> {
    match LatestMutation(calls)
    case None => None
    case Some(i) =>
      if calls[i].status == CallFailed && calls[i].error.Some? then BlockingReason(calls[i].error.value.code) else None
  }

  function RejectedCall(calls: seq<ToolCall>): Option<CallRef> {
    if BlockingRejection(calls).None? then None
    else
      var i := LatestMutation(calls).value;
      Some(RefOf(i, calls[i]))
  }

  function PersistedGoal(run: AgentRun): Option<Goal> {
    if run.email.Some? && run.product.Some? && run.userId.Some? && run.licenceId.Some?
    then Some(Goal(run.userId.value, run.licenceId.value, run.email.value, run.product.value))
    else None
  }

  predicate AwaitingExtraction(run: AgentRun) {
    run.status == Received && !(run.email.Some? && run.product.Some?)
  }

  // --- log transactions -------------------------------------------------------------

  /** `_end`: a run that has ended stays ended, and ending it again raises. */
  function End(run: AgentRun, status: RunStatus, reason: Reason, detail: Detail): Option<AgentRun> {
    if run.completed then None
    else Some(run.(status := status, reason := Some(reason), detail := Some(detail), completed := true))
  }

  /** A log transaction that changes the run's row, or raises and rolls back. */
  function WithRun(rec: RunRec, run: Option<AgentRun>): RunRec {
    match run case None => rec case Some(after) => rec.(run := after)
  }

  function NewRun(instruction: string, actor: string): RunRec {
    RunRec(AgentRun(instruction, actor, Received, None, None, None, None, None, None, None, None, 0, None, None, None, false),
           [], [])
  }

  datatype Intent =
    | Ensure(email: string, product: string)
    | Unclear(code: string)
    | Unsupported(code: string)
    | Failing(code: string, errorType: Option<string>)
    | Throwing(thrown: string)

  /** The last transaction of `extract_intent`. */
  function ExtractTx(rec: RunRec, outcome: Intent): RunRec {
    var run := rec.run;
    if outcome.Throwing? then
      WithRun(rec, End(run, RunStatus.Failed, UnexpectedFailure, UnexpectedDetail("extraction", outcome.thrown)))
    else if !AwaitingExtraction(run) then rec
    else WithRun(rec, match outcome
      case Ensure(email, product) =>
        var missing := UngroundedFields(email, product, run.instruction);
        if missing != [] then
          End(run, RunStatus.Failed, PlannerFailed, PlannerDetail(Extraction, "ungrounded_output", None, missing))
        else Some(run.(goalType := Some(EnsureAssignment), desiredState := Some(DesiredAssigned),
                       email := Some(email), product := Some(product)))
      case Unclear(code) => End(run, NeedsClarification, InstructionUnclear, CodeDetail(code))
      case Unsupported(code) => End(run, NeedsClarification, UnsupportedRequest, CodeDetail(code))
      case Failing(code, errorType) =>
        End(run, RunStatus.Failed, PlannerFailed, PlannerDetail(Extraction, code, errorType, [])))
  }

  /** The last transaction of `resolve_run`; an error is the exception's type. */
  function ResolveTx(rec: RunRec, found: Result<Resolution, string>): RunRec {
    var run := rec.run;
    WithRun(rec, match found
      case Err(thrown) => End(run, RunStatus.Failed, UnexpectedFailure, UnexpectedDetail("resolution", thrown))
      case Ok(Unresolved(code, detail)) => End(run, NeedsClarification, code, detail)
      case Ok(ResolvedTo(goal)) =>
        Some(run.(userId := Some(goal.userId), licenceId := Some(goal.licenceId), status := Resolved)))
  }

  /** The first transaction of `decide`, or None if it raises. */
  function BeginDecideTx(rec: RunRec): Option<RunRec> {
    var run := rec.run;
    if run.status != Resolved || PersistedGoal(run).None? then None
    else
      var goal := PersistedGoal(run).value;
      Some(rec.(run := run.(context := Some(Context(goal.email, goal.product)), status := Executing)))
  }

  /** What the executor answers a planner that called it. */
  datatype Reply = Silent | Granted | Recorded | Shown(observation: Observation) | Stopped | Refused | Raised

  /** `record`: the call takes the run's next trace position. A record the table
      refuses raises, and takes no position. */
  function RecordTx(rec: RunRec, stage: Stage, record: ModelRecord): (RunRec, Reply) {
    var seqNo := rec.run.lastSeq + 1;
    var call := ModelCall(seqNo, stage, record.error.None?, record);
    if ModelCallAccepted(call)
    then (rec.(run := rec.run.(lastSeq := seqNo), models := rec.models + [call]), Recorded)
    else (rec, Raised)
  }

  /** Whether a recorder for the stage may have been given out. `record` itself
      asks nothing of the run, wherever it stands and even once it has ended. */
  predicate HasRecorder(run: AgentRun, stage: Stage) {
    stage.Extraction? || run.context.Some?
  }

  function LimitEnd(run: AgentRun, limit: Limit, maximum: int): Option<AgentRun> {
    End(run, RunStatus.Failed, StepLimit, LimitDetail(limit, maximum))
  }

  function BeforeRequestTx(rec: RunRec): (RunRec, Reply) {
    if CountStage(rec.models, Decision) < MAX_DECISION_MODEL_REQUESTS then (rec, Granted)
    else match LimitEnd(rec.run, ModelRequests, MAX_DECISION_MODEL_REQUESTS)
      case None => (rec, Refused)
      case Some(run) => (rec.(run := run), Stopped)
  }

  datatype Admission = Started_(call: nat, goal: Goal) | Ended(reply: Reply)

  /** `_start_call`: admit the call, or record why it was refused, denied or
      held and end or pause the run. */
  function AdmitTx(b: Store, rec: RunRec, tool: Tool): (RunRec, Admission) {
    var run := rec.run;
    if run.status != Executing || AnyStarted(rec.calls) || PersistedGoal(run).None? then (rec, Ended(Refused))
    else
      var goal := PersistedGoal(run).value;
      var numbered := run.(lastSeq := run.lastSeq + 1);
      var call := ToolCall(numbered.lastSeq, tool, ArgumentsOf(tool, goal), Started, None, None, None, None, false);
      if CountCalls(rec.calls, tool.Mutates()) >= MaxCalls(tool.Mutates()) then
        var refused := call.(status := CallFailed, error := Some(ToolError(CodeStepLimit)), completed := true);
        var limit := if tool.Mutates() then MutationCalls else ReadCalls;
        match LimitEnd(numbered, limit, MaxCalls(tool.Mutates()))
          case None => (rec, Ended(Refused))
          case Some(ended) => (rec.(run := ended, calls := rec.calls + [refused]), Ended(Stopped))
      else
        match Evaluate(b, tool, goal)
        case Err(_) => (rec, Ended(Raised))
        case Ok(policy) =>
          var decided := call.(policy := policy);
          match policy
          case Some(Deny) =>
            var denied := decided.(status := CallFailed, error := Some(ToolError(CodePolicyDenied)), completed := true);
            (match End(numbered, Blocked, PolicyDenied, CallDetail(RefOf(|rec.calls|, denied)))
             case None => (rec, Ended(Refused))
             case Some(ended) => (rec.(run := ended, calls := rec.calls + [denied]), Ended(Stopped)))
          case Some(RequireApproval) =>
            (rec.(run := numbered.(status := AwaitingApproval), calls := rec.calls + [decided.(status := Held)]),
             Ended(Stopped))
          case _ =>
            (rec.(run := numbered, calls := rec.calls + [decided]), Started_(|rec.calls|, goal))
  }

  /** The last transaction of `call_tool`. */
  function ReportTx(rec: RunRec, id: nat, tool: Tool, goal: Goal, outcome: Result<ToolOutput, ToolError>): (RunRec, Reply) {
    if id >= |rec.calls| then (rec, Raised)
    else
      var shown := Observe(tool, goal, outcome);
      var call := rec.calls[id].(completed := true, observation := shown);
      match outcome
      case Ok(output) =>
        var done := call.(status := Succeeded, result := Some(output));
        (rec.(calls := rec.calls[id := done]), if shown.Some? then Shown(shown.value) else Stopped)
      case Err(error) =>
        var failed := call.(status := CallFailed, error := Some(error));
        if shown.Some? then (rec.(calls := rec.calls[id := failed]), Shown(shown.value))
        else match End(rec.run, RunStatus.Failed, ToolFailed, CallDetail(RefOf(id, failed)))
          case None => (rec, Refused)
          case Some(ended) => (rec.(run := ended, calls := rec.calls[id := failed]), Stopped)
  }

  /** The transaction that records the model's proposal, or None if it raises. */
  function ConcludeTx(rec: RunRec, proposal: Proposal): Option<RunRec> {
    var run := rec.run;
    if run.status != Executing || AnyStarted(rec.calls) || PersistedGoal(run).None? then None
    else Some(rec.(run := run.(proposal := Some(KindOf(proposal)),
                               claim := if proposal.CannotProceed? then Some(proposal.why) else run.claim,
                               status := Verifying)))
  }

  /** What verification reads: the verdict, and the check of a claimed block. */
  function VerifyRead(b: Store, goal: Goal, proposal: Proposal): Result<(Verdict, Option<BlockCheck>), string> {
    var verdict := Verify(b, goal);
    if !verdict.satisfied && proposal.CannotProceed? then
      match CheckBlock(b, goal, proposal.why)
      case Err(e) => Err(if e.UserNotFound? then "UserNotFound" else "LicenceNotFound")
      case Ok(check) => Ok((verdict, Some(check)))
    else Ok((verdict, None))
  }

  /** The transaction that ends a verified run. */
  function FinishTx(
    rec: RunRec, proposal: Proposal, changed: bool, rejection: Option<Reason>, rejected: Option<CallRef>,
    checked: Result<(Verdict, Option<BlockCheck>), string>): RunRec
  {
    WithRun(rec, match checked
      case Err(thrown) => End(rec.run, RunStatus.Failed, UnexpectedFailure, UnexpectedDetail("verification", thrown))
      case Ok((verdict, check)) =>
        var confirmed := check.Some? && check.value.confirmed;
        var outcome := DecisionOutcome(proposal, verdict.satisfied, changed, rejection, confirmed);
        End(rec.run, outcome.0, outcome.1, VerdictDetail(verdict, rejected, check)))
  }

  /** How a decision loop can stop without a proposal, other than by DecisionStopped. */
  datatype Abort = PlannerError(code: string, errorType: Option<string>) | Thrown(thrown: string)

  /** `_end_decision`: a tool call may have ended the run already; that stands. */
  function AbortTx(rec: RunRec, why: Abort): RunRec {
    if rec.run.status != Executing then rec
    else WithRun(rec, match why
      case PlannerError(code, errorType) =>
        End(rec.run, RunStatus.Failed, PlannerFailed, PlannerDetail(Decision, code, errorType, []))
      case Thrown(thrown) =>
        End(rec.run, RunStatus.Failed, UnexpectedFailure, UnexpectedDetail("decision", thrown)))
  }

  // --- the business transaction -----------------------------------------------------------

  /** The service call: committed with its audit event, or rolled back. A fault
      is an error of the database or of the commit itself. */
  function BusinessTx(b: Store, r: nat, tool: Tool, goal: Goal, fault: bool): (Store, Result<ToolOutput, ToolError>) {
    if fault then (b, Err(ToolErrorOf(Unexpected("OperationalError"))))
    else match RunTool(b, tool, goal, r)
      case Err(e) => (b, Err(ToolErrorOf(e)))
      case Ok((output, after)) => (after, Ok(output))
  }

  // --- steps --------------------------------------------------------------------------------

  /** Where the executor stands on a run between two transactions. */
  datatype Frame =
    | Idle
    | Extracting
    | Resolving(email: string, product: string)
    | Looked(found: Result<Resolution, string>)
    | Deciding
    | Admitted(call: nat, tool: Tool, goal: Goal, kept: bool)  // kept: by a callback kept after the loop
    | Ran(call: nat, tool: Tool, goal: Goal, outcome: Result<ToolOutput, ToolError>, kept: bool)
    | Concluded(proposal: Proposal, goal: Goal, changed: bool, rejection: Option<Reason>, rejected: Option<CallRef>)
    | Checked(proposal: Proposal, changed: bool, rejection: Option<Reason>, rejected: Option<CallRef>,
              checked: Result<(Verdict, Option<BlockCheck>), string>)

  /** Whether a planner may call back on the run: from its loop, or later, when
      no method of the executor stands on the run, by the recorder or the tool
      callback that it was given and kept. */
  predicate MayCallBack(run: AgentRun, f: Frame) {
    f.Deciding? || (f.Idle? && HasRecorder(run, Decision))
  }

  /** Where a call returns to. */
  function Back(kept: bool): Frame {
    if kept then Idle else Deciding
  }

  datatype RunEvent =
    | BeginExtract
    | Record(stage: Stage, record: ModelRecord)  // by a recorder that a planner was given, and may keep
    | EndExtract(outcome: Intent)
    | BeginResolve
    | Lookup(fault: bool)
    | EndResolve
    | BeginDecide
    | BeforeRequest  // likewise
    | Admit(tool: Tool)  // by a tool callback, kept or not
    | Business(fault: bool)
    | Report
    | Conclude(proposal: Proposal)
    | VerifyNow(fault: bool)
    | Finish
    | AbortDecision(why: Abort)
    | StopDecision  // the planner raised DecisionStopped, its own or the executor's
    | Interrupt     // an exception between two transactions of a call reaches its caller
    | Die           // the executor's method is left: the process ends, or an exception escapes

  datatype After = After(store: Store, rec: RunRec, frame: Frame, reply: Reply)

  function RunStep(b: Store, r: nat, rec: RunRec, f: Frame, e: RunEvent): After {
    var same := After(b, rec, f, Silent);
    match e
    case Die => After(b, rec, Idle, Silent)
    case BeginExtract =>
      if f.Idle? && AwaitingExtraction(rec.run) then After(b, rec, Extracting, Silent) else same
    case Record(stage, record) =>
      if HasRecorder(rec.run, stage) then
        var (after, reply) := RecordTx(rec, stage, record);
        After(b, after, f, reply)
      else same
    case EndExtract(outcome) =>
      if f.Extracting? then After(b, ExtractTx(rec, outcome), Idle, Silent) else same
    case BeginResolve =>
      if f.Idle? && rec.run.status == Received && rec.run.email.Some? && rec.run.product.Some?
      then After(b, rec, Resolving(rec.run.email.value, rec.run.product.value), Silent)
      else same
    case Lookup(fault) =>
      if f.Resolving? then
        var found := if fault then Err("OperationalError")
                     else match Resolve(b, f.email, f.product)
                       case Ok(resolution) => Ok(resolution)
                       case Err(_) => Err("MultipleResultsFound");
        After(b, rec, Looked(found), Silent)
      else same
    case EndResolve =>
      if f.Looked? then After(b, ResolveTx(rec, f.found), Idle, Silent) else same
    case BeginDecide =>
      if f.Idle? && BeginDecideTx(rec).Some? then After(b, BeginDecideTx(rec).value, Deciding, Silent) else same
    case BeforeRequest =>
      if MayCallBack(rec.run, f) then
        var (after, reply) := BeforeRequestTx(rec);
        After(b, after, f, reply)
      else same
    case Admit(tool) =>
      if MayCallBack(rec.run, f) then
        var (after, admission) := AdmitTx(b, rec, tool);
        match admission
        case Started_(call, goal) => After(b, after, Admitted(call, tool, goal, f.Idle?), Silent)
        case Ended(reply) => After(b, after, f, reply)
      else same
    case Business(fault) =>
      if f.Admitted? then
        var (after, outcome) := BusinessTx(b, r, f.tool, f.goal, fault);
        After(after, rec, Ran(f.call, f.tool, f.goal, outcome, f.kept), Silent)
      else same
    case Report =>
      if f.Ran? then
        var (after, reply) := ReportTx(rec, f.call, f.tool, f.goal, f.outcome);
        After(b, after, Back(f.kept), reply)
      else same
    case Interrupt =>
      if f.Admitted? || f.Ran? then After(b, rec, Back(f.kept), Raised) else same
    case Conclude(proposal) =>
      if f.Deciding? then
        match ConcludeTx(rec, proposal)
        case None => After(b, rec, Idle, Refused)
        case Some(after) =>
          After(b, after, Concluded(proposal, PersistedGoal(rec.run).value, AnyMutationSucceeded(rec.calls),
                                    BlockingRejection(rec.calls), RejectedCall(rec.calls)), Silent)
      else same
    case VerifyNow(fault) =>
      if f.Concluded? then
        var checked := if fault then Err("OperationalError") else VerifyRead(b, f.goal, f.proposal);
        After(b, rec, Checked(f.proposal, f.changed, f.rejection, f.rejected, checked), Silent)
      else same
    case Finish =>
      if f.Checked? then After(b, FinishTx(rec, f.proposal, f.changed, f.rejection, f.rejected, f.checked), Idle, Silent)
      else same
    case AbortDecision(why) =>
      if f.Deciding? then After(b, AbortTx(rec, why), Idle, Silent) else same
    case StopDecision =>
      if f.Deciding? then After(b, rec, Idle, Silent) else same
  }

  datatype Event = Receive(instruction: string, actor: string) | On(r: nat, e: RunEvent) | Human(step: HumanStep)

  /** The committed database, and the executor's frame on each run. */
  datatype State = State(db: Db, frames: seq<Frame>) {
    predicate Has(r: nat) { r < |db.runs| && r < |frames| }
  }

  /** The actor stored for a request, or None if the request is refused. */
  function ValidatedRequest(instruction: string, actor: string): Option<string> {
    if Reserved(actor) || ValidatedActor(actor).Err? then None
    else if Strip(instruction) == [] || |instruction| > INSTRUCTION_MAX_LENGTH then None
    else Some(ValidatedActor(actor).value)
  }

  function Step(s: State, e: Event): State {
    match e
    case Receive(instruction, actor) =>
      (match ValidatedRequest(instruction, actor)
       case None => s
       case Some(name) => State(s.db.(runs := s.db.runs + [NewRun(instruction, name)]), s.frames + [Idle]))
    case On(r, event) =>
      if !s.Has(r) then s
      else
        var after := RunStep(s.db.store, r, s.db.runs[r], s.frames[r], event);
        State(Db(after.store, s.db.runs[r := after.rec]), s.frames[r := after.frame])
    case Human(step) => s.(db := s.db.(store := HumanTx(s.db.store, step)))
  }

  /** The state after a history that starts with an empty database. */
  function StateAfter(events: seq<Event>): State {
    if events == [] then State(Db(EMPTY_STORE, []), [])
    else Step(StateAfter(events[..|events| - 1]), events[|events| - 1])
  }

  function Play(s: State, events: seq<Event>): State
    decreases |events|
  {
    if events == [] then s else Play(Step(s, events[0]), events[1..])
  }
}
