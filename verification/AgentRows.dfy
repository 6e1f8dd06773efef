/** The agent's own tables: a run, its tool calls and its model calls, and the
    values stored in them. */
module AgentRows {
  import opened Basics
  import opened Domain

  datatype RunStatus =
    | Received
    | Resolved
    | Executing
    | AwaitingApproval
    | Verifying
    | Completed
    | NeedsClarification
    | Blocked
    | Failed

  datatype Reason =
    | GoalSatisfied
    | AlreadySatisfied
    | UnsupportedRequest
    | InstructionUnclear
    | InvalidRequest
    | UnknownUser
    | UnknownLicence
    | LicenceAmbiguous
    | NoSeats
    | InactiveUser
    | PolicyDenied
    | PlannerFailed
    | GoalScopeViolation
    | ToolFailed
    | VerificationFailed
    | StepLimit
    | UnexpectedFailure

  datatype GoalType = EnsureAssignment

  datatype DesiredState = DesiredAssigned

  datatype CannotProceedReason = ClaimNoSeats | ClaimUserInactive

  /** How a decision model concludes: its opinion, never the outcome. */
  datatype Proposal = GoalReached | NoActionNeeded | CannotProceed(why: CannotProceedReason)

  datatype ProposalKind = KindGoalReached | KindNoActionNeeded | KindCannotProceed

  /** The goal a run executes and is verified against. */
  datatype Goal = Goal(userId: int, licenceId: int, email: string, product: string)

  /** The four tools a decision model can call. Only `AssignSeat` changes anything. */
  datatype Tool = GetUser | GetCapacity | ListAssignments | AssignSeat {
    predicate Mutates() { AssignSeat? }
  }

  /** The row ids a call acts on, as recorded with it. */
  datatype Arguments = Arguments(userId: Option<int>, licenceId: Option<int>)

  datatype AssignmentView = AssignmentView(id: nat, userId: int, licenceId: int, active: bool, revokedAt: Option<int>)

  /** A tool's internal result: may carry row ids. */
  datatype ToolOutput =
    | UserOutput(userId: int, email: string, name: string, status: UserStatus)
    | CapacityOutput(licenceId: int, product: string, total: int, active: int, available: int)
    | ListOutput(userId: int, rows: seq<AssignmentView>)
    | AssignedOutput(row: AssignmentView)

  datatype ErrorCode =
    | CodeInvalidInput
    | CodeUserNotFound
    | CodeLicenceNotFound
    | CodeAlreadyExists
    | CodeNoSeats
    | CodeUserInactive
    | CodeDomainError
    | CodeUnexpected
    | CodeStepLimit
    | CodePolicyDenied

  datatype ToolError = ToolError(code: ErrorCode)

  datatype Rejection = ShownNoSeats | ShownInactive | ShownAlreadyAssigned

  /** What the model is shown of a call: closed, and without any row id. */
  datatype Observation =
    | SawUser(status: UserStatus)
    | SawCapacity(total: int, active: int, available: int)
    | SawSeat(holds: bool)
    | SawAssigned
    | SawRejected(why: Rejection)

  datatype CallStatus = Held | Started | Succeeded | CallFailed

  datatype ToolCall = ToolCall(
    seqNo: int,
    tool: Tool,
    args: Arguments,
    status: CallStatus,
    policy: Option<Policy>,
    result: Option<ToolOutput>,
    error: Option<ToolError>,
    observation: Option<Observation>,
    completed: bool)

  /** The part of a call that a run's outcome detail repeats. */
  datatype CallRef = CallRef(callId: nat, seqNo: int, tool: Tool, error: Option<ToolError>)

  datatype Stage = Extraction | Decision

  /** A JSON value, as far as any recorded or parsed field needs it. */
  datatype Json = Text(text: string) | Texts(list: seq<string>) | OtherJson

  datatype ModelRecord = ModelRecord(
    model: string,
    inputTokens: Option<int>,
    outputTokens: Option<int>,
    latency: int,
    output: Option<map<string, Json>>,
    error: Option<string>)

  datatype ModelCall = ModelCall(
    seqNo: int,
    stage: Stage,
    succeeded: bool,
    rec: ModelRecord)

  datatype Limit = ModelRequests | ReadCalls | MutationCalls

  datatype BlockCheck = BlockCheck(
    claim: CannotProceedReason, confirmed: bool, user: Option<ToolOutput>, licence: Option<ToolOutput>)

  datatype Verdict = Verdict(satisfied: bool, userId: int, licenceId: int, found: Option<AssignmentView>)

  datatype Field = FieldUserEmail | FieldProduct

  datatype Detail =
    | InputDetail
    | UserDetail(email: string)
    | LicenceDetail(product: string)
    | AmbiguousDetail(product: string, candidates: seq<string>)
    | CodeDetail(reasonCode: string)
    | PlannerDetail(stage: Stage, code: string, errorType: Option<string>, fields: seq<Field>)
    | LimitDetail(limit: Limit, maximum: int)
    | CallDetail(call: CallRef)
    | VerdictDetail(verdict: Verdict, rejection: Option<CallRef>, blockCheck: Option<BlockCheck>)
    | UnexpectedDetail(during: string, thrown: string)

  /** What the decision model is told first: text made of the goal's words. */
  datatype Context = Context(email: string, product: string)

  datatype AgentRun = AgentRun(
    instruction: string,
    requestingActor: string,
    status: RunStatus,
    goalType: Option<GoalType>,
    desiredState: Option<DesiredState>,
    email: Option<string>,
    product: Option<string>,
    userId: Option<int>,
    licenceId: Option<int>,
    reason: Option<Reason>,
    detail: Option<Detail>,
    lastSeq: int,
    context: Option<Context>,
    proposal: Option<ProposalKind>,
    claim: Option<CannotProceedReason>,
    completed: bool)

  /** A run with the rows of both trace tables that refer to it. */
  datatype RunRec = RunRec(run: AgentRun, calls: seq<ToolCall>, models: seq<ModelCall>)

  datatype Db = Db(store: Store, runs: seq<RunRec>)

  function KindOf(p: Proposal): ProposalKind {
    match p
    case GoalReached => KindGoalReached
    case NoActionNeeded => KindNoActionNeeded
    case CannotProceed(_) => KindCannotProceed
  }

  function ViewOf(id: nat, a: Assignment): AssignmentView {
    AssignmentView(id, a.userId, a.licenceId, a.Active(), a.revokedAt)
  }
}
