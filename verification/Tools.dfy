/** What each tool does to the goal's rows, what its outcome means to a run, and
    what the model is shown of it; policy, verification and the outcome rule. */
module Tools {
  import opened Basics
  import opened Text
  import opened Domain
  import opened AgentRows
  import opened Services

  const MAX_DECISION_MODEL_REQUESTS: nat := 6
  const MAX_DECISION_READ_CALLS: nat := 6
  const MAX_DECISION_MUTATION_CALLS: nat := 1

  function MaxCalls(mutates: bool): nat {
    if mutates then MAX_DECISION_MUTATION_CALLS else MAX_DECISION_READ_CALLS
  }

  // --- one table of domain rules ------------------------------------------------

  /** What a domain rule's rejection of a call means to a run. */
  datatype DomainRule = DomainRule(
    code: ErrorCode, shown: Option<Rejection>, blocks: Option<Reason>, claim: Option<CannotProceedReason>)

  function RuleOf(e: ServiceError): Option<DomainRule> {
    match e
    case InvalidInput => Some(DomainRule(CodeInvalidInput, None, None, None))
    case UserNotFound => Some(DomainRule(CodeUserNotFound, None, None, None))
    case LicenceNotFound => Some(DomainRule(CodeLicenceNotFound, None, None, None))
    case AssignmentAlreadyExists => Some(DomainRule(CodeAlreadyExists, Some(ShownAlreadyAssigned), None, None))
    case NoSeatsAvailable => Some(DomainRule(CodeNoSeats, Some(ShownNoSeats), Some(NoSeats), Some(ClaimNoSeats)))
    case UserInactive => Some(DomainRule(CodeUserInactive, Some(ShownInactive), Some(InactiveUser), Some(ClaimUserInactive)))
    case _ => None
  }

  function ToolErrorOf(e: ServiceError): ToolError {
    if e.Unexpected? then ToolError(CodeUnexpected)
    else match RuleOf(e)
      case Some(rule) => ToolError(rule.code)
      case None => ToolError(CodeDomainError)
  }

  /** The rules again, by recorded code. */
  function RuleByCode(code: ErrorCode): Option<DomainRule> {
    match code
    case CodeInvalidInput => RuleOf(InvalidInput)
    case CodeUserNotFound => RuleOf(UserNotFound)
    case CodeLicenceNotFound => RuleOf(LicenceNotFound)
    case CodeAlreadyExists => RuleOf(AssignmentAlreadyExists)
    case CodeNoSeats => RuleOf(NoSeatsAvailable)
    case CodeUserInactive => RuleOf(UserInactive)
    case _ => None
  }

  function BlockingReason(code: ErrorCode): Option<Reason> {
    match RuleByCode(code)
    case None => None
    case Some(rule) => rule.blocks
  }

  function BlocksByClaim(claim: CannotProceedReason): Reason {
    match claim
    case ClaimNoSeats => NoSeats
    case ClaimUserInactive => InactiveUser
  }

  function RejectionShown(tool: Tool, code: ErrorCode): Option<Rejection> {
    if !tool.Mutates() then None
    else match RuleByCode(code)
      case None => None
      case Some(rule) => rule.shown
  }

  // --- running and observing a tool ------------------------------------------------

  function ArgumentsOf(tool: Tool, goal: Goal): Arguments {
    match tool
    case GetUser => Arguments(Some(goal.userId), None)
    case ListAssignments => Arguments(Some(goal.userId), None)
    case GetCapacity => Arguments(None, Some(goal.licenceId))
    case AssignSeat => Arguments(Some(goal.userId), Some(goal.licenceId))
  }

  function ViewsOf(rows: seq<Assignment>, ids: seq<nat>): seq<AssignmentView>
    requires forall k | 0 <= k < |ids| :: ids[k] < |rows|
  {
    seq(|ids|, k requires 0 <= k < |ids| => ViewOf(ids[k], rows[ids[k]]))
  }

  function CapacityOf(l: int, usage: SeatUsage): ToolOutput {
    CapacityOutput(l, usage.licence.product, usage.licence.seatsTotal, usage.active, usage.Available())
  }

  /** A tool's result and the store after it, within its business transaction. */
  function RunTool(b: Store, tool: Tool, goal: Goal, run: nat): Result<(ToolOutput, Store), ServiceError> {
    match AgentRunActor(run)
    case Err(_) => Err(InvalidInput)
    case Ok(actor) =>
      match tool
      case GetUser =>
        if goal.userId !in b.users then Err(UserNotFound)
        else
          var user := b.users[goal.userId];
          Ok((UserOutput(goal.userId, user.email, user.name, user.status), b))
      case GetCapacity =>
        (match GetSeatUsage(b, goal.licenceId)
         case Err(e) => Err(e)
         case Ok(usage) => Ok((CapacityOf(goal.licenceId, usage), b)))
      case ListAssignments =>
        if goal.userId !in b.users then Err(UserNotFound)
        else Ok((ListOutput(goal.userId, ViewsOf(b.assignments, RowsOfUser(b.assignments, goal.userId))), b))
      case AssignSeat =>
        (match AssignLicence(b, goal.userId, goal.licenceId, actor)
         case Err(e) => Err(e)
         case Ok((id, after)) => Ok((AssignedOutput(ViewOf(id, after.assignments[id])), after)))
  }

  /** What the model is shown of an outcome, or None for a failure it is not shown. */
  function Observe(tool: Tool, goal: Goal, outcome: Result<ToolOutput, ToolError>): Option<Observation> {
    match outcome
    case Err(e) =>
      (match RejectionShown(tool, e.code)
       case None => None
       case Some(why) => Some(SawRejected(why)))
    case Ok(UserOutput(_, _, _, status)) => Some(SawUser(status))
    case Ok(CapacityOutput(_, _, total, active, available)) => Some(SawCapacity(total, active, available))
    case Ok(ListOutput(_, rows)) => Some(SawSeat(ShowsSeat(rows, goal.licenceId)))
    case Ok(AssignedOutput(_)) => Some(SawAssigned)
  }

  predicate ShowsSeat(views: seq<AssignmentView>, l: int) {
    exists v :: v in views && v.active && v.licenceId == l
  }

  lemma ShownSeatIsHeld(rows: seq<Assignment>, u: int, l: int)
    requires ShowsSeat(ViewsOf(rows, RowsOfUser(rows, u)), l)
    ensures HoldsSeat(rows, u, l)
  {
    var ids := RowsOfUser(rows, u);
    RowsOfUserIsComplete(rows, u);
    var k :| 0 <= k < |ids| && ViewsOf(rows, ids)[k].active && ViewsOf(rows, ids)[k].licenceId == l;
    assert ids[k] in ids;
    assert rows[ids[k]].ActiveFor(u, l);
  }

  lemma HeldSeatIsShown(rows: seq<Assignment>, u: int, l: int)
    requires HoldsSeat(rows, u, l)
    ensures ShowsSeat(ViewsOf(rows, RowsOfUser(rows, u)), l)
  {
    var ids := RowsOfUser(rows, u);
    RowsOfUserIsComplete(rows, u);
    var i: nat :| i < |rows| && rows[i].ActiveFor(u, l);
    assert i in ids;
    var k :| 0 <= k < |ids| && ids[k] == i;
    assert ViewsOf(rows, ids)[k] in ViewsOf(rows, ids);
  }

  /** The listing the model is shown answers exactly the question the verifier asks. */
  lemma ListedSeatIsHeldSeat(b: Store, goal: Goal, run: nat)
    requires AgentRunActor(run).Ok? && goal.userId in b.users
    ensures RunTool(b, ListAssignments, goal, run).Ok?
    ensures var output := RunTool(b, ListAssignments, goal, run).value.0;
            Observe(ListAssignments, goal, Ok(output)) == Some(SawSeat(HoldsSeat(b.assignments, goal.userId, goal.licenceId)))
  {
    if HoldsSeat(b.assignments, goal.userId, goal.licenceId) {
      HeldSeatIsShown(b.assignments, goal.userId, goal.licenceId);
    }
    if ShowsSeat(ViewsOf(b.assignments, RowsOfUser(b.assignments, goal.userId)), goal.licenceId) {
      ShownSeatIsHeld(b.assignments, goal.userId, goal.licenceId);
    }
  }

  /** The model is shown the user's stored status, and, of a sound store, the
      licence's total, the seats taken and their difference. */
  lemma ShownNumbersAreStored(b: Store, goal: Goal, run: nat)
    requires SoundStore(b) && AgentRunActor(run).Ok? && goal.userId in b.users && goal.licenceId in b.licences
    ensures RunTool(b, GetUser, goal, run).Ok? && RunTool(b, GetCapacity, goal, run).Ok?
    ensures Observe(GetUser, goal, Ok(RunTool(b, GetUser, goal, run).value.0)) == Some(SawUser(b.users[goal.userId].status))
    ensures var (total, taken) := (b.licences[goal.licenceId].seatsTotal, SeatsTaken(b.assignments, goal.licenceId));
      && taken <= total
      && Observe(GetCapacity, goal, Ok(RunTool(b, GetCapacity, goal, run).value.0)) == Some(SawCapacity(total, taken, total - taken))
  {
    SeatsAvailableIsExact(b, goal.licenceId);
  }

  // --- policy ---------------------------------------------------------------------

  /** Policy for a call, read from committed state; None for a read. */
  function Evaluate(b: Store, tool: Tool, goal: Goal): Result<Option<Policy>, ServiceError> {
    if !tool.Mutates() then Ok(None)
    else if goal.licenceId !in b.licences then Err(LicenceNotFound)
    else Ok(Some(b.licences[goal.licenceId].policy))
  }

  /** The same, by the session's licence service. */
  method EvaluatePolicy(tool: Tool, goal: Goal, licences: LicenceService) returns (r: Result<Option<Policy>, ServiceError>)
    ensures r == Evaluate(licences.State(), tool, goal)
  {
    if !tool.Mutates() {
      return Ok(None);
    }
    var licence := licences.Get(goal.licenceId);
    return if licence.Ok? then Ok(Some(licence.value.policy)) else Err(licence.error);
  }

  // --- verification ------------------------------------------------------------------

  function Verify(b: Store, goal: Goal): Verdict {
    match ActiveRow(b.assignments, goal.userId, goal.licenceId)
    case None => Verdict(false, goal.userId, goal.licenceId, None)
    case Some(id) => Verdict(true, goal.userId, goal.licenceId, Some(ViewOf(id, b.assignments[id])))
  }

  /** Whether a claimed blocking condition holds now. */
  function CheckBlock(b: Store, goal: Goal, claim: CannotProceedReason): Result<BlockCheck, ServiceError> {
    match claim
    case ClaimNoSeats =>
      (match GetSeatUsage(b, goal.licenceId)
       case Err(e) => Err(e)
       case Ok(usage) => Ok(BlockCheck(claim, usage.Available() == 0, None, Some(CapacityOf(goal.licenceId, usage)))))
    case ClaimUserInactive =>
      if goal.userId !in b.users then Err(UserNotFound)
      else
        var user := b.users[goal.userId];
        Ok(BlockCheck(claim, user.status != Active,
                      Some(UserOutput(goal.userId, user.email, user.name, user.status)), None))
  }

  /** `verify`, by the session's assignment service. */
  method VerifyGoal(assignments: AssignmentService, goal: Goal) returns (v: Verdict)
    ensures v == Verify(assignments.State(), goal)
  {
    var active := assignments.GetActive(goal.userId, goal.licenceId);
    var found := if active.None? then None else Some(ViewOf(active.value, assignments.assignments[active.value]));
    return Verdict(active.Some?, goal.userId, goal.licenceId, found);
  }

  /** `check_block`, by the session's services. */
  method CheckClaim(users: UserService, assignments: AssignmentService, goal: Goal, claim: CannotProceedReason)
    returns (r: Result<BlockCheck, ServiceError>)
    requires users.State() == assignments.State()
    ensures r == CheckBlock(assignments.State(), goal, claim)
  {
    match claim {
      case ClaimNoSeats =>
        var usage := assignments.SeatUsageOf(goal.licenceId);
        if usage.Err? {
          return Err(usage.error);
        }
        r := Ok(BlockCheck(claim, usage.value.Available() == 0, None, Some(CapacityOf(goal.licenceId, usage.value))));
      case ClaimUserInactive =>
        var user := users.Get(goal.userId);
        if user.Err? {
          return Err(user.error);
        }
        var shown := UserOutput(goal.userId, user.value.email, user.value.name, user.value.status);
        r := Ok(BlockCheck(claim, user.value.status != Active, Some(shown), None));
    }
  }

  predicate Confirmed(b: Store, goal: Goal, claim: CannotProceedReason) {
    CheckBlock(b, goal, claim).Ok? && CheckBlock(b, goal, claim).value.confirmed
  }

  /** The error `assign_licence` would raise, for any valid actor. */
  predicate AttemptBlocked(b: Store, goal: Goal, actor: string) {
    var r := AssignLicence(b, goal.userId, goal.licenceId, actor);
    r.Err? && BlockingReason(ToolErrorOf(r.error).code).Some?
  }

  /** A claim is confirmable exactly when an attempt would be blocked, in every
      state where the goal does not already hold, over-filled licences included. */
  lemma ClaimConfirmableIffAttemptBlocked(b: Store, goal: Goal, actor: string)
    requires goal.userId in b.users && goal.licenceId in b.licences
    requires ValidatedActor(actor).Ok?
    requires !Verify(b, goal).satisfied
    ensures AttemptBlocked(b, goal, actor) <==> exists claim :: Confirmed(b, goal, claim)
  {
    assert Confirmed(b, goal, ClaimNoSeats)
      <==> SeatsTaken(b.assignments, goal.licenceId) >= b.licences[goal.licenceId].seatsTotal;
    assert Confirmed(b, goal, ClaimUserInactive) <==> b.users[goal.userId].status != Active;
  }

  // --- the outcome of a concluded run --------------------------------------------------

  function DecisionOutcome(
    proposal: Proposal, satisfied: bool, changed: bool, rejection: Option<Reason>, confirmed: bool): (RunStatus, Reason)
  {
    if satisfied then (Completed, if changed then GoalSatisfied else AlreadySatisfied)
    else if rejection.Some? then (Blocked, rejection.value)
    else if proposal.CannotProceed? && confirmed then (Blocked, BlocksByClaim(proposal.why))
    else (Failed, VerificationFailed)
  }
}
