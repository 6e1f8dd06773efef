/** The tables' CHECK constraints, evaluated as SQL evaluates them: in three
    values, where a comparison with NULL is unknown and an unknown CHECK passes. */
module SqlChecks {
  import opened Basics
  import opened Domain
  import opened AgentRows

  // --- three-valued logic -------------------------------------------------------

  datatype Truth = Yes | No | Unknown

  function Of(b: bool): Truth {
    if b then Yes else No
  }

  function And(a: Truth, b: Truth): Truth {
    if a == No || b == No then No else if a == Yes && b == Yes then Yes else Unknown
  }

  function Or(a: Truth, b: Truth): Truth {
    if a == Yes || b == Yes then Yes else if a == No && b == No then No else Unknown
  }

  function Not(a: Truth): Truth {
    match a case Yes => No case No => Yes case Unknown => Unknown
  }

  function Equal(a: Truth, b: Truth): Truth {
    if a == Unknown || b == Unknown then Unknown else Of(a == b)
  }

  function IsNull<T>(x: Option<T>): Truth {
    Of(x.None?)
  }

  function NotNull<T>(x: Option<T>): Truth {
    Not(IsNull(x))
  }

  /** `x IN (...)`, the list given by its membership test. */
  function In<T>(x: Option<T>, listed: T -> bool): Truth {
    if x.None? then Unknown else Of(listed(x.value))
  }

  function Case(condition: Truth, then_: Truth, else_: Truth): Truth {
    if condition == Yes then then_ else else_
  }

  predicate Passes(check: Truth) {
    check != No
  }

  // --- agent_runs ------------------------------------------------------------------

  /** The schema revisions whose CHECKs differ. */
  datatype Revision = R0004 | R0005 | R0006 | R0007

  datatype RunCheck =
    | RunStatusEnum
    | OutcomeReasonEnum
    | ResolvedIdsTogether
    | GoalColumnsTogether
    | ResolvedIdsNeedGoal
    | ExtractionOutcomeHasNoGoal
    | LastSequenceNoNonNegative
    | ResolvedIdsMatchStatus
    | CompletedAtIffTerminal
    | OutcomeMatchesStatus
    | DecisionProposalEnum
    | CannotProceedReasonEnum
    | DecisionContextNeedsResolution
    | DecisionProposalNeedsContext
    | DecisionReasonMatchesProposal

  predicate OpenStatus(rev: Revision, s: RunStatus) {
    s.Received? || s.Resolved? || s.Executing? || s.Verifying? || (rev == R0007 && s.AwaitingApproval?)
  }

  predicate Terminal(s: RunStatus) {
    s.Completed? || s.NeedsClarification? || s.Blocked? || s.Failed?
  }

  predicate CompletionReason(r: Reason) {
    r.GoalSatisfied? || r.AlreadySatisfied?
  }

  predicate ClarificationReason(r: Reason) {
    || r.UnsupportedRequest? || r.InstructionUnclear? || r.InvalidRequest?
    || r.UnknownUser? || r.UnknownLicence? || r.LicenceAmbiguous?
  }

  predicate BlockReason(rev: Revision, r: Reason) {
    r.NoSeats? || r.InactiveUser? || (rev == R0007 && r.PolicyDenied?)
  }

  predicate FailureReason(rev: Revision, r: Reason) {
    || r.PlannerFailed? || r.GoalScopeViolation? || r.ToolFailed?
    || r.VerificationFailed? || r.UnexpectedFailure? || (rev != R0004 && r.StepLimit?)
  }

  predicate EndedBeforeGoal(r: Reason) {
    r.UnsupportedRequest? || r.InstructionUnclear?
  }

  function RunCheckValue(rev: Revision, name: RunCheck, run: AgentRun): Truth {
    var status := Some(run.status);
    match name
    case RunStatusEnum =>
      In(status, s => OpenStatus(rev, s) || Terminal(s))
    case OutcomeReasonEnum =>
      In(run.reason, r => CompletionReason(r) || ClarificationReason(r) || BlockReason(rev, r) || FailureReason(rev, r))
    case ResolvedIdsTogether =>
      Equal(IsNull(run.userId), IsNull(run.licenceId))
    case GoalColumnsTogether =>
      And(And(Equal(IsNull(run.goalType), IsNull(run.desiredState)),
              Equal(IsNull(run.goalType), IsNull(run.email))),
          Equal(IsNull(run.goalType), IsNull(run.product)))
    case ResolvedIdsNeedGoal =>
      Or(IsNull(run.userId), NotNull(run.goalType))
    case ExtractionOutcomeHasNoGoal =>
      Or(Not(In(run.reason, r => EndedBeforeGoal(r))), IsNull(run.goalType))
    case LastSequenceNoNonNegative =>
      Of(run.lastSeq >= 0)
    case ResolvedIdsMatchStatus =>
      Or(Or(And(In(status, s => (OpenStatus(rev, s) && !s.Received?) || s.Completed? || s.Blocked?), NotNull(run.userId)),
            And(In(status, (s: RunStatus) => s.Received? || s.NeedsClarification?), IsNull(run.userId))),
         In(status, (s: RunStatus) => s.Failed?))
    case CompletedAtIffTerminal =>
      Equal(Of(!run.completed), In(status, s => OpenStatus(rev, s)))
    case OutcomeMatchesStatus =>
      Or(And(In(status, s => OpenStatus(rev, s)), IsNull(run.reason)),
         And(NotNull(run.reason),
             Or(Or(Or(And(In(status, (s: RunStatus) => s.Completed?), In(run.reason, r => CompletionReason(r))),
                      And(In(status, (s: RunStatus) => s.NeedsClarification?), In(run.reason, r => ClarificationReason(r)))),
                   And(In(status, (s: RunStatus) => s.Blocked?), In(run.reason, r => BlockReason(rev, r)))),
                And(In(status, (s: RunStatus) => s.Failed?), In(run.reason, r => FailureReason(rev, r))))))
    case DecisionProposalEnum =>
      In(run.proposal, (p: ProposalKind) => p.KindGoalReached? || p.KindNoActionNeeded? || p.KindCannotProceed?)
    case CannotProceedReasonEnum =>
      In(run.claim, (c: CannotProceedReason) => c.ClaimNoSeats? || c.ClaimUserInactive?)
    case DecisionContextNeedsResolution =>
      Or(IsNull(run.context), NotNull(run.userId))
    case DecisionProposalNeedsContext =>
      Or(IsNull(run.proposal), NotNull(run.context))
    case DecisionReasonMatchesProposal =>
      Case(In(run.proposal, (p: ProposalKind) => p.KindCannotProceed?), NotNull(run.claim), IsNull(run.claim))
  }

  /** The checks that came with the decision stage's columns, in revision 0005. */
  predicate DecisionCheck(name: RunCheck) {
    || name.DecisionProposalEnum? || name.CannotProceedReasonEnum?
    || name.DecisionContextNeedsResolution? || name.DecisionProposalNeedsContext? || name.DecisionReasonMatchesProposal?
  }

  /** The database at `rev` accepts the row. Revision 0004 has no decision checks. */
  ghost predicate RunAccepted(rev: Revision, run: AgentRun) {
    forall name: RunCheck :: (rev == R0004 && DecisionCheck(name)) || Passes(RunCheckValue(rev, name, run))
  }

  predicate GoalWhole(run: AgentRun) {
    && (run.goalType.Some? <==> run.desiredState.Some?)
    && (run.goalType.Some? <==> run.email.Some?)
    && (run.goalType.Some? <==> run.product.Some?)
  }

  predicate IdsFitStatus(run: AgentRun) {
    match run.status
    case Received => run.userId.None?
    case NeedsClarification => run.userId.None?
    case Failed => true
    case _ => run.userId.Some?
  }

  predicate ReasonFitsStatus(run: AgentRun) {
    match run.status
    case Completed => run.reason.Some? && CompletionReason(run.reason.value)
    case NeedsClarification => run.reason.Some? && ClarificationReason(run.reason.value)
    case Blocked => run.reason.Some? && BlockReason(R0007, run.reason.value)
    case Failed => run.reason.Some? && FailureReason(R0007, run.reason.value)
    case _ => run.reason.None?
  }

  /** Each check of revision 0007 in two values. */
  predicate RunCheckMeans(name: RunCheck, run: AgentRun) {
    match name
    case RunStatusEnum => true
    case OutcomeReasonEnum => true
    case ResolvedIdsTogether => run.userId.Some? <==> run.licenceId.Some?
    case GoalColumnsTogether => GoalWhole(run)
    case ResolvedIdsNeedGoal => run.userId.Some? ==> run.goalType.Some?
    case ExtractionOutcomeHasNoGoal => run.reason.Some? && EndedBeforeGoal(run.reason.value) ==> run.goalType.None?
    case LastSequenceNoNonNegative => run.lastSeq >= 0
    case ResolvedIdsMatchStatus => IdsFitStatus(run)
    case CompletedAtIffTerminal => run.completed <==> Terminal(run.status)
    case OutcomeMatchesStatus => ReasonFitsStatus(run)
    case DecisionProposalEnum => true
    case CannotProceedReasonEnum => true
    case DecisionContextNeedsResolution => run.context.Some? ==> run.userId.Some?
    case DecisionProposalNeedsContext => run.proposal.Some? ==> run.context.Some?
    case DecisionReasonMatchesProposal => run.claim.Some? <==> run.proposal == Some(KindCannotProceed)
  }

  /** No check lets a NULL slip through: each passes exactly when it means to. */
  lemma RunCheckIsExact(name: RunCheck, run: AgentRun)
    ensures Passes(RunCheckValue(R0007, name, run)) <==> RunCheckMeans(name, run)
  {
    match name
    case RunStatusEnum =>
    case OutcomeReasonEnum =>
    case ResolvedIdsTogether =>
    case GoalColumnsTogether =>
    case ResolvedIdsNeedGoal =>
    case ExtractionOutcomeHasNoGoal =>
    case LastSequenceNoNonNegative =>
    case ResolvedIdsMatchStatus =>
    case CompletedAtIffTerminal =>
    case OutcomeMatchesStatus =>
    case DecisionProposalEnum =>
    case CannotProceedReasonEnum =>
    case DecisionContextNeedsResolution =>
    case DecisionProposalNeedsContext =>
    case DecisionReasonMatchesProposal =>
  }

  /** A run row that revision 0007 stores. */
  predicate RunShape(run: AgentRun) {
    && (run.userId.Some? <==> run.licenceId.Some?)
    && GoalWhole(run)
    && (run.userId.Some? ==> run.goalType.Some?)
    && (run.reason.Some? && EndedBeforeGoal(run.reason.value) ==> run.goalType.None?)
    && run.lastSeq >= 0
    && IdsFitStatus(run)
    && (run.completed <==> Terminal(run.status))
    && ReasonFitsStatus(run)
    && (run.context.Some? ==> run.userId.Some?)
    && (run.proposal.Some? ==> run.context.Some?)
    && (run.claim.Some? <==> run.proposal == Some(KindCannotProceed))
  }

  lemma RunShapeIsEveryCheck(run: AgentRun)
    ensures RunShape(run) <==> forall name: RunCheck :: RunCheckMeans(name, run)
  {
    if forall name: RunCheck :: RunCheckMeans(name, run) {
      assert RunCheckMeans(ResolvedIdsTogether, run) && RunCheckMeans(GoalColumnsTogether, run);
      assert RunCheckMeans(ResolvedIdsNeedGoal, run) && RunCheckMeans(ExtractionOutcomeHasNoGoal, run);
      assert RunCheckMeans(LastSequenceNoNonNegative, run) && RunCheckMeans(ResolvedIdsMatchStatus, run);
      assert RunCheckMeans(CompletedAtIffTerminal, run) && RunCheckMeans(OutcomeMatchesStatus, run);
      assert RunCheckMeans(DecisionContextNeedsResolution, run) && RunCheckMeans(DecisionProposalNeedsContext, run);
      assert RunCheckMeans(DecisionReasonMatchesProposal, run);
    }
  }

  lemma RunAcceptedIffShape(run: AgentRun)
    ensures RunAccepted(R0007, run) <==> RunShape(run)
  {
    RunShapeIsEveryCheck(run);
    forall name: RunCheck ensures Passes(RunCheckValue(R0007, name, run)) <==> RunCheckMeans(name, run) {
      RunCheckIsExact(name, run);
    }
  }

  // --- tool_calls --------------------------------------------------------------------

  datatype CallCheck =
    | CallStatusEnum
    | SequenceNoPositive
    | CallOutcomeMatchesStatus
    | ObservationNeedsOutcome
    | PolicyDecisionEnum
    | AwaitingApprovalWasRequired
    | DeniedCallFailed

  predicate Unfinished(rev: Revision, s: CallStatus) {
    s.Started? || (rev == R0007 && s.Held?)
  }

  function CallCheckValue(rev: Revision, name: CallCheck, call: ToolCall): Truth {
    var status := Some(call.status);
    match name
    case CallStatusEnum => In(status, s => Unfinished(rev, s) || s.Succeeded? || s.CallFailed?)
    case SequenceNoPositive => Of(call.seqNo >= 1)
    case CallOutcomeMatchesStatus =>
      Or(Or(And(And(And(In(status, s => Unfinished(rev, s)), Of(!call.completed)), IsNull(call.result)), IsNull(call.error)),
            And(And(And(In(status, (s: CallStatus) => s.Succeeded?), Of(call.completed)), NotNull(call.result)),
                IsNull(call.error))),
         And(And(And(In(status, (s: CallStatus) => s.CallFailed?), Of(call.completed)), IsNull(call.result)),
             NotNull(call.error)))
    case ObservationNeedsOutcome =>
      Or(IsNull(call.observation), Not(In(status, s => Unfinished(rev, s))))
    case PolicyDecisionEnum => In(call.policy, (p: Policy) => p.Allow? || p.RequireApproval? || p.Deny?)
    case AwaitingApprovalWasRequired =>
      Or(Not(In(status, (s: CallStatus) => s.Held?)),
         And(NotNull(call.policy), In(call.policy, (p: Policy) => p.RequireApproval?)))
    case DeniedCallFailed =>
      Or(Or(IsNull(call.policy), Not(In(call.policy, (p: Policy) => p.Deny?))), In(status, (s: CallStatus) => s.CallFailed?))
  }

  predicate PolicyCheck(name: CallCheck) {
    name.PolicyDecisionEnum? || name.AwaitingApprovalWasRequired? || name.DeniedCallFailed?
  }

  ghost predicate CallAccepted(rev: Revision, call: ToolCall) {
    forall name: CallCheck :: (rev != R0007 && PolicyCheck(name)) || Passes(CallCheckValue(rev, name, call))
  }

  /** Each check of revision 0007 in two values. */
  predicate CallCheckMeans(name: CallCheck, call: ToolCall) {
    match name
    case CallStatusEnum => true
    case SequenceNoPositive => call.seqNo >= 1
    case CallOutcomeMatchesStatus =>
      && (call.result.Some? <==> call.status == Succeeded)
      && (call.error.Some? <==> call.status == CallFailed)
      && (call.completed <==> call.status == Succeeded || call.status == CallFailed)
    case ObservationNeedsOutcome => call.observation.Some? ==> call.status == Succeeded || call.status == CallFailed
    case PolicyDecisionEnum => true
    case AwaitingApprovalWasRequired => call.status == Held ==> call.policy == Some(RequireApproval)
    case DeniedCallFailed => call.policy == Some(Deny) ==> call.status == CallFailed
  }

  lemma CallCheckIsExact(name: CallCheck, call: ToolCall)
    ensures Passes(CallCheckValue(R0007, name, call)) <==> CallCheckMeans(name, call)
  {
    match name
    case CallStatusEnum =>
    case SequenceNoPositive =>
    case CallOutcomeMatchesStatus =>
    case ObservationNeedsOutcome =>
    case PolicyDecisionEnum =>
    case AwaitingApprovalWasRequired =>
    case DeniedCallFailed =>
  }

  /** A tool-call row that revision 0007 stores. */
  predicate CallShape(call: ToolCall) {
    && call.seqNo >= 1
    && (call.result.Some? <==> call.status == Succeeded)
    && (call.error.Some? <==> call.status == CallFailed)
    && (call.completed <==> call.status == Succeeded || call.status == CallFailed)
    && (call.observation.Some? ==> call.status == Succeeded || call.status == CallFailed)
    && (call.status == Held ==> call.policy == Some(RequireApproval))
    && (call.policy == Some(Deny) ==> call.status == CallFailed)
  }

  lemma CallAcceptedIffShape(call: ToolCall)
    ensures CallAccepted(R0007, call) <==> CallShape(call)
  {
    forall name: CallCheck ensures Passes(CallCheckValue(R0007, name, call)) <==> CallCheckMeans(name, call) {
      CallCheckIsExact(name, call);
    }
    if forall name: CallCheck :: CallCheckMeans(name, call) {
      assert CallCheckMeans(SequenceNoPositive, call) && CallCheckMeans(CallOutcomeMatchesStatus, call);
      assert CallCheckMeans(ObservationNeedsOutcome, call) && CallCheckMeans(AwaitingApprovalWasRequired, call);
      assert CallCheckMeans(DeniedCallFailed, call);
    }
  }

  // --- model_calls -------------------------------------------------------------------

  /** `a >= 0` on a nullable column. */
  function NonNegative(a: Option<int>): Truth {
    if a.None? then Unknown else Of(a.value >= 0)
  }

  function ModelCallValue(call: ModelCall): Truth {
    var r := call.rec;
    var together := Equal(IsNull(r.inputTokens), IsNull(r.outputTokens));
    var counts := Or(IsNull(r.inputTokens), And(NonNegative(r.inputTokens), NonNegative(r.outputTokens)));
    var outcome :=
      Or(And(And(And(Of(call.succeeded), NotNull(r.output)), IsNull(r.error)), NotNull(r.inputTokens)),
         And(And(Of(!call.succeeded), IsNull(r.output)), NotNull(r.error)));
    And(And(And(And(Of(call.seqNo >= 1), Of(r.latency >= 0)), together), counts), outcome)
  }

  predicate ModelCallAccepted(call: ModelCall) {
    Passes(ModelCallValue(call))
  }

  /** What a planner must report for a model call to be stored. */
  predicate WellFormedRecord(r: ModelRecord) {
    && r.latency >= 0
    && (r.inputTokens.Some? <==> r.outputTokens.Some?)
    && (r.inputTokens.Some? ==> r.inputTokens.value >= 0 && r.outputTokens.value >= 0)
    && (r.output.Some? <==> r.error.None?)
    && (r.error.None? ==> r.inputTokens.Some?)
  }

  lemma ModelCallAcceptedIffWellFormed(call: ModelCall)
    requires call.seqNo >= 1 && call.succeeded == call.rec.error.None?
    ensures ModelCallAccepted(call) <==> WellFormedRecord(call.rec)
  {
  }
}
