/** The public view of a persisted run: what the API shows, built from the run's
    rows alone and without a row id. A run's summary can always be shown; its
    trace exactly if every output that a planner had recorded is one of the
    closed union, as every output of the application's own planners is. */
module Projection {
  import opened Basics
  import opened Text
  import opened Domain
  import opened AgentRows
  import opened SqlChecks
  import opened Services
  import opened Resolution
  import opened Tools
  import opened Machine
  import opened Invariant
  import opened Guarantees
  import opened Renaming
  import opened NonInterference
  import opened Outputs
  import opened Requests
  import opened Origins

  datatype ProjectionError = MissingReason | NotABlockingCode | UnknownShape | UnknownOutput

  datatype GoalRead = GoalRead(kind: GoalType, email: string, product: string)

  datatype BlockCheckRead = BlockCheckRead(claim: CannotProceedReason, confirmed: bool)

  datatype VerificationRead = VerificationRead(
    satisfied: bool, blockingRejection: Option<ErrorCode>, blockCheck: Option<BlockCheckRead>)

  datatype EntryRead =
    | ModelEntry(seqNo: int, stage: Stage, model: string, succeeded: bool, inputTokens: Option<int>,
                 outputTokens: Option<int>, latency: int, output: Option<ModelOutput>, error: Option<string>)
    | ToolEntry(seqNo: int, tool: Tool, status: CallStatus, policy: Option<Policy>, code: Option<ErrorCode>,
                observation: Option<Observation>)

  datatype Summary = Summary(
    instruction: string, actor: string, status: RunStatus, reason: Option<Reason>, outcomeCode: Option<string>,
    goal: Option<GoalRead>, proposal: Option<Proposal>, completed: bool)

  datatype RunRead = RunRead(
    summary: Summary, context: Option<Context>, verification: Option<VerificationRead>, trace: seq<EntryRead>)

  function GoalOf(run: AgentRun): Option<GoalRead> {
    if run.goalType.None? || run.email.None? || run.product.None? then None
    else Some(GoalRead(run.goalType.value, run.email.value, run.product.value))
  }

  function ProposalOf(run: AgentRun): Result<Option<Proposal>, ProjectionError> {
    match run.proposal
    case None => Ok(None)
    case Some(KindGoalReached) => Ok(Some(GoalReached))
    case Some(KindNoActionNeeded) => Ok(Some(NoActionNeeded))
    case Some(KindCannotProceed) => if run.claim.None? then Err(MissingReason) else Ok(Some(CannotProceed(run.claim.value)))
  }

  function LimitText(limit: Limit): string {
    match limit
    case ModelRequests => "model_requests"
    case ReadCalls => "read_calls"
    case MutationCalls => "mutation_calls"
  }

  /** The code that refines a reason, at the reason's own key of the detail. */
  function OutcomeCodeOf(reason: Option<Reason>, detail: Option<Detail>): Option<string> {
    match (reason, detail)
    case (Some(InstructionUnclear), Some(CodeDetail(code))) => Some(code)
    case (Some(UnsupportedRequest), Some(CodeDetail(code))) => Some(code)
    case (Some(PlannerFailed), Some(PlannerDetail(_, code, _, _))) => Some(code)
    case (Some(StepLimit), Some(LimitDetail(limit, _))) => Some(LimitText(limit))
    case _ => None
  }

  function VerificationOf(detail: Option<Detail>): Result<Option<VerificationRead>, ProjectionError> {
    match detail
    case Some(VerdictDetail(verdict, rejection, check)) =>
      var shown := if check.None? then None else Some(BlockCheckRead(check.value.claim, check.value.confirmed));
      (match rejection
       case None => Ok(Some(VerificationRead(verdict.satisfied, None, shown)))
       case Some(call) =>
         if call.error.None? then Err(UnknownShape)
         else if BlockingReason(call.error.value.code).None? then Err(NotABlockingCode)
         else Ok(Some(VerificationRead(verdict.satisfied, Some(call.error.value.code), shown))))
    case _ => Ok(None)
  }

  /** The entry's recorded output, if any, is one that can be shown. */
  predicate CanShow(entry: TraceEntry) {
    entry.OfModel? ==> Readable(entry.model.rec)
  }

  function EntryOf(entry: TraceEntry): EntryRead
    requires CanShow(entry)
  {
    match entry
    case OfModel(call) =>
      var rec := call.rec;
      ModelEntry(call.seqNo, call.stage, rec.model, call.succeeded, rec.inputTokens, rec.outputTokens, rec.latency,
                 if rec.output.None? then None else ReadOutput(rec.output.value), rec.error)
    case OfTool(call) =>
      ToolEntry(call.seqNo, call.tool, call.status, call.policy,
                if call.error.None? then None else Some(call.error.value.code), call.observation)
  }

  /** The entries in order, or the error of the first that cannot be shown. */
  function TraceOf(trace: seq<TraceEntry>): Result<seq<EntryRead>, ProjectionError> {
    if trace == [] then Ok([])
    else
      match TraceOf(trace[..|trace| - 1])
      case Err(e) => Err(e)
      case Ok(shown) =>
        if CanShow(trace[|trace| - 1]) then Ok(shown + [EntryOf(trace[|trace| - 1])]) else Err(UnknownOutput)
  }

  /** `AgentRunRead.of` */
  function SummaryOf(run: AgentRun): Result<Summary, ProjectionError> {
    match ProposalOf(run)
    case Err(e) => Err(e)
    case Ok(proposal) =>
      Ok(Summary(run.instruction, run.requestingActor, run.status, run.reason, OutcomeCodeOf(run.reason, run.detail),
                 GoalOf(run), proposal, run.completed))
  }

  /** `AgentRunDetail.of` */
  function ReadOf(rec: RunRec): Result<RunRead, ProjectionError> {
    match SummaryOf(rec.run)
    case Err(e) => Err(e)
    case Ok(summary) =>
      match VerificationOf(rec.run.detail)
      case Err(e) => Err(e)
      case Ok(verification) =>
        match TraceOf(ListTrace(rec.calls, rec.models))
        case Err(e) => Err(e)
        case Ok(trace) => Ok(RunRead(summary, rec.run.context, verification, trace))
  }

  lemma {:induction false} TraceIsShown(trace: seq<TraceEntry>)
    ensures TraceOf(trace).Ok? <==> forall entry | entry in trace :: CanShow(entry)
    ensures TraceOf(trace).Ok? ==>
      && |TraceOf(trace).value| == |trace|
      && forall i | 0 <= i < |trace| :: CanShow(trace[i]) && TraceOf(trace).value[i] == EntryOf(trace[i])
  {
    if trace != [] {
      var before := trace[..|trace| - 1];
      TraceIsShown(before);
      assert trace == before + [trace[|trace| - 1]];
    }
  }

  /** Every output recorded for the run can be read back. */
  predicate OutputsReadable(models: seq<ModelCall>) {
    forall m | m in models :: Readable(m.rec)
  }

  lemma {:induction false} EntriesAreRows(calls: seq<ToolCall>, models: seq<ModelCall>)
    ensures (forall entry | entry in ListTrace(calls, models) :: CanShow(entry)) <==> OutputsReadable(models)
    decreases |calls| + |models|
  {
    hide Readable;
    if calls == [] && models == [] {
    } else if models == [] || (calls != [] && calls[|calls| - 1].seqNo > models[|models| - 1].seqNo) {
      EntriesAreRows(calls[..|calls| - 1], models);
    } else {
      var last := |models| - 1;
      EntriesAreRows(calls, models[..last]);
      LastIsReadable(models);
      assert CanShow(OfModel(models[last])) <==> Readable(models[last].rec);
    }
  }

  lemma LastIsReadable(models: seq<ModelCall>)
    requires models != []
    ensures OutputsReadable(models) <==> OutputsReadable(models[..|models| - 1]) && Readable(models[|models| - 1].rec)
  {
    assert models == models[..|models| - 1] + [models[|models| - 1]];
  }

  // --- no row id is shown ------------------------------------------------------------------

  lemma SameEntry(ids: Ids, call: ToolCall)
    ensures CanShow(OfTool(call)) && CanShow(OfTool(OfCall(ids, call)))
    ensures EntryOf(OfTool(OfCall(ids, call))) == EntryOf(OfTool(call)) && OfCall(ids, call).seqNo == call.seqNo
  {
  }

  lemma TraceAppend(trace: seq<TraceEntry>, entry: TraceEntry)
    ensures TraceOf(trace + [entry]) ==
      match TraceOf(trace)
      case Err(e) => Err(e)
      case Ok(shown) => if CanShow(entry) then Ok(shown + [EntryOf(entry)]) else Err(UnknownOutput)
  {
    assert (trace + [entry])[..|trace|] == trace;
  }

  lemma {:induction false} SameTrace(ids: Ids, calls: seq<ToolCall>, models: seq<ModelCall>)
    ensures TraceOf(ListTrace(OfCalls(ids, calls), models)) == TraceOf(ListTrace(calls, models))
    decreases |calls| + |models|
  {
    hide OfCall, EntryOf, TraceOf, CanShow;
    var renamed, last := OfCalls(ids, calls), |calls| - 1;
    if calls != [] {
      SameEntry(ids, calls[last]);
    }
    if models == [] && calls == [] {
    } else if models == [] || (calls != [] && calls[last].seqNo > models[|models| - 1].seqNo) {
      SameTrace(ids, calls[..last], models);
      assert renamed[..last] == OfCalls(ids, calls[..last]);
      TraceAppend(ListTrace(calls[..last], models), OfTool(calls[last]));
      TraceAppend(ListTrace(renamed[..last], models), OfTool(renamed[last]));
    } else {
      var rest := models[..|models| - 1];
      SameTrace(ids, calls, rest);
      TraceAppend(ListTrace(calls, rest), OfModel(models[|models| - 1]));
      TraceAppend(ListTrace(renamed, rest), OfModel(models[|models| - 1]));
    }
  }

  /** The public view of a run is the same under any user and licence ids. */
  lemma ViewShowsNoId(ids: Ids, rec: RunRec)
    ensures ReadOf(OfRec(ids, rec)) == ReadOf(rec)
  {
    hide ListTrace, TraceOf;
    SameTrace(ids, rec.calls, rec.models);
  }

  // --- the view of what the executor wrote ---------------------------------------------------

  predicate RejectionFits(rejection: Option<CallRef>) {
    rejection.Some? ==> rejection.value.error.Some? && BlockingReason(rejection.value.error.value.code).Some?
  }

  /** The detail that goes with each outcome. */
  predicate DetailFits(reason: Option<Reason>, detail: Option<Detail>) {
    match reason
    case None => detail.None?
    case Some(InstructionUnclear) => detail.Some? && detail.value.CodeDetail?
    case Some(UnsupportedRequest) => detail.Some? && detail.value.CodeDetail?
    case Some(PlannerFailed) => detail.Some? && detail.value.PlannerDetail?
    case Some(StepLimit) => detail.Some? && detail.value.LimitDetail?
    case Some(GoalSatisfied) => VerdictFits(detail, true)
    case Some(AlreadySatisfied) => VerdictFits(detail, true)
    case Some(VerificationFailed) => VerdictFits(detail, false) && NothingBlocks(detail.value)
    case Some(NoSeats) => VerdictFits(detail, false) && Accounts(detail.value, NoSeats)
    case Some(InactiveUser) => VerdictFits(detail, false) && Accounts(detail.value, InactiveUser)
    case Some(_) => detail.Some? && !detail.value.VerdictDetail?
  }

  predicate VerdictFits(detail: Option<Detail>, satisfied: bool) {
    && detail.Some? && detail.value.VerdictDetail? && detail.value.verdict.satisfied == satisfied
    && RejectionFits(detail.value.rejection)
  }

  /** The detail holds the reason: the rejected attempt's or, without one, a
      confirmed claim's. */
  predicate Accounts(detail: Detail, why: Reason)
    requires detail.VerdictDetail? && RejectionFits(detail.rejection)
  {
    if detail.rejection.Some? then BlockingReason(detail.rejection.value.error.value.code) == Some(why)
    else detail.blockCheck.Some? && detail.blockCheck.value.confirmed && BlocksByClaim(detail.blockCheck.value.claim) == why
  }

  predicate NothingBlocks(detail: Detail)
    requires detail.VerdictDetail?
  {
    detail.rejection.None? && (detail.blockCheck.Some? ==> !detail.blockCheck.value.confirmed)
  }

  /** The rejection that counts is the recorded call's, by a blocking rule. */
  predicate RejectionMatches(rejection: Option<Reason>, rejected: Option<CallRef>) {
    if rejection.None? then rejected.None?
    else
      && (rejection == Some(NoSeats) || rejection == Some(InactiveUser))
      && rejected.Some? && rejected.value.error.Some?
      && BlockingReason(rejected.value.error.value.code) == rejection
  }

  /** What a frame still holds will fit too. */
  predicate FrameFits(f: Frame) {
    match f
    case Looked(Ok(Unresolved(code, detail))) => ClarificationReason(code) && !EndedBeforeGoal(code) && !detail.VerdictDetail?
    case Checked(proposal, _, rejection, rejected, Ok((verdict, check))) =>
      RejectionFits(rejected) && RejectionMatches(rejection, rejected)
      && (check.Some? ==> proposal.CannotProceed? && check.value.claim == proposal.why)
    case Concluded(_, _, _, rejection, rejected) =>
      RejectionFits(rejected) && RejectionMatches(rejection, rejected)
    case _ => true
  }

  lemma RejectedFits(calls: seq<ToolCall>)
    ensures RejectionFits(RejectedCall(calls))
    ensures RejectionMatches(BlockingRejection(calls), RejectedCall(calls))
  {
  }

  predicate RunFits(run: AgentRun) {
    DetailFits(run.reason, run.detail)
  }

  lemma LookupFits(b: Store, email: string, product: string)
    ensures Resolve(b, email, product).Ok? ==> FrameFits(Looked(Ok(Resolve(b, email, product).value)))
  {
    hide FindUserByEmail, FindLicencesByProduct;
  }

  lemma ResolveFits(rec: RunRec, found: Result<Resolution, string>)
    requires RunFits(rec.run) && FrameFits(Looked(found))
    ensures RunFits(ResolveTx(rec, found).run)
  {
  }

  lemma VerifyFits(b: Store, goal: Goal, proposal: Proposal, changed: bool, rejection: Option<Reason>, rejected: Option<CallRef>)
    requires FrameFits(Concluded(proposal, goal, changed, rejection, rejected))
    ensures FrameFits(Checked(proposal, changed, rejection, rejected, VerifyRead(b, goal, proposal)))
  {
    hide Verify, GetSeatUsage;
  }

  lemma FinishFits(rec: RunRec, f: Frame)
    requires f.Checked? && RunFits(rec.run) && FrameFits(f)
    ensures RunFits(FinishTx(rec, f.proposal, f.changed, f.rejection, f.rejected, f.checked).run)
  {
    hide BlockingReason;
  }

  lemma AdmitFits(b: Store, rec: RunRec, tool: Tool)
    requires RunFits(rec.run)
    ensures RunFits(AdmitTx(b, rec, tool).0.run)
  {
    hide CountCalls, AnyStarted;
  }

  lemma ReportFits(rec: RunRec, f: Frame)
    requires RunFits(rec.run) && f.Ran?
    ensures RunFits(ReportTx(rec, f.call, f.tool, f.goal, f.outcome).0.run)
  {
    hide Observe;
  }

  lemma RecordFits(rec: RunRec, stage: Stage, record: ModelRecord)
    requires RunFits(rec.run)
    ensures RunFits(RecordTx(rec, stage, record).0.run)
  {
    hide ModelCallAccepted;
  }

  lemma ExtractFits(rec: RunRec, outcome: Intent)
    requires RunFits(rec.run)
    ensures RunFits(ExtractTx(rec, outcome).run)
  {
    hide UngroundedFields;
  }

  lemma DecideFits(rec: RunRec)
    requires RunFits(rec.run)
    ensures BeginDecideTx(rec).Some? ==> RunFits(BeginDecideTx(rec).value.run)
    ensures RunFits(BeforeRequestTx(rec).0.run)
  {
    hide CountStage;
  }

  lemma ConcludeFits(rec: RunRec, proposal: Proposal)
    requires RunFits(rec.run)
    ensures ConcludeTx(rec, proposal).Some? ==> RunFits(ConcludeTx(rec, proposal).value.run)
  {
    hide AnyStarted;
  }

  lemma AbortFits(rec: RunRec, why: Abort)
    requires RunFits(rec.run)
    ensures RunFits(AbortTx(rec, why).run)
  {
  }

  lemma StepFits(b: Store, r: nat, rec: RunRec, f: Frame, e: RunEvent)
    requires RunFits(rec.run) && FrameFits(f)
    ensures var after := RunStep(b, r, rec, f, e); RunFits(after.rec.run) && FrameFits(after.frame)
  {
    hide ExtractTx, ResolveTx, RecordTx, BeforeRequestTx, AdmitTx, BusinessTx, ReportTx, FinishTx;
    hide AbortTx, ConcludeTx, BeginDecideTx;
    hide Resolve, VerifyRead, AnyMutationSucceeded, BlockingRejection, RejectedCall, RunFits, RejectionFits, RejectionMatches;
    match e
    case Record(stage, record) => RecordFits(rec, stage, record);
    case EndExtract(outcome) => ExtractFits(rec, outcome);
    case Lookup(fault) => if f.Resolving? { LookupFits(b, f.email, f.product); }
    case EndResolve => if f.Looked? { ResolveFits(rec, f.found); }
    case Admit(tool) => AdmitFits(b, rec, tool);
    case Report => if f.Ran? { ReportFits(rec, f); }
    case Conclude(proposal) =>
      RejectedFits(rec.calls);
      ConcludeFits(rec, proposal);
    case VerifyNow(fault) =>
      if f.Concluded? { VerifyFits(b, f.goal, f.proposal, f.changed, f.rejection, f.rejected); }
    case Finish => if f.Checked? { FinishFits(rec, f); }
    case AbortDecision(why) => AbortFits(rec, why);
    case _ => DecideFits(rec);
  }

  lemma NewRunFits(instruction: string, actor: string)
    ensures RunFits(NewRun(instruction, actor).run)
  {
  }

  /** Every run the executor wrote carries the detail its outcome calls for. */
  lemma {:induction false} HistoryFits(events: seq<Event>, r: nat)
    requires StateAfter(events).Has(r)
    ensures RunFits(StateAfter(events).db.runs[r].run) && FrameFits(StateAfter(events).frames[r])
  {
    hide RunStep, RunFits, HumanTx, ValidatedRequest, NewRun, StateInv;
    if events != [] {
      var earlier, e := events[..|events| - 1], events[|events| - 1];
      var s := StateAfter(earlier);
      FramesMatchRuns(earlier);
      if s.Has(r) {
        HistoryFits(earlier, r);
        if e.On? && e.r == r {
          StepFits(s.db.store, r, s.db.runs[r], s.frames[r], e.e);
        }
      } else {
        NewRunFits(e.instruction, ValidatedRequest(e.instruction, e.actor).value);
      }
    }
  }

  lemma FramesMatchRuns(events: seq<Event>)
    ensures |StateAfter(events).frames| == |StateAfter(events).db.runs|
  {
    hide StateAfter, RunInv, SoundStore;
    Reachable(events);
  }

  predicate Refined(reason: Reason) {
    reason.InstructionUnclear? || reason.UnsupportedRequest? || reason.PlannerFailed? || reason.StepLimit?
  }

  predicate DecidedByVerification(reason: Reason) {
    CompletionReason(reason) || reason.VerificationFailed? || reason.NoSeats? || reason.InactiveUser?
  }

  /** The view's own evidence for a block: the recorded rejection, or the confirmed claim. */
  predicate ShowsWhy(v: VerificationRead, why: Reason) {
    if v.blockingRejection.Some? then BlockingReason(v.blockingRejection.value) == Some(why)
    else ClaimHeld(v) && BlocksByClaim(v.blockCheck.value.claim) == why
  }

  predicate ClaimHeld(v: VerificationRead) {
    v.blockCheck.Some? && v.blockCheck.value.confirmed
  }

  predicate ShowsBlock(v: VerificationRead) {
    !v.satisfied && (v.blockingRejection.Some? || ClaimHeld(v))
  }

  /** The columns hold the proposal whole. */
  predicate SaysProposal(run: AgentRun, shown: Option<Proposal>) {
    match shown
    case None => run.proposal.None? && run.claim.None?
    case Some(p) => run.proposal == Some(KindOf(p)) && run.claim == if p.CannotProceed? then Some(p.why) else None
  }

  /** The view accounts for how the run ended: a refining code exactly for the
      reasons that have one, and the verification exactly where it decided;
      COMPLETED exactly if it found the goal holding, BLOCKED (policy apart)
      exactly if it shows a rejection or a confirmed claim, and for that reason. */
  predicate AccountsFor(view: RunRead, run: AgentRun) {
    && SaysProposal(run, view.summary.proposal)
    && view.summary.status == run.status && view.summary.reason == run.reason
    && (view.summary.outcomeCode.Some? <==> run.reason.Some? && Refined(run.reason.value))
    && (view.verification.Some? <==> run.reason.Some? && DecidedByVerification(run.reason.value))
    && (view.verification.Some? ==> (view.verification.value.satisfied <==> run.status == Completed))
    && (run.status == Blocked && run.reason != Some(PolicyDenied) <==>
          view.verification.Some? && ShowsBlock(view.verification.value))
    && (view.verification.Some? && ShowsBlock(view.verification.value) ==>
          run.reason.Some? && ShowsWhy(view.verification.value, run.reason.value))
  }

  lemma ProposalIsWhole(run: AgentRun)
    requires RunShape(run)
    ensures ProposalOf(run).Ok? && SaysProposal(run, ProposalOf(run).value)
  {
  }

  lemma VerificationIsShown(run: AgentRun)
    requires RunShape(run) && RunFits(run)
    ensures VerificationOf(run.detail).Ok?
    ensures var v := VerificationOf(run.detail).value;
      && (v.Some? <==> run.reason.Some? && DecidedByVerification(run.reason.value))
      && (v.Some? ==> (v.value.satisfied <==> run.status == Completed))
      && (run.status == Blocked && run.reason != Some(PolicyDenied) <==> v.Some? && ShowsBlock(v.value))
      && (v.Some? && ShowsBlock(v.value) ==> run.reason.Some? && ShowsWhy(v.value, run.reason.value))
  {
    hide BlockingReason, BlocksByClaim, GoalWhole;
  }

  lemma FittingRunIsAccountedFor(rec: RunRec)
    requires RunShape(rec.run) && RunFits(rec.run)
    ensures SummaryOf(rec.run).Ok?
    ensures ReadOf(rec).Ok? <==> TraceOf(ListTrace(rec.calls, rec.models)).Ok?
    ensures ReadOf(rec).Ok? ==> AccountsFor(ReadOf(rec).value, rec.run)
    ensures ReadOf(rec).Err? ==> ReadOf(rec) == Err(UnknownOutput)
  {
    hide ListTrace, GoalOf, ProposalOf, VerificationOf, SaysProposal, ShowsWhy, ShowsBlock, RunShape;
    hide DecidedByVerification, Accounts, RejectionFits, TraceOf;
    ProposalIsWhole(rec.run);
    VerificationIsShown(rec.run);
    OnlyUnknownOutput(ListTrace(rec.calls, rec.models));
  }

  lemma {:induction false} OnlyUnknownOutput(trace: seq<TraceEntry>)
    ensures TraceOf(trace).Err? ==> TraceOf(trace) == Err(UnknownOutput)
  {
    if trace != [] {
      OnlyUnknownOutput(trace[..|trace| - 1]);
    }
  }

  /** The summary of every run the executor wrote can be shown; the whole view
      exactly if each recorded output can be read back, and then it accounts
      for the run's outcome. */
  lemma ViewAccountsForOutcome(events: seq<Event>, r: nat, rec: RunRec)
    requires RunIn(events, r, rec)
    ensures SummaryOf(rec.run).Ok?
    ensures ReadOf(rec).Ok? <==> OutputsReadable(rec.models)
    ensures ReadOf(rec).Ok? ==> AccountsFor(ReadOf(rec).value, rec.run)
    ensures ReadOf(rec).Err? ==> ReadOf(rec) == Err(UnknownOutput)
  {
    hide StateAfter, ReadOf, AccountsFor, RunFits, RunShape, TraceOf, ListTrace, CanShow, OutputsReadable, SummaryOf;
    RunInHasInv(events, r, rec);
    FramesMatchRuns(events);
    HistoryFits(events, r);
    FittingRunIsAccountedFor(rec);
    TraceIsShown(ListTrace(rec.calls, rec.models));
    EntriesAreRows(rec.calls, rec.models);
  }

  /** A request recorded by one of the application's own planners. */
  ghost predicate ByShippedPlanner(record: ModelRecord) {
    || (exists turn :: record == RecordOf(turn))
    || (exists turn, instruction :: record == IntentRecordOf(turn, instruction))
  }

  /** With the application's own planners, whatever their provider answers, the
      whole view can be shown. */
  lemma ShippedPlannersCanBeShown(events: seq<Event>, r: nat, rec: RunRec)
    requires RunIn(events, r, rec)
    requires forall stage, record | On(r, Record(stage, record)) in events :: ByShippedPlanner(record)
    ensures ReadOf(rec).Ok?
  {
    hide StateAfter, ReadOf, Readable, RecordOf, IntentRecordOf;
    RowsHaveOrigins(events, r, rec);
    ViewAccountsForOutcome(events, r, rec);
    forall m | m in rec.models ensures Readable(m.rec) {
      assert On(r, Record(m.stage, m.rec)) in events;
      if turn :| m.rec == RecordOf(turn) {
        ShippedRecordsAreReadable(turn, "");
      } else {
        var turn, instruction :| m.rec == IntentRecordOf(turn, instruction);
        ShippedRecordsAreReadable(turn, instruction);
      }
    }
  }

  /** The view's trace shows entry i under number i + 1. */
  lemma ViewTraceIsNumbered(events: seq<Event>, r: nat, rec: RunRec)
    requires RunIn(events, r, rec) && ReadOf(rec).Ok?
    ensures |ReadOf(rec).value.trace| == rec.run.lastSeq
    ensures forall i | 0 <= i < rec.run.lastSeq ::
      match ReadOf(rec).value.trace[i]
      case ModelEntry(seqNo, _, _, _, _, _, _, _, _) => seqNo == i + 1
      case ToolEntry(seqNo, _, _, _, _, _) => seqNo == i + 1
  {
    hide StateAfter, ListTrace, TraceOf;
    RunInHasInv(events, r, rec);
    InterleavedIsNumbered(rec.calls, rec.models, rec.run.lastSeq);
    TraceIsShown(ListTrace(rec.calls, rec.models));
  }

  // --- each part of the view is its stored column ----------------------------------------------

  /** The code shown beside a reason is the one its detail holds. */
  predicate ShowsCode(run: AgentRun, code: Option<string>) {
    match run.detail
    case Some(CodeDetail(stored)) => run.reason in {Some(InstructionUnclear), Some(UnsupportedRequest)} ==> code == Some(stored)
    case Some(PlannerDetail(_, stored, _, _)) => run.reason == Some(PlannerFailed) ==> code == Some(stored)
    case Some(LimitDetail(limit, _)) =>
      run.reason == Some(StepLimit) ==>
        && (code == Some("model_requests") <==> limit == ModelRequests)
        && (code == Some("read_calls") <==> limit == ReadCalls)
        && (code == Some("mutation_calls") <==> limit == MutationCalls)
    case _ => true
  }

  predicate ShowsVerdict(run: AgentRun, shown: Option<VerificationRead>) {
    match run.detail
    case Some(VerdictDetail(verdict, rejection, check)) =>
      && shown.Some? && (shown.value.satisfied <==> verdict.satisfied)
      && (shown.value.blockingRejection.Some? <==> rejection.Some?)
      && (rejection.Some? ==> rejection.value.error == Some(ToolError(shown.value.blockingRejection.value)))
      && (shown.value.blockCheck.Some? <==> check.Some?)
      && (check.Some? ==> shown.value.blockCheck.value == BlockCheckRead(check.value.claim, check.value.confirmed))
    case _ => shown.None?
  }

  predicate ShowsGoal(run: AgentRun, shown: Option<GoalRead>) {
    && (shown.Some? <==> run.email.Some?)
    && (shown.Some? ==> Some(shown.value.email) == run.email && Some(shown.value.product) == run.product)
  }

  lemma PartsAreColumns(rec: RunRec)
    requires RunShape(rec.run) && ReadOf(rec).Ok?
    ensures var (view, run) := (ReadOf(rec).value, rec.run);
      && view.summary.instruction == run.instruction && view.summary.actor == run.requestingActor
      && view.summary.completed == run.completed && view.context == run.context
      && ShowsGoal(run, view.summary.goal) && ShowsCode(run, view.summary.outcomeCode) && ShowsVerdict(run, view.verification)
  {
    hide TraceOf, ListTrace, BlockingReason;
  }

  /** The entry shows this call: its tool, status, policy, error code and observation. */
  predicate ShowsCall(entry: EntryRead, c: ToolCall) {
    && entry.ToolEntry? && entry.seqNo == c.seqNo && entry.tool == c.tool && entry.status == c.status
    && entry.policy == c.policy && entry.observation == c.observation
    && (entry.code.Some? <==> c.error.Some?) && (c.error.Some? ==> c.error == Some(ToolError(entry.code.value)))
  }

  /** The entry shows this request, and reads its output back as what was recorded. */
  predicate ShowsRequest(entry: EntryRead, m: ModelCall) {
    && entry.ModelEntry? && entry.seqNo == m.seqNo && entry.stage == m.stage && entry.model == m.rec.model
    && entry.succeeded == m.succeeded && entry.inputTokens == m.rec.inputTokens && entry.outputTokens == m.rec.outputTokens
    && entry.latency == m.rec.latency && entry.error == m.rec.error
    && (entry.output.Some? <==> m.rec.output.Some?)
    && (entry.output.Some? ==> m.rec.output == Some(Dump(entry.output.value)))
  }

  lemma EntryShowsRow(entry: TraceEntry)
    requires CanShow(entry)
    ensures entry.OfTool? ==> ShowsCall(EntryOf(entry), entry.call)
    ensures entry.OfModel? ==> ShowsRequest(EntryOf(entry), entry.model)
  {
    hide ReadOutput, Dump;
    if entry.OfModel? && entry.model.rec.output.Some? {
      var fields := entry.model.rec.output.value;
      ReadsExactlyDumps(fields, ReadOutput(fields).value);
    }
  }

  lemma {:induction false} TraceHasRows(calls: seq<ToolCall>, models: seq<ModelCall>)
    ensures forall c | c in calls :: OfTool(c) in ListTrace(calls, models)
    ensures forall m | m in models :: OfModel(m) in ListTrace(calls, models)
    decreases |calls| + |models|
  {
    if calls == [] && models == [] {
    } else if models == [] || (calls != [] && calls[|calls| - 1].seqNo > models[|models| - 1].seqNo) {
      TraceHasRows(calls[..|calls| - 1], models);
      assert calls == calls[..|calls| - 1] + [calls[|calls| - 1]];
    } else {
      TraceHasRows(calls, models[..|models| - 1]);
      assert models == models[..|models| - 1] + [models[|models| - 1]];
    }
  }

  /** Every row of both trace tables is shown under its own number. */
  predicate ShowsRows(trace: seq<EntryRead>, calls: seq<ToolCall>, models: seq<ModelCall>) {
    && |trace| == |calls| + |models|
    && (forall c | c in calls :: 1 <= c.seqNo <= |trace| && ShowsCall(trace[c.seqNo - 1], c))
    && (forall m | m in models :: 1 <= m.seqNo <= |trace| && ShowsRequest(trace[m.seqNo - 1], m))
  }

  lemma TraceShowsRows(calls: seq<ToolCall>, models: seq<ModelCall>, n: int)
    requires TraceOk(calls, models, n) && TraceOf(ListTrace(calls, models)).Ok?
    ensures ShowsRows(TraceOf(ListTrace(calls, models)).value, calls, models)
  {
    hide ListTrace, TraceOf, CanShow, EntryOf, ShowsCall, ShowsRequest, TraceOk;
    var rows := ListTrace(calls, models);
    var trace := TraceOf(rows).value;
    InterleavedIsNumbered(calls, models, n);
    TraceIsShown(rows);
    TraceHasRows(calls, models);
    forall c | c in calls ensures 1 <= c.seqNo <= |trace| && ShowsCall(trace[c.seqNo - 1], c) {
      var i :| 0 <= i < |rows| && rows[i] == OfTool(c);
      EntryShowsRow(rows[i]);
    }
    forall m | m in models ensures 1 <= m.seqNo <= |trace| && ShowsRequest(trace[m.seqNo - 1], m) {
      var i :| 0 <= i < |rows| && rows[i] == OfModel(m);
      EntryShowsRow(rows[i]);
    }
  }

  /** Every column that the view is made of is shown as it is stored, and every
      row of both trace tables under its own number. */
  lemma ViewShowsWhatIsStored(events: seq<Event>, r: nat, rec: RunRec)
    requires RunIn(events, r, rec) && ReadOf(rec).Ok?
    ensures var (view, run) := (ReadOf(rec).value, rec.run);
      && view.summary.instruction == run.instruction && view.summary.actor == run.requestingActor
      && view.summary.completed == run.completed && view.context == run.context
      && ShowsGoal(run, view.summary.goal) && ShowsCode(run, view.summary.outcomeCode) && ShowsVerdict(run, view.verification)
      && ShowsRows(view.trace, rec.calls, rec.models)
  {
    hide StateAfter, ListTrace, TraceOf, ShowsRows, ShowsGoal, ShowsCode, ShowsVerdict, RunInv, RunShape, TraceOk, SoundStore;
    RunInHasInv(events, r, rec);
    RunHasTrace(StateAfter(events).db.store, r, rec, StateAfter(events).frames[r]);
    PartsAreColumns(rec);
    TraceShowsRows(rec.calls, rec.models, rec.run.lastSeq);
  }

  lemma RunHasTrace(b: Store, r: nat, rec: RunRec, f: Frame)
    requires RunInv(b, r, rec, f)
    ensures RunShape(rec.run) && TraceOk(rec.calls, rec.models, rec.run.lastSeq)
  {
  }
}
