/** What every transaction keeps true of every run: the inductive invariant of
    the machine, and its proof, one transaction at a time. */
module Invariant {
  import opened Basics
  import opened Listings
  import opened Text
  import opened Domain
  import opened AgentRows
  import opened SqlChecks
  import opened Services
  import opened Resolution
  import opened Tools
  import opened Machine

  // --- the trace -------------------------------------------------------------------

  function CallNumbers(calls: seq<ToolCall>): (s: seq<int>)
    ensures |s| == |calls| && forall i | 0 <= i < |s| :: s[i] == calls[i].seqNo
  {
    seq(|calls|, i requires 0 <= i < |calls| => calls[i].seqNo)
  }

  function ModelNumbers(models: seq<ModelCall>): (s: seq<int>)
    ensures |s| == |models| && forall i | 0 <= i < |s| :: s[i] == models[i].seqNo
  {
    seq(|models|, i requires 0 <= i < |models| => models[i].seqNo)
  }

  /** Two numberings that together count 1, 2, .., n, each number once. */
  predicate Interleaved(a: seq<int>, b: seq<int>, n: int)
    decreases |a| + |b|
  {
    if a == [] && b == [] then n == 0
    else if a != [] && a[|a| - 1] == n then Interleaved(a[..|a| - 1], b, n - 1)
    else b != [] && b[|b| - 1] == n && Interleaved(a, b[..|b| - 1], n - 1)
  }

  predicate TraceOk(calls: seq<ToolCall>, models: seq<ModelCall>, lastSeq: int) {
    Interleaved(CallNumbers(calls), ModelNumbers(models), lastSeq)
  }

  lemma {:induction false} InterleavedBounds(a: seq<int>, b: seq<int>, n: int)
    requires Interleaved(a, b, n)
    ensures n == |a| + |b|
    ensures forall x | x in a || x in b :: 1 <= x <= n
    decreases |a| + |b|
  {
    if a != [] && a[|a| - 1] == n {
      InterleavedBounds(a[..|a| - 1], b, n - 1);
      assert a == a[..|a| - 1] + [n];
    } else if b != [] {
      InterleavedBounds(a, b[..|b| - 1], n - 1);
      assert b == b[..|b| - 1] + [n];
    }
  }

  /** A row that takes the next number extends the trace. */
  lemma TraceNext(calls: seq<ToolCall>, models: seq<ModelCall>, n: int)
    requires TraceOk(calls, models, n)
    ensures forall c: ToolCall | c.seqNo == n + 1 :: TraceOk(calls + [c], models, n + 1)
    ensures forall m: ModelCall | m.seqNo == n + 1 :: TraceOk(calls, models + [m], n + 1)
  {
    hide Interleaved;
    InterleavedNext(CallNumbers(calls), ModelNumbers(models), n);
    forall c: ToolCall | c.seqNo == n + 1 ensures TraceOk(calls + [c], models, n + 1) {
      assert CallNumbers(calls + [c]) == CallNumbers(calls) + [n + 1];
    }
    forall m: ModelCall | m.seqNo == n + 1 ensures TraceOk(calls, models + [m], n + 1) {
      assert ModelNumbers(models + [m]) == ModelNumbers(models) + [n + 1];
    }
  }

  lemma InterleavedNext(a: seq<int>, b: seq<int>, n: int)
    requires Interleaved(a, b, n)
    ensures Interleaved(a + [n + 1], b, n + 1)
    ensures Interleaved(a, b + [n + 1], n + 1)
  {
    InterleavedBounds(a, b, n);
    assert (a + [n + 1])[..|a|] == a;
    assert (b + [n + 1])[..|b|] == b;
    if a != [] {
      assert a[|a| - 1] in a;
    }
  }

  // --- the invariant -----------------------------------------------------------------

  /** Ids that the run refers to exist. */
  predicate RefsOk(b: Store, run: AgentRun) {
    && (run.userId.Some? ==> run.userId.value in b.users)
    && (run.licenceId.Some? ==> run.licenceId.value in b.licences)
  }

  /** A goal's words stand in the instruction, and the context repeats them. */
  predicate WordsOk(run: AgentRun) {
    && (run.email.Some? ==> Grounded(run.email.value, run.instruction))
    && (run.product.Some? ==> Grounded(run.product.value, run.instruction))
    && (run.context.Some? ==>
          run.email.Some? && run.product.Some? && run.context.value == Context(run.email.value, run.product.value))
  }

  predicate StageOk(run: AgentRun) {
    match run.status
    case Received => run.context.None?
    case Resolved => run.context.None?
    case NeedsClarification => run.context.None?
    case Executing => run.context.Some? && run.proposal.None?
    case AwaitingApproval => run.context.Some? && run.proposal.None?
    case Failed => true
    case _ => run.context.Some?
  }

  predicate RefusedByLimit(c: ToolCall) {
    c.error == Some(ToolError(CodeStepLimit))
  }

  function AdmittedPolicy(tool: Tool): Option<Policy> {
    if tool.Mutates() then Some(Allow) else None
  }

  function OutcomeOf(c: ToolCall): Result<ToolOutput, ToolError>
    requires c.result.Some? || c.error.Some?
  {
    if c.result.Some? then Ok(c.result.value) else Err(c.error.value)
  }

  /** A recorded call, and what it says of its run's status. */
  predicate CallOk(run: AgentRun, c: ToolCall, last: bool) {
    && CallShape(c)
    && PersistedGoal(run).Some?
    && c.args == ArgumentsOf(c.tool, PersistedGoal(run).value)
    && match c.status
       case Held =>
         last && c.tool.Mutates() && (run.status == AwaitingApproval || run.reason == Some(StepLimit))
       case Started =>
         last && (run.status == Executing || run.status.Failed?) && c.policy == AdmittedPolicy(c.tool)
       case Succeeded =>
         c.policy == AdmittedPolicy(c.tool) && c.observation == Observe(c.tool, PersistedGoal(run).value, OutcomeOf(c))
       case CallFailed =>
         if RefusedByLimit(c) then
           last && run.status.Failed? && run.reason == Some(StepLimit) && c.policy.None? && c.observation.None?
         else if c.error == Some(ToolError(CodePolicyDenied)) then
           last && c.tool.Mutates() && run.reason == Some(PolicyDenied) && c.policy == Some(Deny) && c.observation.None?
         else
           && c.policy == AdmittedPolicy(c.tool)
           && c.observation == Observe(c.tool, PersistedGoal(run).value, OutcomeOf(c))
           && (c.observation.None? ==> last && run.reason == Some(ToolFailed))
  }

  predicate CallsOk(run: AgentRun, calls: seq<ToolCall>) {
    && (calls != [] ==> run.context.Some?)
    && forall i | 0 <= i < |calls| :: CallOk(run, calls[i], i == |calls| - 1)
  }

  predicate LastIs(calls: seq<ToolCall>, status: CallStatus, error: Option<ToolError>) {
    calls != [] && calls[|calls| - 1].status == status && calls[|calls| - 1].error == error
  }

  /** The ways a run's status points at its last call. */
  predicate EndingOk(run: AgentRun, calls: seq<ToolCall>) {
    && (run.status == AwaitingApproval ==> LastIs(calls, Held, None))
    && (run.reason == Some(PolicyDenied) ==> LastIs(calls, CallFailed, Some(ToolError(CodePolicyDenied))))
    && (run.reason == Some(GoalSatisfied) ==> AnyMutationSucceeded(calls))
    && (run.reason == Some(AlreadySatisfied) ==> !AnyMutationSucceeded(calls))
  }

  /** Calls over a limit are recorded at most once, at the end. */
  predicate BudgetOk(calls: seq<ToolCall>) {
    forall mutates: bool :: CountCalls(calls, mutates) <= MaxCalls(mutates) + Overrun(calls, mutates)
  }

  function Overrun(calls: seq<ToolCall>, mutates: bool): nat {
    if calls != [] && RefusedByLimit(calls[|calls| - 1]) && calls[|calls| - 1].tool.Mutates() == mutates then 1 else 0
  }

  /** The mutation that was not refused over the limit. */
  predicate Attempt(c: ToolCall) {
    c.tool.Mutates() && !RefusedByLimit(c)
  }

  predicate OneAttempt(calls: seq<ToolCall>) {
    forall i, j | 0 <= i < j < |calls| :: !(Attempt(calls[i]) && Attempt(calls[j]))
  }

  predicate ModelsOk(models: seq<ModelCall>) {
    forall i | 0 <= i < |models| :: ModelCallAccepted(models[i])
  }

  predicate FrameOk(b: Store, rec: RunRec, f: Frame) {
    var run := rec.run;
    match f
    case Idle => true
    case Extracting => AwaitingExtraction(run)
    case Resolving(email, product) => run.status == Received && run.email == Some(email) && run.product == Some(product)
    case Looked(found) =>
      && run.status == Received && run.email.Some? && run.product.Some?
      && (match found
          case Ok(ResolvedTo(goal)) =>
            && goal.userId in b.users && goal.licenceId in b.licences
            && Some(goal.email) == run.email && Some(goal.product) == run.product
          case Ok(Unresolved(code, _)) => ClarificationReason(code) && !EndedBeforeGoal(code)
          case Err(_) => true)
    case Deciding => run.context.Some? && run.status != Verifying && run.status != Completed
    case Admitted(call, tool, goal, _) => InCall(rec, call, tool, goal)
    case Ran(call, tool, goal, outcome, _) =>
      && InCall(rec, call, tool, goal)
      && (outcome.Err? ==> outcome.error.code != CodeStepLimit && outcome.error.code != CodePolicyDenied)
    case Concluded(proposal, goal, changed, rejection, rejected) =>
      && run.status == Verifying && PersistedGoal(run) == Some(goal) && run.proposal == Some(KindOf(proposal))
      && changed == AnyMutationSucceeded(rec.calls) && rejection == BlockingRejection(rec.calls)
      && rejected == RejectedCall(rec.calls)
    case Checked(proposal, changed, rejection, rejected, _) =>
      && run.status == Verifying && run.proposal == Some(KindOf(proposal))
      && changed == AnyMutationSucceeded(rec.calls) && rejection == BlockingRejection(rec.calls)
      && rejected == RejectedCall(rec.calls)
  }

  predicate InCall(rec: RunRec, call: nat, tool: Tool, goal: Goal) {
    && rec.run.status == Executing && PersistedGoal(rec.run) == Some(goal)
    && |rec.calls| == call + 1 && rec.calls[call].status == Started && rec.calls[call].tool == tool
  }

  // --- attribution ------------------------------------------------------------------------

  /** The audit events written under run `r`'s actor, in order. */
  function EventsOf(audit: seq<AuditEvent>, r: nat): seq<AuditEvent> {
    if audit == [] then []
    else
      var last := audit[|audit| - 1];
      EventsOf(audit[..|audit| - 1], r) + if last.actor == AgentActor(r) then [last] else []
  }

  lemma EventsOfAppend(audit: seq<AuditEvent>, e: AuditEvent, r: nat)
    ensures EventsOf(audit + [e], r) == EventsOf(audit, r) + if e.actor == AgentActor(r) then [e] else []
  {
    assert (audit + [e])[..|audit|] == audit;
  }

  /** The event of an assignment of exactly the goal's rows. */
  predicate GoalEvent(e: AuditEvent, goal: Goal) {
    && e.action == AssignmentCreate && e.before.None?
    && e.after == Some(Assigned(goal.userId, goal.licenceId))
  }

  /** How a run's own events match its recorded mutation: none before it ran
      or when it failed, one when it succeeded, at most one while unknown. */
  predicate AttributionOk(goal: Option<Goal>, calls: seq<ToolCall>, mine: seq<AuditEvent>) {
    && |mine| <= 1
    && (mine != [] ==> goal.Some? && GoalEvent(mine[0], goal.value))
    && (mine != [] ==> exists i :: 0 <= i < |calls| && Attempt(calls[i]) && MayHaveCommitted(calls[i]))
    && (forall i | 0 <= i < |calls| && Attempt(calls[i]) :: CallAttribution(calls[i], |mine|))
  }

  /** Between the transactions of a call it is known whether its change committed. */
  predicate FrameAttributionOk(f: Frame, events: nat) {
    match f
    case Admitted(_, AssignSeat, _, _) => events == 0
    case Ran(_, AssignSeat, _, outcome, _) => events == if outcome.Ok? then 1 else 0
    case _ => true
  }

  predicate MayHaveCommitted(c: ToolCall) {
    c.status == Started || c.status == Succeeded
  }

  predicate CallAttribution(c: ToolCall, events: nat) {
    && (c.status == Succeeded ==> events == 1)
    && (!MayHaveCommitted(c) ==> events == 0)
  }

  /** The invariant of one run. */
  predicate RunInv(b: Store, r: nat, rec: RunRec, f: Frame) {
    && RunShape(rec.run)
    && RefsOk(b, rec.run)
    && WordsOk(rec.run)
    && StageOk(rec.run)
    && CallsOk(rec.run, rec.calls)
    && EndingOk(rec.run, rec.calls)
    && BudgetOk(rec.calls)
    && OneAttempt(rec.calls)
    && ModelsOk(rec.models)
    && TraceOk(rec.calls, rec.models, rec.run.lastSeq)
    && FrameOk(b, rec, f)
    && AttributionOk(PersistedGoal(rec.run), rec.calls, EventsOf(b.audit, r))
    && FrameAttributionOk(f, |EventsOf(b.audit, r)|)
  }

  // --- transactions that change the run's row ---------------------------------------------

  predicate RowOk(b: Store, run: AgentRun) {
    RunShape(run) && RefsOk(b, run) && WordsOk(run) && StageOk(run)
  }

  /** Ending or advancing the run leaves its recorded calls explained. */
  predicate MayAdvance(run: AgentRun, after: AgentRun, calls: seq<ToolCall>) {
    && !run.completed
    && run.lastSeq == after.lastSeq
    && (calls == [] || (PersistedGoal(run) == PersistedGoal(after) && after.context.Some?))
    && (run.status == AwaitingApproval ==> after.reason == Some(StepLimit))
    && (after.status.Failed? || !AnyStarted(calls))
  }

  lemma CallsCarryOver(run: AgentRun, after: AgentRun, calls: seq<ToolCall>)
    requires CallsOk(run, calls) && RunShape(run)
    requires MayAdvance(run, after, calls)
    ensures CallsOk(after, calls)
  {
    forall i | 0 <= i < |calls| ensures CallOk(after, calls[i], i == |calls| - 1) {
      assert CallOk(run, calls[i], i == |calls| - 1);
    }
  }

  predicate BetweenCalls(f: Frame) {
    !f.Admitted? && !f.Ran?
  }

  lemma NothingCommittedYet(b: Store, r: nat, rec: RunRec, f: Frame)
    requires RunInv(b, r, rec, f) && rec.run.context.None?
    ensures rec.calls == [] && EventsOf(b.audit, r) == []
  {
  }

  /** A transaction that changes only the run's row keeps the invariant if the
      new row is sound and accounts for the recorded calls. */
  lemma Advance(b: Store, r: nat, rec: RunRec, f: Frame, run: AgentRun, g: Frame)
    requires RunInv(b, r, rec, f)
    requires RowOk(b, run) && MayAdvance(rec.run, run, rec.calls) && EndingOk(run, rec.calls)
    requires FrameOk(b, rec.(run := run), g) && BetweenCalls(g)
    ensures RunInv(b, r, rec.(run := run), g)
  {
    CallsCarryOver(rec.run, run, rec.calls);
    if rec.calls == [] {
      assert AttributionOk(PersistedGoal(run), rec.calls, EventsOf(b.audit, r));
    }
  }

  lemma ExtractKeeps(b: Store, r: nat, rec: RunRec, outcome: Intent)
    requires RunInv(b, r, rec, Extracting)
    ensures RunInv(b, r, ExtractTx(rec, outcome), Idle)
  {
    hide TraceOk, BudgetOk, OneAttempt, ModelsOk, AttributionOk, EventsOf, Grounded, CallsOk;
    NothingCommittedYet(b, r, rec, Extracting);
    var run := ExtractTx(rec, outcome).run;
    assert RowOk(b, run) && EndingOk(run, rec.calls) && MayAdvance(rec.run, run, rec.calls);
    Advance(b, r, rec, Extracting, run, Idle);
  }

  lemma ResolveKeeps(b: Store, r: nat, rec: RunRec, found: Result<Resolution, string>)
    requires RunInv(b, r, rec, Looked(found))
    ensures RunInv(b, r, ResolveTx(rec, found), Idle)
  {
    hide TraceOk, BudgetOk, OneAttempt, ModelsOk, AttributionOk, EventsOf, Grounded, CallsOk;
    NothingCommittedYet(b, r, rec, Looked(found));
    var run := ResolveTx(rec, found).run;
    assert RowOk(b, run) && EndingOk(run, rec.calls) && MayAdvance(rec.run, run, rec.calls);
    Advance(b, r, rec, Looked(found), run, Idle);
  }

  lemma LookupKeeps(b: Store, r: nat, rec: RunRec, email: string, product: string, found: Result<Resolution, string>)
    requires RunInv(b, r, rec, Resolving(email, product))
    requires found.Ok? ==> Resolve(b, email, product) == Ok(found.value)
    ensures RunInv(b, r, rec, Looked(found))
  {
    hide TraceOk, BudgetOk, OneAttempt, ModelsOk, AttributionOk, EventsOf, Grounded, CallsOk, RowOk, EndingOk;
    if found.Ok? {
      LookupFindsRows(b, email, product, found.value);
    }
    hide Resolve;
  }

  lemma LookupFindsRows(b: Store, email: string, product: string, found: Resolution)
    requires Resolve(b, email, product) == Ok(found)
    ensures found.Unresolved? ==> ClarificationReason(found.code) && !EndedBeforeGoal(found.code)
    ensures found.ResolvedTo? ==>
      && found.goal.userId in b.users && found.goal.licenceId in b.licences
      && found.goal.email == email && found.goal.product == product
  {
    hide ValidatedEmail, RequiredText, InOrder, SortedIds, ProductsOf;
    if found.ResolvedTo? {
      assert found.goal.userId in FindUserByEmail(b, email).value;
    }
  }

  lemma BeginDecideKeeps(b: Store, r: nat, rec: RunRec)
    requires RunInv(b, r, rec, Idle) && BeginDecideTx(rec).Some?
    ensures RunInv(b, r, BeginDecideTx(rec).value, Deciding)
  {
    hide TraceOk, BudgetOk, OneAttempt, ModelsOk, AttributionOk, EventsOf, Grounded, CallsOk;
    NothingCommittedYet(b, r, rec, Idle);
    Advance(b, r, rec, Idle, BeginDecideTx(rec).value.run, Deciding);
  }

  lemma BeforeRequestKeeps(b: Store, r: nat, rec: RunRec, f: Frame)
    requires RunInv(b, r, rec, f) && MayCallBack(rec.run, f)
    ensures RunInv(b, r, BeforeRequestTx(rec).0, f)
  {
    hide TraceOk, BudgetOk, OneAttempt, ModelsOk, AttributionOk, EventsOf, Grounded, CallsOk;
    var run := BeforeRequestTx(rec).0.run;
    if run != rec.run {
      Advance(b, r, rec, f, run, f);
    }
  }

  lemma ConcludeKeeps(b: Store, r: nat, rec: RunRec, proposal: Proposal)
    requires RunInv(b, r, rec, Deciding) && ConcludeTx(rec, proposal).Some?
    ensures RunInv(b, r, ConcludeTx(rec, proposal).value,
                   Concluded(proposal, PersistedGoal(rec.run).value, AnyMutationSucceeded(rec.calls),
                             BlockingRejection(rec.calls), RejectedCall(rec.calls)))
  {
    hide TraceOk, BudgetOk, OneAttempt, ModelsOk, AttributionOk, EventsOf, Grounded, CallsOk;
    var frame := Concluded(proposal, PersistedGoal(rec.run).value, AnyMutationSucceeded(rec.calls),
                           BlockingRejection(rec.calls), RejectedCall(rec.calls));
    Advance(b, r, rec, Deciding, ConcludeTx(rec, proposal).value.run, frame);
  }

  lemma AbortKeeps(b: Store, r: nat, rec: RunRec, why: Abort)
    requires RunInv(b, r, rec, Deciding)
    ensures RunInv(b, r, AbortTx(rec, why), Idle)
  {
    hide TraceOk, BudgetOk, OneAttempt, ModelsOk, AttributionOk, EventsOf, Grounded, CallsOk;
    var run := AbortTx(rec, why).run;
    if run != rec.run {
      Advance(b, r, rec, Deciding, run, Idle);
    }
  }

  lemma NoStartedWhileVerifying(run: AgentRun, calls: seq<ToolCall>)
    requires CallsOk(run, calls) && run.status == Verifying
    ensures !AnyStarted(calls)
  {
    forall i | 0 <= i < |calls| ensures calls[i].status != Started {
      assert CallOk(run, calls[i], i == |calls| - 1);
    }
  }

  lemma BlockingRejectionBlocks(calls: seq<ToolCall>)
    ensures BlockingRejection(calls) in {None, Some(NoSeats), Some(InactiveUser)}
  {
  }

  lemma FinishRowOk(b: Store, rec: RunRec, f: Frame)
    requires f.Checked? && FrameOk(b, rec, f) && RowOk(b, rec.run)
    ensures var run := FinishTx(rec, f.proposal, f.changed, f.rejection, f.rejected, f.checked).run;
      && RowOk(b, run) && EndingOk(run, rec.calls)
      && run.lastSeq == rec.run.lastSeq && PersistedGoal(run) == PersistedGoal(rec.run) && run.context == rec.run.context
  {
    hide Grounded, BlockingRejection, RejectedCall, AnyMutationSucceeded;
    BlockingRejectionBlocks(rec.calls);
  }

  lemma FinishKeeps(b: Store, r: nat, rec: RunRec, f: Frame)
    requires f.Checked? && RunInv(b, r, rec, f)
    ensures RunInv(b, r, FinishTx(rec, f.proposal, f.changed, f.rejection, f.rejected, f.checked), Idle)
  {
    hide TraceOk, BudgetOk, OneAttempt, ModelsOk, AttributionOk, EventsOf, Grounded, CallsOk;
    hide BlockingRejection, RejectedCall, AnyMutationSucceeded, DecisionOutcome, EndingOk, WordsOk, RefsOk, StageOk;
    var run := FinishTx(rec, f.proposal, f.changed, f.rejection, f.rejected, f.checked).run;
    NoStartedWhileVerifying(rec.run, rec.calls);
    FinishRowOk(b, rec, f);
    Advance(b, r, rec, f, run, Idle);
  }

  // --- transactions that add a trace row -------------------------------------------------------

  lemma RenumberKeepsCalls(run: AgentRun, n: int, calls: seq<ToolCall>)
    requires CallsOk(run, calls)
    ensures CallsOk(run.(lastSeq := n), calls)
  {
    forall i | 0 <= i < |calls| ensures CallOk(run.(lastSeq := n), calls[i], i == |calls| - 1) {
      assert CallOk(run, calls[i], i == |calls| - 1);
    }
  }

  lemma RecordKeeps(b: Store, r: nat, rec: RunRec, f: Frame, stage: Stage, record: ModelRecord)
    requires RunInv(b, r, rec, f)
    ensures RunInv(b, r, RecordTx(rec, stage, record).0, f)
  {
    hide BudgetOk, OneAttempt, AttributionOk, EventsOf, Grounded, CallOk, ModelCallAccepted, TraceOk, CallsOk;
    var after := RecordTx(rec, stage, record).0;
    if after != rec {
      RenumberKeepsCalls(rec.run, after.run.lastSeq, rec.calls);
      TraceNext(rec.calls, rec.models, rec.run.lastSeq);
    }
  }

  /** While a run executes with no unfinished call, none of its calls was the last. */
  lemma ExecutingCallsContinue(run: AgentRun, after: AgentRun, calls: seq<ToolCall>)
    requires CallsOk(run, calls) && RunShape(run) && run.status == Executing && !AnyStarted(calls)
    requires PersistedGoal(after) == PersistedGoal(run)
    ensures forall i | 0 <= i < |calls| :: CallOk(after, calls[i], false)
    ensures forall i | 0 <= i < |calls| :: !RefusedByLimit(calls[i])
  {
    forall i | 0 <= i < |calls| ensures CallOk(after, calls[i], false) && !RefusedByLimit(calls[i]) {
      assert CallOk(run, calls[i], i == |calls| - 1);
    }
  }

  lemma CountCallsAppend(calls: seq<ToolCall>, c: ToolCall, mutates: bool)
    ensures CountCalls(calls + [c], mutates) == CountCalls(calls, mutates) + if c.tool.Mutates() == mutates then 1 else 0
  {
    assert (calls + [c])[..|calls|] == calls;
  }

  lemma CountStageAppend(models: seq<ModelCall>, call: ModelCall, stage: Stage)
    ensures CountStage(models + [call], stage) == CountStage(models, stage) + if call.stage == stage then 1 else 0
  {
    assert (models + [call])[..|models|] == models;
  }

  lemma {:induction false} NoneCounted(calls: seq<ToolCall>, mutates: bool)
    requires CountCalls(calls, mutates) == 0
    ensures forall i | 0 <= i < |calls| :: calls[i].tool.Mutates() != mutates
  {
    if calls != [] {
      NoneCounted(calls[..|calls| - 1], mutates);
    }
  }

  /** A new last call: how it may be recorded. */
  predicate MayAppend(b: Store, rec: RunRec, after: RunRec, c: ToolCall, f: Frame) {
    && rec.run.status == Executing && !AnyStarted(rec.calls)
    && after == rec.(run := after.run, calls := rec.calls + [c])
    && RowOk(b, after.run) && after.run.lastSeq == rec.run.lastSeq + 1 && c.seqNo == after.run.lastSeq
    && PersistedGoal(after.run) == PersistedGoal(rec.run) && after.run.context.Some?
    && CallOk(after.run, c, true)
    && (CountCalls(rec.calls, c.tool.Mutates()) < MaxCalls(c.tool.Mutates()) || RefusedByLimit(c))
    && (after.run.status == AwaitingApproval ==> c.status == Held && c.error.None?)
    && (after.run.reason == Some(PolicyDenied) ==> c.status == CallFailed && c.error == Some(ToolError(CodePolicyDenied)))
    && after.run.reason != Some(GoalSatisfied) && after.run.reason != Some(AlreadySatisfied)
    && c.status != Succeeded
    && (match f
        case Deciding => c.status != Started && after.run.status != Verifying && after.run.status != Completed
        case Idle => c.status != Started
        case Admitted(i, tool, goal, _) =>
          after.run.status == Executing && c.status == Started && c.error.None? && i == |rec.calls| && tool == c.tool
          && PersistedGoal(rec.run) == Some(goal)
        case _ => false)
  }

  lemma AppendKeepsBudget(calls: seq<ToolCall>, c: ToolCall)
    requires BudgetOk(calls) && OneAttempt(calls)
    requires forall i | 0 <= i < |calls| :: !RefusedByLimit(calls[i])
    requires CountCalls(calls, c.tool.Mutates()) < MaxCalls(c.tool.Mutates()) || RefusedByLimit(c)
    ensures BudgetOk(calls + [c]) && OneAttempt(calls + [c])
  {
    var after := calls + [c];
    forall mutates: bool ensures CountCalls(after, mutates) <= MaxCalls(mutates) + Overrun(after, mutates) {
      CountCallsAppend(calls, c, mutates);
    }
    if Attempt(c) {
      NoneCounted(calls, true);
    }
  }

  lemma AppendKeepsAttribution(goal: Option<Goal>, calls: seq<ToolCall>, c: ToolCall, mine: seq<AuditEvent>)
    requires AttributionOk(goal, calls, mine) && c.status != Succeeded
    requires Attempt(c) ==> CountCalls(calls, true) == 0
    ensures AttributionOk(goal, calls + [c], mine)
    ensures Attempt(c) ==> mine == []
  {
    var after := calls + [c];
    if Attempt(c) {
      NoneCounted(calls, true);
    }
    if mine != [] {
      var i :| 0 <= i < |calls| && Attempt(calls[i]) && MayHaveCommitted(calls[i]);
      assert after[i] == calls[i];
    }
  }

  lemma AppendKeeps(b: Store, r: nat, rec: RunRec, f: Frame, after: RunRec, c: ToolCall, g: Frame)
    requires RunInv(b, r, rec, f) && BetweenCalls(f)
    requires MayAppend(b, rec, after, c, g)
    ensures RunInv(b, r, after, g)
  {
    hide EventsOf, Grounded, CallOk, AttributionOk, BudgetOk, OneAttempt, WordsOk, RefsOk, StageOk, TraceOk;
    ExecutingCallsContinue(rec.run, after.run, rec.calls);
    AppendKeepsBudget(rec.calls, c);
    AppendKeepsAttribution(PersistedGoal(rec.run), rec.calls, c, EventsOf(b.audit, r));
    TraceNext(rec.calls, rec.models, rec.run.lastSeq);
    forall i | 0 <= i < |after.calls| ensures CallOk(after.run, after.calls[i], i == |after.calls| - 1) {
      assert i < |rec.calls| ==> after.calls[i] == rec.calls[i];
    }
  }

  function AdmittedFrame(f: Frame, tool: Tool, admission: Admission): Frame {
    match admission
    case Started_(call, goal) => Admitted(call, tool, goal, f.Idle?)
    case Ended(_) => f
  }

  lemma AdmitRowOk(b: Store, rec: RunRec, tool: Tool)
    requires RowOk(b, rec.run)
    ensures RowOk(b, AdmitTx(b, rec, tool).0.run)
    ensures rec.run.lastSeq >= 0 && (rec.run.status == Executing ==> rec.run.reason.None? && !rec.run.completed)
  {
    hide Grounded, CountCalls, AnyStarted, ArgumentsOf;
  }

  /** However a call is admitted or not, it is recorded as a new last call may be. */
  lemma AdmitMayAppend(b: Store, rec: RunRec, f: Frame, tool: Tool)
    requires RowOk(b, rec.run) && rec.run.context.Some? && (f.Deciding? || f.Idle?)
    ensures var (after, admission) := AdmitTx(b, rec, tool);
      after != rec ==>
        && |after.calls| == |rec.calls| + 1
        && MayAppend(b, rec, after, after.calls[|rec.calls|], AdmittedFrame(f, tool, admission))
    ensures AdmitTx(b, rec, tool).0 == rec ==> AdmitTx(b, rec, tool).1.Ended?
  {
    hide Grounded, CountCalls, AnyStarted, RowOk;
    AdmitRowOk(b, rec, tool);
  }

  lemma AdmitKeeps(b: Store, r: nat, rec: RunRec, f: Frame, tool: Tool)
    requires RunInv(b, r, rec, f) && MayCallBack(rec.run, f)
    ensures var (after, admission) := AdmitTx(b, rec, tool); RunInv(b, r, after, AdmittedFrame(f, tool, admission))
  {
    hide EventsOf, Grounded, AttributionOk, BudgetOk, OneAttempt, TraceOk, CallsOk;
    hide AdmitTx, MayAppend, RunShape, WordsOk, StageOk;
    var (after, admission) := AdmitTx(b, rec, tool);
    AdmitMayAppend(b, rec, f, tool);
    if after != rec {
      AppendKeeps(b, r, rec, f, after, after.calls[|rec.calls|], AdmittedFrame(f, tool, admission));
    }
  }

  // --- the transaction that records a call's outcome ----------------------------------------------

  lemma EarlierCallStays(run: AgentRun, after: AgentRun, c: ToolCall)
    requires CallOk(run, c, false) && PersistedGoal(after) == PersistedGoal(run)
    ensures CallOk(after, c, false)
  {
  }

  lemma ReplaceLast(calls: seq<ToolCall>, c: ToolCall)
    requires calls != [] && c.seqNo == calls[|calls| - 1].seqNo && c.tool == calls[|calls| - 1].tool
    ensures CallNumbers(calls[|calls| - 1 := c]) == CallNumbers(calls)
    ensures forall mutates: bool :: CountCalls(calls[|calls| - 1 := c], mutates) == CountCalls(calls, mutates)
  {
    var last := |calls| - 1;
    assert calls[last := c][..last] == calls[..last];
  }

  lemma ReportKeepsBudget(calls: seq<ToolCall>, c: ToolCall)
    requires BudgetOk(calls) && OneAttempt(calls) && calls != []
    requires calls[|calls| - 1].error.None? && !RefusedByLimit(c)
    requires c.seqNo == calls[|calls| - 1].seqNo && c.tool == calls[|calls| - 1].tool
    ensures BudgetOk(calls[|calls| - 1 := c]) && OneAttempt(calls[|calls| - 1 := c])
  {
    ReplaceLast(calls, c);
    var after := calls[|calls| - 1 := c];
    forall mutates: bool ensures CountCalls(after, mutates) <= MaxCalls(mutates) + Overrun(after, mutates) {
      assert CountCalls(calls, mutates) <= MaxCalls(mutates) + Overrun(calls, mutates);
    }
  }

  lemma ReportKeepsAttribution(goal: Option<Goal>, calls: seq<ToolCall>, c: ToolCall, mine: seq<AuditEvent>)
    requires calls != [] && calls[|calls| - 1].error.None? && !RefusedByLimit(c)
    requires OneAttempt(calls) && c.tool == calls[|calls| - 1].tool && !c.status.Started?
    requires AttributionOk(goal, calls, mine)
    requires c.tool.Mutates() ==> |mine| == if c.status == Succeeded then 1 else 0
    ensures AttributionOk(goal, calls[|calls| - 1 := c], mine)
  {
    var last := |calls| - 1;
    var after := calls[last := c];
    if mine != [] {
      var i :| 0 <= i < |calls| && Attempt(calls[i]) && MayHaveCommitted(calls[i]);
      assert after[i] == if i == last then c else calls[i];
    }
  }

  lemma ReportCallsOk(rec: RunRec, f: Frame)
    requires f.Ran? && InCall(rec, f.call, f.tool, f.goal)
    requires f.outcome.Err? ==> f.outcome.error.code != CodeStepLimit && f.outcome.error.code != CodePolicyDenied
    requires CallsOk(rec.run, rec.calls) && RunShape(rec.run)
    ensures var after := ReportTx(rec, f.call, f.tool, f.goal, f.outcome).0; CallsOk(after.run, after.calls)
  {
    var after := ReportTx(rec, f.call, f.tool, f.goal, f.outcome).0;
    assert CallOk(rec.run, rec.calls[f.call], true);
    forall i | 0 <= i < |after.calls| ensures CallOk(after.run, after.calls[i], i == |after.calls| - 1) {
      if i < f.call {
        assert CallOk(rec.run, rec.calls[i], false);
        EarlierCallStays(rec.run, after.run, rec.calls[i]);
      }
    }
  }

  /** What `ReportTx` does to the rows, whatever the outcome was. */
  lemma ReportShape(rec: RunRec, f: Frame)
    requires f.Ran? && InCall(rec, f.call, f.tool, f.goal) && !rec.run.completed
    ensures var after := ReportTx(rec, f.call, f.tool, f.goal, f.outcome).0;
      var c := after.calls[f.call];
      && after == rec.(run := after.run, calls := rec.calls[f.call := c])
      && (after.run == rec.run || Some(after.run) == End(rec.run, RunStatus.Failed, ToolFailed, CallDetail(RefOf(f.call, c))))
      && c.seqNo == rec.calls[f.call].seqNo && c.tool == f.tool
      && c.status == (if f.outcome.Ok? then Succeeded else CallFailed)
      && c.error == (if f.outcome.Ok? then rec.calls[f.call].error else Some(f.outcome.error))
  {
  }

  lemma ReportKeeps(b: Store, r: nat, rec: RunRec, f: Frame)
    requires f.Ran? && RunInv(b, r, rec, f)
    ensures RunInv(b, r, ReportTx(rec, f.call, f.tool, f.goal, f.outcome).0, Back(f.kept))
  {
    hide EventsOf, Grounded, AttributionOk, BudgetOk, OneAttempt, TraceOk, CallsOk, ReportTx;
    var after := ReportTx(rec, f.call, f.tool, f.goal, f.outcome).0;
    ReportShape(rec, f);
    assert rec.calls[f.call].error.None? by { StartedHasNoError(rec.run, rec.calls, f.call); }
    ReportCallsOk(rec, f);
    ReportKeepsBudget(rec.calls, after.calls[f.call]);
    ReportKeepsAttribution(PersistedGoal(rec.run), rec.calls, after.calls[f.call], EventsOf(b.audit, r));
    ReportKeepsTrace(rec.calls, rec.models, rec.run.lastSeq, after.calls[f.call]);
  }

  lemma ReportKeepsTrace(calls: seq<ToolCall>, models: seq<ModelCall>, n: int, c: ToolCall)
    requires TraceOk(calls, models, n) && calls != []
    requires c.seqNo == calls[|calls| - 1].seqNo && c.tool == calls[|calls| - 1].tool
    ensures TraceOk(calls[|calls| - 1 := c], models, n)
  {
    ReplaceLast(calls, c);
  }

  lemma StartedHasNoError(run: AgentRun, calls: seq<ToolCall>, i: nat)
    requires CallsOk(run, calls) && i < |calls| && calls[i].status == Started
    ensures calls[i].error.None?
  {
    assert CallOk(run, calls[i], i == |calls| - 1);
  }

  // --- transactions that change the application's tables ----------------------------------------------

  predicate TablesGrow(b: Store, after: Store) {
    b.users.Keys <= after.users.Keys && b.licences.Keys <= after.licences.Keys
  }

  /** A run is untouched by changes that write nothing under its actor. */
  lemma OthersKeep(b: Store, after: Store, r: nat, rec: RunRec, f: Frame)
    requires RunInv(b, r, rec, f)
    requires TablesGrow(b, after) && EventsOf(after.audit, r) == EventsOf(b.audit, r)
    ensures RunInv(after, r, rec, f)
  {
  }

  lemma HumanWritesNoAgentEvent(b: Store, step: HumanStep, r: nat)
    ensures TablesGrow(b, HumanTx(b, step))
    ensures EventsOf(HumanTx(b, step).audit, r) == EventsOf(b.audit, r)
  {
    hide EventsOf, AgentActor;
    var after := HumanTx(b, step);
    if after.audit != b.audit {
      var e := after.audit[|b.audit|];
      assert after.audit == b.audit + [e];
      var actor := step.actor;
      ExternalActorIsNoAgent(actor, r);
      EventsOfAppend(b.audit, e, r);
    }
  }

  lemma BusinessWritesOwnEvent(b: Store, r: nat, tool: Tool, goal: Goal, fault: bool)
    ensures var (after, outcome) := BusinessTx(b, r, tool, goal, fault);
      && TablesGrow(b, after)
      && (forall s: nat | s != r :: EventsOf(after.audit, s) == EventsOf(b.audit, s))
      && (!(tool.Mutates() && outcome.Ok?) ==> after == b)
      && (tool.Mutates() && outcome.Ok? ==>
            exists e :: GoalEvent(e, goal) && EventsOf(after.audit, r) == EventsOf(b.audit, r) + [e])
      && (outcome.Err? ==> outcome.error.code != CodeStepLimit && outcome.error.code != CodePolicyDenied)
  {
    hide EventsOf, AgentActor;
    var (after, outcome) := BusinessTx(b, r, tool, goal, fault);
    AgentRunActorIsItsName(r);
    if after != b {
      ValidatedActorIdempotent(AgentActor(r));
      var e := after.audit[|b.audit|];
      assert after.audit == b.audit + [e];
      forall s: nat ensures EventsOf(after.audit, s) == EventsOf(b.audit, s) + if s == r then [e] else [] {
        EventsOfAppend(b.audit, e, s);
        if AgentActor(r) == AgentActor(s) {
          AgentActorInjective(r, s);
        }
      }
      assert GoalEvent(e, goal);
    }
  }

  lemma BusinessKeeps(b: Store, r: nat, rec: RunRec, f: Frame, fault: bool)
    requires f.Admitted? && RunInv(b, r, rec, f)
    ensures var (after, outcome) := BusinessTx(b, r, f.tool, f.goal, fault);
            RunInv(after, r, rec, Ran(f.call, f.tool, f.goal, outcome, f.kept))
  {
    hide EventsOf, Grounded, BudgetOk, TraceOk, CallsOk, BusinessTx, AgentActor, OneAttempt, EndingOk;
    var (after, outcome) := BusinessTx(b, r, f.tool, f.goal, fault);
    BusinessWritesOwnEvent(b, r, f.tool, f.goal, fault);
    StartedHasNoError(rec.run, rec.calls, f.call);
    assert f.tool.Mutates() ==> Attempt(rec.calls[f.call]);
    if f.tool.Mutates() && outcome.Ok? {
      OnlyAttempt(rec.calls, f.call);
    }
  }

  lemma OnlyAttempt(calls: seq<ToolCall>, k: nat)
    requires OneAttempt(calls) && k < |calls| && Attempt(calls[k])
    ensures forall i | 0 <= i < |calls| && Attempt(calls[i]) :: i == k
  {
  }

  // --- the whole machine --------------------------------------------------------------------------------

  /** Leaving a frame, by a crash or otherwise, and the moves between frames
      that write nothing. */
  lemma Reframe(b: Store, r: nat, rec: RunRec, f: Frame, g: Frame)
    requires RunInv(b, r, rec, f) && FrameOk(b, rec, g) && BetweenCalls(g)
    ensures RunInv(b, r, rec, g)
  {
  }

  lemma InterruptKeeps(b: Store, r: nat, rec: RunRec, f: Frame)
    requires RunInv(b, r, rec, f) && (f.Admitted? || f.Ran?)
    ensures RunInv(b, r, rec, Back(f.kept))
  {
    assert CallOk(rec.run, rec.calls[|rec.calls| - 1], true);
    Reframe(b, r, rec, f, Back(f.kept));
  }

  lemma BeginExtractKeeps(b: Store, r: nat, rec: RunRec)
    requires RunInv(b, r, rec, Idle) && AwaitingExtraction(rec.run)
    ensures RunInv(b, r, rec, Extracting)
  {
    Reframe(b, r, rec, Idle, Extracting);
  }

  lemma BeginResolveKeeps(b: Store, r: nat, rec: RunRec)
    requires RunInv(b, r, rec, Idle) && rec.run.status == Received && rec.run.email.Some? && rec.run.product.Some?
    ensures RunInv(b, r, rec, Resolving(rec.run.email.value, rec.run.product.value))
  {
    Reframe(b, r, rec, Idle, Resolving(rec.run.email.value, rec.run.product.value));
  }

  lemma VerifyNowKeeps(
    b: Store, r: nat, rec: RunRec, f: Frame, checked: Result<(Verdict, Option<BlockCheck>), string>)
    requires f.Concluded? && RunInv(b, r, rec, f)
    ensures RunInv(b, r, rec, Checked(f.proposal, f.changed, f.rejection, f.rejected, checked))
  {
    Reframe(b, r, rec, f, Checked(f.proposal, f.changed, f.rejection, f.rejected, checked));
  }

  lemma LeaveKeeps(b: Store, r: nat, rec: RunRec, f: Frame)
    requires RunInv(b, r, rec, f)
    ensures RunInv(b, r, rec, Idle)
  {
    Reframe(b, r, rec, f, Idle);
  }

  /** Every transaction on a run keeps that run's invariant. */
  lemma RunStepKeeps(b: Store, r: nat, rec: RunRec, f: Frame, e: RunEvent)
    requires RunInv(b, r, rec, f)
    ensures var after := RunStep(b, r, rec, f, e); RunInv(after.store, r, after.rec, after.frame)
  {
    hide RunInv, ExtractTx, ResolveTx, RecordTx, BeforeRequestTx, AdmitTx, BusinessTx, ReportTx, FinishTx, AbortTx;
    hide Resolve, VerifyRead, AnyMutationSucceeded, BlockingRejection, RejectedCall;
    match e
    case Die => LeaveKeeps(b, r, rec, f);
    case BeginExtract => if f.Idle? && AwaitingExtraction(rec.run) { BeginExtractKeeps(b, r, rec); }
    case Record(stage, record) => RecordKeeps(b, r, rec, f, stage, record);
    case EndExtract(outcome) => if f.Extracting? { ExtractKeeps(b, r, rec, outcome); }
    case BeginResolve =>
      if f.Idle? && rec.run.status == Received && rec.run.email.Some? && rec.run.product.Some? { BeginResolveKeeps(b, r, rec); }
    case Lookup(fault) =>
      if f.Resolving? {
        LookupKeeps(b, r, rec, f.email, f.product, RunStep(b, r, rec, f, e).frame.found);
      }
    case EndResolve => if f.Looked? { ResolveKeeps(b, r, rec, f.found); }
    case BeginDecide => if f.Idle? && BeginDecideTx(rec).Some? { BeginDecideKeeps(b, r, rec); }
    case BeforeRequest => if MayCallBack(rec.run, f) { BeforeRequestKeeps(b, r, rec, f); }
    case Admit(tool) => if MayCallBack(rec.run, f) { AdmitKeeps(b, r, rec, f, tool); }
    case Business(fault) => if f.Admitted? { BusinessKeeps(b, r, rec, f, fault); }
    case Report => if f.Ran? { ReportKeeps(b, r, rec, f); }
    case Interrupt => if f.Admitted? || f.Ran? { InterruptKeeps(b, r, rec, f); }
    case Conclude(proposal) =>
      if f.Deciding? {
        if ConcludeTx(rec, proposal).Some? { ConcludeKeeps(b, r, rec, proposal); } else { LeaveKeeps(b, r, rec, f); }
      }
    case VerifyNow(fault) =>
      if f.Concluded? { VerifyNowKeeps(b, r, rec, f, RunStep(b, r, rec, f, e).frame.checked); }
    case Finish => if f.Checked? { FinishKeeps(b, r, rec, f); }
    case AbortDecision(why) => if f.Deciding? { AbortKeeps(b, r, rec, why); }
    case StopDecision => if f.Deciding? { LeaveKeeps(b, r, rec, f); }
  }

  /** A transaction on one run leaves the tables sound and other runs' events alone. */
  lemma RunStepStore(b: Store, r: nat, rec: RunRec, f: Frame, e: RunEvent)
    requires SoundStore(b)
    ensures var after := RunStep(b, r, rec, f, e).store;
      SoundStore(after) && TablesGrow(b, after) && forall s: nat | s != r :: EventsOf(after.audit, s) == EventsOf(b.audit, s)
  {
    hide ExtractTx, ResolveTx, RecordTx, BeforeRequestTx, AdmitTx, ReportTx, FinishTx, AbortTx, ConcludeTx, BeginDecideTx;
    hide Resolve, VerifyRead, AnyMutationSucceeded, BlockingRejection, RejectedCall, EventsOf, SoundStore;
    if e.Business? && f.Admitted? {
      BusinessWritesOwnEvent(b, r, f.tool, f.goal, e.fault);
      BusinessKeepsSound(b, r, f.tool, f.goal, e.fault);
    }
  }

  lemma BusinessKeepsSound(b: Store, r: nat, tool: Tool, goal: Goal, fault: bool)
    requires SoundStore(b)
    ensures SoundStore(BusinessTx(b, r, tool, goal, fault).0)
  {
    hide SoundStore, AgentActor;
    if BusinessTx(b, r, tool, goal, fault).0 != b {
      AssignLicenceKeepsSound(b, goal.userId, goal.licenceId, AgentRunActor(r).value);
    }
  }

  /** The invariant of the machine: sound tables, every run in order, and no
      event under the name of a run that does not exist. */
  ghost predicate StateInv(s: State) {
    && |s.frames| == |s.db.runs|
    && SoundStore(s.db.store)
    && (forall r: nat | r < |s.db.runs| :: RunInv(s.db.store, r, s.db.runs[r], s.frames[r]))
    && (forall r: nat | r >= |s.db.runs| :: EventsOf(s.db.store.audit, r) == [])
  }

  lemma NewRunInv(b: Store, r: nat, instruction: string, actor: string)
    requires EventsOf(b.audit, r) == []
    ensures RunInv(b, r, NewRun(instruction, actor), Idle)
  {
  }

  lemma HumanKeepsState(s: State, step: HumanStep)
    requires StateInv(s)
    ensures StateInv(Step(s, Human(step)))
  {
    hide RunInv, SoundStore, EventsOf, HumanTx, RunStep;
    HumanTxKeepsSound(s.db.store, step);
    forall r: nat ensures EventsOf(HumanTx(s.db.store, step).audit, r) == EventsOf(s.db.store.audit, r) {
      HumanWritesNoAgentEvent(s.db.store, step, r);
    }
    forall r: nat | r < |s.db.runs| ensures RunInv(HumanTx(s.db.store, step), r, s.db.runs[r], s.frames[r]) {
      HumanWritesNoAgentEvent(s.db.store, step, r);
      OthersKeep(s.db.store, HumanTx(s.db.store, step), r, s.db.runs[r], s.frames[r]);
    }
  }

  lemma OnKeepsState(s: State, r: nat, e: RunEvent)
    requires StateInv(s)
    ensures StateInv(Step(s, On(r, e)))
  {
    hide RunInv, SoundStore, EventsOf, RunStep;
    if s.Has(r) {
      var b, rec, f := s.db.store, s.db.runs[r], s.frames[r];
      var after := RunStep(b, r, rec, f, e);
      RunStepKeeps(b, r, rec, f, e);
      RunStepStore(b, r, rec, f, e);
      forall q: nat | q < |s.db.runs| && q != r ensures RunInv(after.store, q, s.db.runs[q], s.frames[q]) {
        OthersKeep(b, after.store, q, s.db.runs[q], s.frames[q]);
      }
    }
  }

  lemma ReceiveKeepsState(s: State, instruction: string, actor: string)
    requires StateInv(s)
    ensures StateInv(Step(s, Receive(instruction, actor)))
  {
    hide RunInv, SoundStore, EventsOf, RunStep, ValidatedRequest, NewRun;
    var name := ValidatedRequest(instruction, actor);
    if name.Some? {
      NewRunInv(s.db.store, |s.db.runs|, instruction, name.value);
    }
  }

  /** Every step, of any run, person or crash, keeps the whole invariant. */
  lemma StepKeeps(s: State, e: Event)
    requires StateInv(s)
    ensures StateInv(Step(s, e))
  {
    hide StateInv, Step;
    match e
    case Receive(instruction, actor) => ReceiveKeepsState(s, instruction, actor);
    case On(r, event) => OnKeepsState(s, r, event);
    case Human(step) => HumanKeepsState(s, step);
  }

  /** Every reachable state satisfies the invariant. */
  lemma {:induction false} Reachable(events: seq<Event>)
    ensures StateInv(StateAfter(events))
  {
    hide Step, RunInv;
    if events == [] {
      EmptyStoreIsSound();
    } else {
      Reachable(events[..|events| - 1]);
      StepKeeps(StateAfter(events[..|events| - 1]), events[|events| - 1]);
    }
  }
}
