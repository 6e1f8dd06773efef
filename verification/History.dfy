/** Where a run's outcome comes from: each is traced back to the step that read
    or changed committed state, and to what that state then was. */
module History {
  import opened Basics
  import opened Text
  import opened Domain
  import opened AgentRows
  import opened SqlChecks
  import opened Services
  import opened Resolution
  import opened Tools
  import opened Machine
  import opened Invariant
  import opened Guarantees

  /** A blocking condition of the goal's rows, as the services define it. */
  predicate Blocking(b: Store, goal: Goal, why: Reason) {
    match why
    case NoSeats =>
      && goal.licenceId in b.licences
      && SeatsTaken(b.assignments, goal.licenceId) >= b.licences[goal.licenceId].seatsTotal
    case InactiveUser => goal.userId in b.users && b.users[goal.userId].status != Active
    case _ => false
  }

  /** The condition of committed state that each resolution failure reports. */
  predicate FailsWith(b: Store, email: string, product: string, code: Reason) {
    var someUser := exists u :: u in b.users && b.users[u].email == NormalizeEmail(email);
    var some := exists l :: l in b.licences && Fold(b.licences[l].product) == Fold(Strip(product));
    match code
    case InvalidRequest => !ValidTexts(email, product)
    case UnknownUser => ValidTexts(email, product) && !someUser
    case UnknownLicence => ValidTexts(email, product) && someUser && !some
    case LicenceAmbiguous =>
      && ValidTexts(email, product) && someUser
      && exists l, m :: l in b.licences && m in b.licences && l != m
           && Fold(b.licences[l].product) == Fold(b.licences[m].product) == Fold(Strip(product))
    case _ => false
  }

  /** Something that was so in committed state when a run's own step happened. */
  datatype Claim =
    | NamedAt(goal: Goal)                                   // its resolution read the only rows the words name
    | UnresolvedAt(email: string, product: string, code: Reason)  // its resolution read this failure
    | PolicyAt(call: nat, licenceId: int, policy: Policy)   // the admission of this call, its mutation, read this policy
    | RejectedAt(call: nat, goal: Goal, why: Reason)        // the business transaction of this call met this condition
    | ConfirmedAt(goal: Goal, claim: CannotProceedReason)   // its verification read the condition its proposal claimed
    | HeldAt(goal: Goal)                                    // its verification read an active assignment

  /** The admission appends the run's next call, under this policy. */
  predicate AdmitsUnder(b: Store, rec: RunRec, policy: Policy) {
    var calls := AdmitTx(b, rec, AssignSeat).0.calls;
    |calls| == |rec.calls| + 1 && calls[|rec.calls|].tool == AssignSeat && calls[|rec.calls|].policy == Some(policy)
  }

  /** The step, on this run as it stands in its frame, shows the claim of the store. */
  predicate Shows(b: Store, rec: RunRec, f: Frame, e: RunEvent, c: Claim) {
    match c
    case NamedAt(goal) =>
      && e == Lookup(false) && f == Resolving(goal.email, goal.product)
      && ValidTexts(goal.email, goal.product) && Names(b, goal.email, goal.product, goal.userId, goal.licenceId)
    case UnresolvedAt(email, product, code) =>
      e == Lookup(false) && f == Resolving(email, product) && FailsWith(b, email, product, code)
    case PolicyAt(call, l, policy) =>
      && e == Admit(AssignSeat) && MayCallBack(rec.run, f) && call == |rec.calls| && AdmitsUnder(b, rec, policy)
      && l in b.licences && b.licences[l].policy == policy
    case RejectedAt(call, goal, why) =>
      && e == Business(false) && f.Admitted? && f == Admitted(call, AssignSeat, goal, f.kept) && Blocking(b, goal, why)
      && (why == NoSeats ==> !HoldsSeat(b.assignments, goal.userId, goal.licenceId))
    case ConfirmedAt(goal, claim) =>
      && e == VerifyNow(false) && f.Concluded? && f.goal == goal && f.proposal == CannotProceed(claim)
      && Blocking(b, goal, BlocksByClaim(claim)) && !HoldsSeat(b.assignments, goal.userId, goal.licenceId)
    case HeldAt(goal) =>
      && e == VerifyNow(false) && f.Concluded? && f.goal == goal
      && HoldsSeat(b.assignments, goal.userId, goal.licenceId)
  }

  /** The event is a step of run `r` that shows the claim of the state it finds. */
  predicate ShowsIn(s: State, e: Event, r: nat, c: Claim) {
    e.On? && e.r == r && s.Has(r) && Shows(s.db.store, s.db.runs[r], s.frames[r], e.e, c)
  }

  /** At some point of the history, a step of run `r` showed the claim. */
  ghost predicate Witnessed(events: seq<Event>, r: nat, c: Claim) {
    exists k {:trigger events[k]} :: 0 <= k < |events| && ShowsIn(StateAfter(events[..k]), events[k], r, c)
  }

  lemma WitnessedLater(events: seq<Event>, e: Event, r: nat, c: Claim)
    ensures Witnessed(events, r, c) ==> Witnessed(events + [e], r, c)
    ensures ShowsIn(StateAfter(events), e, r, c) ==> Witnessed(events + [e], r, c)
  {
    hide StateAfter, ShowsIn;
    var later := events + [e];
    assert later[..|events|] == events;
    if Witnessed(events, r, c) {
      var k :| 0 <= k < |events| && ShowsIn(StateAfter(events[..k]), events[k], r, c);
      assert later[k] == events[k] && later[..k] == events[..k];
    }
    if ShowsIn(StateAfter(events), e, r, c) {
      assert later[|events|] == e;
    }
  }

  // --- a run's rows explained by what is known -------------------------------------

  predicate OutcomeExplained(
    call: nat, tool: Tool, goal: Goal, outcome: Result<ToolOutput, ToolError>, known: Claim -> bool)
  {
    tool.Mutates() && outcome.Err? ==>
      && (outcome.error.code == CodeNoSeats ==> known(RejectedAt(call, goal, NoSeats)))
      && (outcome.error.code == CodeUserInactive ==> known(RejectedAt(call, goal, InactiveUser)))
  }

  predicate CheckExplained(
    proposal: Proposal, goal: Goal, checked: Result<(Verdict, Option<BlockCheck>), string>, known: Claim -> bool)
  {
    checked.Ok? ==>
      && (checked.value.0.satisfied ==> known(HeldAt(goal)))
      && (checked.value.1.Some? && checked.value.1.value.confirmed ==>
            proposal.CannotProceed? && known(ConfirmedAt(goal, proposal.why)))
  }

  predicate CallExplained(i: nat, c: ToolCall, goal: Goal, known: Claim -> bool) {
    && (c.tool.Mutates() && c.policy.Some? ==> known(PolicyAt(i, goal.licenceId, c.policy.value)))
    && (c.error.Some? ==> OutcomeExplained(i, c.tool, goal, Err(c.error.value), known))
  }

  /** The block is the latest attempt's rejection, or the confirmed claim. */
  predicate BlockExplained(calls: seq<ToolCall>, goal: Goal, why: Reason, claim: CannotProceedReason, known: Claim -> bool) {
    || (LatestMutation(calls).Some? && known(RejectedAt(LatestMutation(calls).value, goal, why)))
    || known(ConfirmedAt(goal, claim))
  }

  predicate RunExplained(rec: RunRec, goal: Goal, known: Claim -> bool) {
    var run := rec.run;
    && known(NamedAt(goal))
    && (run.status == Completed ==> known(HeldAt(goal)))
    && (run.reason == Some(NoSeats) ==> BlockExplained(rec.calls, goal, NoSeats, ClaimNoSeats, known))
    && (run.reason == Some(InactiveUser) ==> BlockExplained(rec.calls, goal, InactiveUser, ClaimUserInactive, known))
  }

  predicate ResolutionCode(code: Reason) {
    code.InvalidRequest? || code.UnknownUser? || code.UnknownLicence? || code.LicenceAmbiguous?
  }

  /** A failed resolution, recorded or about to be, was read by this run. */
  predicate FailureExplained(run: AgentRun, f: Frame, known: Claim -> bool) {
    && (run.reason.Some? && ResolutionCode(run.reason.value) ==>
          run.email.Some? && run.product.Some? && known(UnresolvedAt(run.email.value, run.product.value, run.reason.value)))
    && (f.Looked? && f.found.Ok? && f.found.value.Unresolved? ==>
          run.email.Some? && run.product.Some? && known(UnresolvedAt(run.email.value, run.product.value, f.found.value.code)))
  }

  predicate Explained(rec: RunRec, f: Frame, known: Claim -> bool) {
    && (f.Looked? && f.found.Ok? && f.found.value.ResolvedTo? ==> known(NamedAt(f.found.value.goal)))
    && (f.Ran? ==> OutcomeExplained(f.call, f.tool, f.goal, f.outcome, known))
    && FailureExplained(rec.run, f, known)
    && (PersistedGoal(rec.run).Some? ==>
          var goal := PersistedGoal(rec.run).value;
          && RunExplained(rec, goal, known)
          && (forall i | 0 <= i < |rec.calls| :: CallExplained(i, rec.calls[i], goal, known))
          && (f.Checked? ==> CheckExplained(f.proposal, goal, f.checked, known)))
  }

  lemma BusinessExplained(b: Store, r: nat, rec: RunRec, f: Frame, fault: bool, known: Claim -> bool)
    requires f.Admitted? && forall c | Shows(b, rec, f, Business(fault), c) :: known(c)
    ensures OutcomeExplained(f.call, f.tool, f.goal, BusinessTx(b, r, f.tool, f.goal, fault).1, known)
  {
    hide ValidatedActor, AgentActor, AdmitTx, Names, FailsWith;
    if f.tool.Mutates() && !fault {
      var goal := f.goal;
      assert Blocking(b, goal, NoSeats) && !HoldsSeat(b.assignments, goal.userId, goal.licenceId)
        ==> Shows(b, rec, f, Business(fault), RejectedAt(f.call, goal, NoSeats));
      assert Blocking(b, goal, InactiveUser) ==> Shows(b, rec, f, Business(fault), RejectedAt(f.call, goal, InactiveUser));
    }
  }

  lemma VerifyExplained(b: Store, rec: RunRec, f: Frame, known: Claim -> bool)
    requires f.Concluded? && forall c | Shows(b, rec, f, VerifyNow(false), c) :: known(c)
    ensures CheckExplained(f.proposal, f.goal, VerifyRead(b, f.goal, f.proposal), known)
  {
    hide AdmitTx, Names, FailsWith;
    var goal := f.goal;
    assert HoldsSeat(b.assignments, goal.userId, goal.licenceId) ==> Shows(b, rec, f, VerifyNow(false), HeldAt(goal));
    if f.proposal.CannotProceed? {
      assert Blocking(b, goal, BlocksByClaim(f.proposal.why)) && !HoldsSeat(b.assignments, goal.userId, goal.licenceId)
        ==> Shows(b, rec, f, VerifyNow(false), ConfirmedAt(goal, f.proposal.why));
    }
  }

  lemma LookupExplained(b: Store, rec: RunRec, f: Frame, known: Claim -> bool)
    requires UniqueNames(b) && f.Resolving?
    requires forall c | Shows(b, rec, f, Lookup(false), c) :: known(c)
    requires Resolve(b, f.email, f.product).Ok?
    ensures match Resolve(b, f.email, f.product).value
            case ResolvedTo(goal) => goal.email == f.email && goal.product == f.product && known(NamedAt(goal))
            case Unresolved(code, _) => known(UnresolvedAt(f.email, f.product, code))
  {
    hide Resolve, AdmitsUnder, Blocking, FailsWith, Names, ValidTexts, UniqueNames;
    match Resolve(b, f.email, f.product).value
    case ResolvedTo(goal) =>
      ResolvesToNamed(b, f.email, f.product, goal);
      assert Shows(b, rec, f, Lookup(false), NamedAt(goal));
    case Unresolved(code, _) =>
      UnresolvedFails(b, f.email, f.product);
      assert Shows(b, rec, f, Lookup(false), UnresolvedAt(f.email, f.product, code));
  }

  lemma ResolvesToNamed(b: Store, email: string, product: string, goal: Goal)
    requires UniqueNames(b) && Resolve(b, email, product) == Ok(ResolvedTo(goal))
    ensures goal.email == email && goal.product == product
    ensures ValidTexts(email, product) && Names(b, email, product, goal.userId, goal.licenceId)
  {
    hide UniqueNames, Names, FindUserByEmail, FindLicencesByProduct;
    ResolvesExactlyWhenNamed(b, email, product, goal.userId, goal.licenceId);
  }

  lemma UnresolvedFails(b: Store, email: string, product: string)
    requires UniqueNames(b)
    requires Resolve(b, email, product).Ok? && Resolve(b, email, product).value.Unresolved?
    ensures FailsWith(b, email, product, Resolve(b, email, product).value.code)
  {
    hide UniqueNames, Resolve;
    FailureCodesInPriority(b, email, product);
    UnresolvedHasCode(b, email, product);
  }

  lemma UnresolvedHasCode(b: Store, email: string, product: string)
    ensures Resolve(b, email, product).Ok? && Resolve(b, email, product).value.Unresolved? ==>
      ResolutionCode(Resolve(b, email, product).value.code)
  {
    hide FindUserByEmail, FindLicencesByProduct;
  }

  /** What an admission leaves to explain: one more call, and no reason but a
      limit or a denial. */
  lemma AdmitLeaves(b: Store, rec: RunRec, tool: Tool)
    requires RunShape(rec.run) && AdmitTx(b, rec, tool).0 != rec
    ensures PersistedGoal(rec.run).Some?
    ensures var (after, goal) := (AdmitTx(b, rec, tool).0, PersistedGoal(rec.run).value);
      && PersistedGoal(after.run) == Some(goal) && after.run.status != Completed
      && (after.run.reason.None? || after.run.reason == Some(StepLimit) || after.run.reason == Some(PolicyDenied))
      && |after.calls| == |rec.calls| + 1 && after.calls[..|rec.calls|] == rec.calls
      && var c := after.calls[|rec.calls|];
         && c.tool == tool
         && (c.error.Some? ==> c.error.value.code == CodeStepLimit || c.error.value.code == CodePolicyDenied)
         && (c.policy.Some? && tool.Mutates() ==> goal.licenceId in b.licences && b.licences[goal.licenceId].policy == c.policy.value)
  {
    hide CountCalls, AnyStarted, MaxCalls, ArgumentsOf;
  }

  lemma AdmitExplained(b: Store, rec: RunRec, f: Frame, tool: Tool, known: Claim -> bool)
    requires Explained(rec, f, known) && MayCallBack(rec.run, f) && RunShape(rec.run)
    requires forall c | Shows(b, rec, f, Admit(tool), c) :: known(c)
    ensures Explained(AdmitTx(b, rec, tool).0, f, known)
  {
    hide AdmitTx, Names, Blocking, HoldsSeat, ValidTexts, FailsWith, LatestMutation, PersistedGoal, RunShape;
    var after := AdmitTx(b, rec, tool).0;
    if after != rec {
      AdmitLeaves(b, rec, tool);
      var goal, i := PersistedGoal(rec.run).value, |rec.calls|;
      if tool.Mutates() && after.calls[i].policy.Some? {
        assert Shows(b, rec, f, Admit(tool), PolicyAt(i, goal.licenceId, after.calls[i].policy.value));
      }
      forall k | 0 <= k < |after.calls| ensures CallExplained(k, after.calls[k], goal, known) {
        assert k < i ==> after.calls[k] == after.calls[..i][k] == rec.calls[k];
      }
    }
  }

  lemma ReportExplained(rec: RunRec, f: Frame, known: Claim -> bool)
    requires f.Ran? && Explained(rec, f, known) && InCall(rec, f.call, f.tool, f.goal) && RunShape(rec.run)
    ensures Explained(ReportTx(rec, f.call, f.tool, f.goal, f.outcome).0, Back(f.kept), known)
  {
    hide Observe, LatestMutation;
    var after := ReportTx(rec, f.call, f.tool, f.goal, f.outcome).0;
    assert CallExplained(f.call, rec.calls[f.call], f.goal, known);
    assert CallExplained(f.call, after.calls[f.call], f.goal, known);
  }

  lemma RejectionExplained(calls: seq<ToolCall>, goal: Goal, known: Claim -> bool)
    requires forall i | 0 <= i < |calls| :: CallExplained(i, calls[i], goal, known)
    ensures match BlockingRejection(calls)
            case None => true
            case Some(why) =>
              && (why.NoSeats? || why.InactiveUser?)
              && LatestMutation(calls).Some? && known(RejectedAt(LatestMutation(calls).value, goal, why))
  {
    var i := LatestMutation(calls);
    if i.Some? {
      assert CallExplained(i.value, calls[i.value], goal, known);
    }
  }

  /** The claim of the proposal was confirmed by the check that verification read. */
  predicate ClaimConfirmed(
    proposal: Proposal, checked: Result<(Verdict, Option<BlockCheck>), string>, claim: CannotProceedReason)
  {
    proposal == CannotProceed(claim) && checked.Ok? && checked.value.1.Some? && checked.value.1.value.confirmed
  }

  /** What ending a verified run leaves to explain. */
  lemma FinishLeaves(rec: RunRec, f: Frame)
    requires f.Checked? && (f.rejection.Some? ==> f.rejection.value.NoSeats? || f.rejection.value.InactiveUser?)
    ensures var after := FinishTx(rec, f.proposal, f.changed, f.rejection, f.rejected, f.checked);
      after == rec || (
        && PersistedGoal(after.run) == PersistedGoal(rec.run) && after.calls == rec.calls
        && (after.run.reason.Some? ==> !ResolutionCode(after.run.reason.value))
        && (after.run.status == Completed ==> f.checked.Ok? && f.checked.value.0.satisfied)
        && (after.run.reason == Some(NoSeats) ==>
              f.rejection == Some(NoSeats) || ClaimConfirmed(f.proposal, f.checked, ClaimNoSeats))
        && (after.run.reason == Some(InactiveUser) ==>
              f.rejection == Some(InactiveUser) || ClaimConfirmed(f.proposal, f.checked, ClaimUserInactive)))
  {
  }

  lemma FinishExplained(b: Store, rec: RunRec, f: Frame, known: Claim -> bool)
    requires f.Checked? && Explained(rec, f, known) && FrameOk(b, rec, f)
    ensures Explained(FinishTx(rec, f.proposal, f.changed, f.rejection, f.rejected, f.checked), Idle, known)
  {
    hide AnyMutationSucceeded, RejectedCall, BlockingRejection, CallExplained, LatestMutation, FinishTx, PersistedGoal, ResolutionCode;
    BlockingRejectionBlocks(rec.calls);
    FinishLeaves(rec, f);
    if PersistedGoal(rec.run).Some? {
      RejectionExplained(rec.calls, PersistedGoal(rec.run).value, known);
    }
  }

  lemma ResolveExplained(rec: RunRec, found: Result<Resolution, string>, known: Claim -> bool)
    requires Explained(rec, Looked(found), known)
    requires rec.run.status == Received && rec.run.email.Some? && rec.run.product.Some? && rec.run.userId.None?
    requires rec.calls == [] && rec.run.reason.None?
    requires found.Ok? && found.value.ResolvedTo? ==>
      Some(found.value.goal.email) == rec.run.email && Some(found.value.goal.product) == rec.run.product
    ensures Explained(ResolveTx(rec, found), Idle, known)
  {
  }

  predicate PlainStep(e: RunEvent) {
    || e.Die? || e.BeginExtract? || e.Record? || e.EndExtract? || e.BeginResolve? || e.BeginDecide?
    || e.BeforeRequest? || e.Interrupt? || e.Conclude? || e.AbortDecision? || e.StopDecision?
  }

  /** A reason that says something of committed state. */
  predicate SaysOfState(reason: Option<Reason>) {
    reason.Some? && (ResolutionCode(reason.value) || reason.value.NoSeats? || reason.value.InactiveUser?)
  }

  /** The run's row is left with nothing new to explain. */
  predicate NothingNew(rec: RunRec, after: RunRec) {
    && after.calls == rec.calls && PersistedGoal(after.run) == PersistedGoal(rec.run)
    && (after.run.status == Completed ==> rec.run.status == Completed)
    && (SaysOfState(after.run.reason) ==>
          after.run.reason == rec.run.reason && after.run.email == rec.run.email && after.run.product == rec.run.product)
  }

  lemma ExtractLeaves(rec: RunRec, outcome: Intent)
    requires RunShape(rec.run)
    ensures NothingNew(rec, ExtractTx(rec, outcome))
  {
    hide UngroundedFields;
  }

  lemma RecordLeaves(rec: RunRec, stage: Stage, record: ModelRecord)
    ensures NothingNew(rec, RecordTx(rec, stage, record).0)
    ensures RecordTx(rec, stage, record).0.run.email == rec.run.email
    ensures RecordTx(rec, stage, record).0.run.product == rec.run.product
  {
    hide ModelCallAccepted;
  }

  lemma LimitLeaves(rec: RunRec)
    ensures NothingNew(rec, BeforeRequestTx(rec).0)
  {
    hide CountStage;
  }

  lemma AbortLeaves(rec: RunRec, why: Abort)
    ensures NothingNew(rec, AbortTx(rec, why))
  {
  }

  lemma AdvanceLeaves(rec: RunRec, proposal: Proposal)
    requires RunShape(rec.run)
    ensures BeginDecideTx(rec).Some? ==> NothingNew(rec, BeginDecideTx(rec).value)
    ensures ConcludeTx(rec, proposal).Some? ==> NothingNew(rec, ConcludeTx(rec, proposal).value)
  {
    hide AnyStarted;
  }

  /** The remaining transactions leave nothing new to explain. */
  lemma PlainStepLeaves(b: Store, r: nat, rec: RunRec, f: Frame, e: RunEvent)
    requires RunShape(rec.run) && PlainStep(e)
    ensures var after := RunStep(b, r, rec, f, e);
      && NothingNew(rec, after.rec)
      && (after.frame == f || (!after.frame.Looked? && !after.frame.Ran? && !after.frame.Checked?))
      && (f.Looked? ==> after.rec.run.email == rec.run.email && after.rec.run.product == rec.run.product)
  {
    hide AdmitTx, ReportTx, ResolveTx, FinishTx, BusinessTx, Resolve, VerifyRead, RunShape, NothingNew, HasRecorder;
    hide ExtractTx, RecordTx, BeforeRequestTx, BeginDecideTx, ConcludeTx, AbortTx, PersistedGoal;
    hide AnyMutationSucceeded, BlockingRejection, RejectedCall;
    assert NothingNew(rec, rec) by { SameIsNothingNew(rec); }
    match e
    case Record(stage, record) => RecordLeaves(rec, stage, record);
    case EndExtract(outcome) => ExtractLeaves(rec, outcome);
    case BeginDecide => AdvanceLeaves(rec, GoalReached);
    case BeforeRequest => LimitLeaves(rec);
    case Conclude(proposal) => AdvanceLeaves(rec, proposal);
    case AbortDecision(why) => AbortLeaves(rec, why);
    case _ =>
  }

  lemma SameIsNothingNew(rec: RunRec)
    ensures NothingNew(rec, rec)
  {
  }

  lemma PlainStepExplained(b: Store, r: nat, rec: RunRec, f: Frame, e: RunEvent, known: Claim -> bool)
    requires Explained(rec, f, known) && RunShape(rec.run) && FrameOk(b, rec, f) && PlainStep(e)
    ensures var after := RunStep(b, r, rec, f, e); Explained(after.rec, after.frame, known)
  {
    hide RunStep, RunShape, PersistedGoal, OutcomeExplained, CheckExplained, BlockExplained, CallExplained;
    PlainStepLeaves(b, r, rec, f, e);
  }

  lemma StepExplained(b: Store, r: nat, rec: RunRec, f: Frame, e: RunEvent, known: Claim -> bool)
    requires UniqueNames(b) && RunInv(b, r, rec, f) && Explained(rec, f, known)
    requires forall c | Shows(b, rec, f, e, c) :: known(c)
    ensures var after := RunStep(b, r, rec, f, e); Explained(after.rec, after.frame, known)
  {
    hide AdmitTx, ReportTx, ResolveTx, FinishTx, BusinessTx, Resolve, VerifyRead, CallExplained, ExtractTx, RecordTx;
    hide Shows, BeforeRequestTx, ConcludeTx, AbortTx, BeginDecideTx, EventsOf, TraceOk, BudgetOk, AttributionOk, Grounded;
    hide CallsOk, UniqueNames, OutcomeExplained, CheckExplained, RunExplained;
    hide AnyMutationSucceeded, BlockingRejection, RejectedCall, LatestMutation, RunShape, StageOk, WordsOk;
    match e
    case Lookup(fault) =>
      if f.Resolving? && !fault && Resolve(b, f.email, f.product).Ok? {
        LookupExplained(b, rec, f, known);
      }
    case EndResolve =>
      if f.Looked? {
        NotYetResolved(b, r, rec, f);
        ResolveExplained(rec, f.found, known);
      }
    case Admit(tool) => if MayCallBack(rec.run, f) { AdmitExplained(b, rec, f, tool, known); }
    case Business(fault) => if f.Admitted? { BusinessExplained(b, r, rec, f, fault, known); }
    case Report => if f.Ran? { ReportExplained(rec, f, known); }
    case VerifyNow(fault) =>
      if f.Concluded? {
        if fault { FaultExplained(f.proposal, f.goal, known); } else { VerifyExplained(b, rec, f, known); }
      }
    case Finish => if f.Checked? { FinishExplained(b, rec, f, known); }
    case _ => PlainStepExplained(b, r, rec, f, e, known);
  }

  lemma NotYetResolved(b: Store, r: nat, rec: RunRec, f: Frame)
    requires RunInv(b, r, rec, f) && f.Looked?
    ensures rec.run.status == Received && rec.run.email.Some? && rec.run.product.Some? && rec.run.userId.None?
    ensures rec.calls == [] && rec.run.reason.None?
  {
    hide BudgetOk, OneAttempt, ModelsOk, TraceOk, AttributionOk, EventsOf;
    NothingCommittedYet(b, r, rec, f);
  }

  lemma FaultExplained(proposal: Proposal, goal: Goal, known: Claim -> bool)
    ensures CheckExplained(proposal, goal, Err("OperationalError"), known)
  {
  }

  lemma ExplainedByMore(rec: RunRec, f: Frame, known: Claim -> bool, more: Claim -> bool)
    requires Explained(rec, f, known) && forall c | known(c) :: more(c)
    ensures Explained(rec, f, more)
  {
    hide LatestMutation;
    if PersistedGoal(rec.run).Some? {
      forall i | 0 <= i < |rec.calls| ensures CallExplained(i, rec.calls[i], PersistedGoal(rec.run).value, more) {
        assert CallExplained(i, rec.calls[i], PersistedGoal(rec.run).value, known);
      }
    }
  }

  lemma NewRunExplained(instruction: string, actor: string, known: Claim -> bool)
    ensures Explained(NewRun(instruction, actor), Idle, known)
  {
  }

  ghost function KnownOf(events: seq<Event>, r: nat): Claim -> bool {
    c => Witnessed(events, r, c)
  }

  /** One step of the machine, for any store of knowledge that takes in what it shows. */
  lemma MachineStepExplained(s: State, e: Event, r: nat, known: Claim -> bool)
    requires StateInv(s) && s.Has(r) && Explained(s.db.runs[r], s.frames[r], known)
    requires forall c | ShowsIn(s, e, r, c) :: known(c)
    ensures Step(s, e).Has(r) && Explained(Step(s, e).db.runs[r], Step(s, e).frames[r], known)
  {
    hide RunStep, Explained, RunInv, Shows, SoundStore, ValidatedRequest, HumanTx, UniqueNames;
    if e.On? && e.r == r {
      SoundHasUniqueNames(s.db.store);
      forall c | Shows(s.db.store, s.db.runs[r], s.frames[r], e.e, c) ensures known(c) {
        assert ShowsIn(s, e, r, c);
      }
      StepExplained(s.db.store, r, s.db.runs[r], s.frames[r], e.e, known);
    }
  }

  lemma ReceiveExplained(s: State, e: Event, r: nat, known: Claim -> bool)
    requires StateInv(s) && r >= |s.db.runs| && Step(s, e).Has(r)
    ensures Explained(Step(s, e).db.runs[r], Step(s, e).frames[r], known)
  {
    hide RunStep, Explained, RunInv, SoundStore, ValidatedRequest, HumanTx, NewRun;
    NewRunExplained(e.instruction, ValidatedRequest(e.instruction, e.actor).value, known);
  }

  /** Every run's rows and frame are explained by the history, at every point. */
  lemma {:induction false} HistoryExplains(events: seq<Event>, r: nat)
    requires r < |StateAfter(events).db.runs|
    ensures r < |StateAfter(events).frames|
    ensures Explained(StateAfter(events).db.runs[r], StateAfter(events).frames[r], KnownOf(events, r))
  {
    hide Step, Witnessed, Explained, RunInv, ShowsIn, SoundStore;
    Reachable(events);
    if events != [] {
      var earlier, e := events[..|events| - 1], events[|events| - 1];
      var s, known := StateAfter(earlier), KnownOf(events, r);
      assert events == earlier + [e];
      Reachable(earlier);
      forall c: Claim ensures Witnessed(earlier, r, c) ==> known(c) ensures ShowsIn(s, e, r, c) ==> known(c) {
        WitnessedLater(earlier, e, r, c);
      }
      if r < |s.db.runs| {
        HistoryExplains(earlier, r);
        ExplainedByMore(s.db.runs[r], s.frames[r], KnownOf(earlier, r), known);
        MachineStepExplained(s, e, r, known);
      } else {
        ReceiveExplained(s, e, r, known);
      }
    }
  }

  lemma SoundHasUniqueNames(b: Store)
    requires SoundStore(b)
    ensures UniqueNames(b)
  {
  }

  lemma RunIsExplained(events: seq<Event>, r: nat, rec: RunRec, goal: Goal)
    requires RunIn(events, r, rec) && PersistedGoal(rec.run) == Some(goal)
    ensures RunExplained(rec, goal, KnownOf(events, r))
    ensures forall i | 0 <= i < |rec.calls| :: CallExplained(i, rec.calls[i], goal, KnownOf(events, r))
  {
    hide StateAfter, RunExplained, CallExplained, Witnessed;
    HistoryExplains(events, r);
  }

  // --- the guarantees ---------------------------------------------------------------------

  /** A run has ids only if its texts stand in the instruction and resolution
      then read rows that those texts name, the licence being the only one. */
  lemma ResolvedRunsAreGrounded(events: seq<Event>, r: nat, rec: RunRec)
    requires RunIn(events, r, rec) && rec.run.userId.Some?
    ensures PersistedGoal(rec.run).Some?
    ensures var goal := PersistedGoal(rec.run).value;
      && Grounded(goal.email, rec.run.instruction) && Grounded(goal.product, rec.run.instruction)
      && Witnessed(events, r, NamedAt(goal))
  {
    hide StateAfter, Witnessed;
    RunInHasInv(events, r, rec);
    RunIsExplained(events, r, rec, PersistedGoal(rec.run).value);
  }

  /** Completion is sound: verification read an active assignment of exactly the
      goal's rows, and the reason says whether this run's own change made it so. */
  lemma CompletionIsSound(events: seq<Event>, r: nat, rec: RunRec)
    requires RunIn(events, r, rec) && rec.run.status == Completed
    ensures PersistedGoal(rec.run).Some? && Witnessed(events, r, HeldAt(PersistedGoal(rec.run).value))
    ensures rec.run.reason == Some(if CommitCount(events, r) == 1 then GoalSatisfied else AlreadySatisfied)
    ensures rec.run.reason == Some(AlreadySatisfied) ==> EventsOf(StateAfter(events).db.store.audit, r) == []
  {
    hide StateAfter, Witnessed, CommitCount, Grounded;
    RunInHasInv(events, r, rec);
    RunIsExplained(events, r, rec, PersistedGoal(rec.run).value);
    ExactlyOnceAttribution(events, r, rec);
    NoStartedIn(rec.run, rec.calls);
    OneSucceededMutation(rec.calls);
  }

  lemma NoStartedIn(run: AgentRun, calls: seq<ToolCall>)
    requires CallsOk(run, calls) && run.status != Executing && !run.status.Failed?
    ensures !AnyStarted(calls) && !StartedMutation(calls)
    ensures forall i | 0 <= i < |calls| :: CallShape(calls[i])
  {
    forall i | 0 <= i < |calls| ensures CallShape(calls[i]) && calls[i].status != Started {
      assert CallOk(run, calls[i], i == |calls| - 1);
    }
  }

  /** The attempt at this index was rejected for this reason, as committed state
      then was. */
  ghost predicate AttemptRejected(events: seq<Event>, r: nat, rec: RunRec, i: nat, goal: Goal, why: Reason) {
    && i < |rec.calls| && Attempt(rec.calls[i])
    && Witnessed(events, r, RejectedAt(i, goal, why))
  }

  /** Blocking is sound: the reason was a condition of committed state in the
      business transaction of the run's own attempt, or when its verification
      checked the claim it concluded with; or policy denied its last call as it
      was admitted. A run that policy denied or holds has committed nothing. */
  lemma BlockingIsSound(events: seq<Event>, r: nat, rec: RunRec)
    requires RunIn(events, r, rec) && (rec.run.status == Blocked || rec.run.status == AwaitingApproval)
    ensures PersistedGoal(rec.run).Some?
    ensures var goal := PersistedGoal(rec.run).value;
      && (rec.run.status == AwaitingApproval ==>
            rec.calls != [] && Witnessed(events, r, PolicyAt(|rec.calls| - 1, goal.licenceId, RequireApproval)))
      && (rec.run.status == Blocked ==>
            || (rec.run.reason == Some(PolicyDenied) && rec.calls != []
                && Witnessed(events, r, PolicyAt(|rec.calls| - 1, goal.licenceId, Deny)))
            || (rec.run.reason == Some(NoSeats)
                && ((exists i :: AttemptRejected(events, r, rec, i, goal, NoSeats))
                    || Witnessed(events, r, ConfirmedAt(goal, ClaimNoSeats))))
            || (rec.run.reason == Some(InactiveUser)
                && ((exists i :: AttemptRejected(events, r, rec, i, goal, InactiveUser))
                    || Witnessed(events, r, ConfirmedAt(goal, ClaimUserInactive)))))
    ensures rec.run.status == AwaitingApproval || rec.run.reason == Some(PolicyDenied) ==> CommitCount(events, r) == 0
  {
    hide StateAfter, Witnessed, EventsOf, CommitCount, RunInv, LatestMutation;
    RunInHasInv(events, r, rec);
    EventsAreCommits(events, r);
    var (b, f) := (StateAfter(events).db.store, StateAfter(events).frames[r]);
    BlockedHasGoal(b, r, rec, f);
    var goal := PersistedGoal(rec.run).value;
    RunIsExplained(events, r, rec, goal);
    if rec.run.status == AwaitingApproval || rec.run.reason == Some(PolicyDenied) {
      HaltedByPolicy(b, r, rec, f);
      assert CallExplained(|rec.calls| - 1, rec.calls[|rec.calls| - 1], goal, KnownOf(events, r));
    } else if LatestMutation(rec.calls).Some? {
      var i := LatestMutation(rec.calls).value;
      BlockedRunHasAttempt(b, r, rec, f, i);
      assert Witnessed(events, r, RejectedAt(i, goal, rec.run.reason.value))
        ==> AttemptRejected(events, r, rec, i, goal, rec.run.reason.value);
    }
  }

  lemma BlockedHasGoal(b: Store, r: nat, rec: RunRec, f: Frame)
    requires RunInv(b, r, rec, f) && (rec.run.status == Blocked || rec.run.status == AwaitingApproval)
    ensures PersistedGoal(rec.run).Some?
    ensures rec.run.status == Blocked ==> rec.run.reason in {Some(PolicyDenied), Some(NoSeats), Some(InactiveUser)}
    ensures rec.run.reason == Some(PolicyDenied) ==> rec.run.status == Blocked
    ensures rec.run.status == AwaitingApproval ==> rec.run.reason.None?
  {
    hide CallsOk, BudgetOk, OneAttempt, ModelsOk, TraceOk, AttributionOk, EventsOf, FrameOk;
  }

  /** The last call of a run that policy denied or holds carries that policy, and
      the run has committed nothing. */
  lemma HaltedByPolicy(b: Store, r: nat, rec: RunRec, f: Frame)
    requires RunInv(b, r, rec, f)
    requires rec.run.status == AwaitingApproval || rec.run.reason == Some(PolicyDenied)
    ensures rec.calls != [] && rec.calls[|rec.calls| - 1].tool.Mutates()
    ensures rec.calls[|rec.calls| - 1].policy
      == Some(if rec.run.status == AwaitingApproval then RequireApproval else Deny)
    ensures EventsOf(b.audit, r) == []
  {
    hide BudgetOk, TraceOk, ModelsOk, EventsOf, FrameOk, RunShape, LatestMutation;
    var last := |rec.calls| - 1;
    assert CallOk(rec.run, rec.calls[last], true);
    assert Attempt(rec.calls[last]);
  }

  lemma BlockedRunHasAttempt(b: Store, r: nat, rec: RunRec, f: Frame, i: nat)
    requires RunInv(b, r, rec, f) && rec.run.status == Blocked
    requires i < |rec.calls| && rec.calls[i].tool.Mutates()
    ensures Attempt(rec.calls[i])
  {
    hide BudgetOk, OneAttempt, TraceOk, ModelsOk, AttributionOk, EventsOf, FrameOk;
    assert CallOk(rec.run, rec.calls[i], i == |rec.calls| - 1);
  }

  /** A change committed under a run's name is the effect of one recorded call,
      whose own admission read that the licence's policy allowed it. */
  lemma CommittedChangeWasAllowed(events: seq<Event>, r: nat, rec: RunRec)
    requires RunIn(events, r, rec) && CommitCount(events, r) > 0
    ensures PersistedGoal(rec.run).Some?
    ensures exists i: nat :: i < |rec.calls| && AllowedAssign(rec.calls[i], PersistedGoal(rec.run).value)
              && Witnessed(events, r, PolicyAt(i, PersistedGoal(rec.run).value.licenceId, Allow))
  {
    hide StateAfter, Witnessed, CommitCount, EventsOf, AllowedAssign;
    ExactlyOnceAttribution(events, r, rec);
    var e := EventsOf(StateAfter(events).db.store.audit, r)[0];
    assert AttributedTo(e, rec);
    var goal := PersistedGoal(rec.run).value;
    RunIsExplained(events, r, rec, goal);
    var i: nat :| i < |rec.calls| && AllowedAssign(rec.calls[i], goal);
    AllowedIsExplained(i, rec.calls[i], goal, KnownOf(events, r));
  }

  lemma AllowedIsExplained(i: nat, c: ToolCall, goal: Goal, known: Claim -> bool)
    requires AllowedAssign(c, goal) && CallExplained(i, c, goal, known)
    ensures known(PolicyAt(i, goal.licenceId, Allow))
  {
  }

  /** A run that ended for want of a row ended because its own lookup found it
      so: the text invalid, or no such user, or no such licence, or several. */
  lemma ClarificationIsSound(events: seq<Event>, r: nat, rec: RunRec)
    requires RunIn(events, r, rec) && rec.run.reason.Some? && ResolutionCode(rec.run.reason.value)
    ensures rec.run.status == NeedsClarification && rec.run.email.Some? && rec.run.product.Some?
    ensures Witnessed(events, r, UnresolvedAt(rec.run.email.value, rec.run.product.value, rec.run.reason.value))
  {
    hide StateAfter, Witnessed, Grounded, RunExplained, CallExplained, CallsOk, BudgetOk, TraceOk, AttributionOk, EventsOf;
    RunInHasInv(events, r, rec);
    HistoryExplains(events, r);
  }

  /** When a run is verified its attempt is settled: one at most, not both done
      and rejected, and if it failed, for a reason the model was shown. */
  lemma VerifiedAttemptIsSettled(events: seq<Event>, r: nat, rec: RunRec)
    requires RunIn(events, r, rec) && rec.run.status == Verifying
    ensures CountCalls(rec.calls, true) <= 1
    ensures !(AnyMutationSucceeded(rec.calls) && BlockingRejection(rec.calls).Some?)
    ensures forall i | 0 <= i < |rec.calls| && rec.calls[i].tool.Mutates() && rec.calls[i].status == CallFailed ::
              rec.calls[i].error.Some? && RejectionShown(AssignSeat, rec.calls[i].error.value.code).Some?
  {
    hide StateAfter, Grounded, EventsOf, TraceOk, RejectedCall;
    RunInHasInv(events, r, rec);
    forall i | 0 <= i < |rec.calls|
      ensures CallOk(rec.run, rec.calls[i], i == |rec.calls| - 1) && !RefusedByLimit(rec.calls[i])
    {
      assert CallOk(rec.run, rec.calls[i], i == |rec.calls| - 1);
    }
  }
}
