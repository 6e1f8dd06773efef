/** Why a run ended: each reason, with the detail stored beside it, goes back to
    the one step of the run that can give it, and says what that step carried. */
module Endings {
  import opened Basics
  import opened Text
  import opened Domain
  import opened AgentRows
  import opened SqlChecks
  import opened Services
  import opened Resolution
  import opened Tools
  import opened Machine
  import opened Invariant
  import opened Guarantees
  import opened Schedules
  import opened Calls
  import opened Conclusions
  import opened Stages

  /** The extraction's planner failed with the code that is stored, or gave texts
      that do not stand in the instruction, and those are the fields stored. */
  predicate ExtractionFailed(run: AgentRun, e: RunEvent) {
    && e.EndExtract? && run.detail.Some? && run.detail.value.PlannerDetail? && run.detail.value.stage == Extraction
    && var d := run.detail.value;
       || (e.outcome.Failing? && d.code == e.outcome.code && d.errorType == e.outcome.errorType && d.fields == [])
       || (e.outcome.Ensure? && d.code == "ungrounded_output" && d.errorType.None?
           && !Copied(e.outcome.email, e.outcome.product, run.instruction)
           && (FieldUserEmail in d.fields <==> !Grounded(e.outcome.email, run.instruction))
           && (FieldProduct in d.fields <==> !Grounded(e.outcome.product, run.instruction)))
  }

  predicate ExceptionOf(run: AgentRun, e: RunEvent) {
    || (e.EndExtract? && e.outcome.Throwing? && run.detail == Some(UnexpectedDetail("extraction", e.outcome.thrown)))
    || (e.EndResolve? && run.detail.Some? && run.detail.value.UnexpectedDetail? && run.detail.value.during == "resolution")
    || (e.AbortDecision? && e.why.Thrown? && run.detail == Some(UnexpectedDetail("decision", e.why.thrown)))
    || (e.Finish? && run.detail.Some? && run.detail.value.UnexpectedDetail? && run.detail.value.during == "verification")
  }

  predicate LimitOf(run: AgentRun, e: RunEvent) {
    || (e.BeforeRequest? && run.detail == Some(LimitDetail(ModelRequests, 6)))
    || (e == Admit(AssignSeat) && run.detail == Some(LimitDetail(MutationCalls, 1)))
    || (e.Admit? && e.tool != AssignSeat && run.detail == Some(LimitDetail(ReadCalls, 6)))
  }

  /** The step can have given the run this reason and this detail. */
  predicate Causes(run: AgentRun, e: RunEvent) {
    match run.reason
    case None => true
    case Some(InstructionUnclear) => e.EndExtract? && e.outcome.Unclear? && run.detail == Some(CodeDetail(e.outcome.code))
    case Some(UnsupportedRequest) => e.EndExtract? && e.outcome.Unsupported? && run.detail == Some(CodeDetail(e.outcome.code))
    case Some(PlannerFailed) =>
      || ExtractionFailed(run, e)
      || (e.AbortDecision? && e.why.PlannerError?
          && run.detail == Some(PlannerDetail(Decision, e.why.code, e.why.errorType, [])))
    case Some(UnexpectedFailure) => ExceptionOf(run, e)
    case Some(StepLimit) => LimitOf(run, e)
    case Some(PolicyDenied) => e == Admit(AssignSeat) && run.detail.Some? && run.detail.value.CallDetail?
    case Some(ToolFailed) => e.Report? && run.detail.Some? && run.detail.value.CallDetail?
    case Some(InvalidRequest) => e.EndResolve?
    case Some(UnknownUser) => e.EndResolve?
    case Some(UnknownLicence) => e.EndResolve?
    case Some(LicenceAmbiguous) => e.EndResolve?
    case Some(GoalScopeViolation) => false
    case Some(_) => e.Finish? && run.detail.Some? && run.detail.value.VerdictDetail?
  }

  /** The step leaves reason and detail as they were. */
  predicate KeepsReason(run: AgentRun, later: AgentRun) {
    later.reason == run.reason && later.detail == run.detail && later.instruction == run.instruction
  }

  lemma ExtractCauses(rec: RunRec, outcome: Intent)
    ensures var later := ExtractTx(rec, outcome).run; KeepsReason(rec.run, later) || Causes(later, EndExtract(outcome))
  {
    hide UngroundedFields, Grounded;
    if outcome.Ensure? {
      MissingFields(outcome.email, outcome.product, rec.run.instruction);
    }
  }

  lemma ResolveCauses(b: Store, rec: RunRec, found: Result<Resolution, string>)
    requires FrameOk(b, rec, Looked(found))
    ensures var later := ResolveTx(rec, found).run; KeepsReason(rec.run, later) || Causes(later, EndResolve)
  {
  }

  lemma AdmitCauses(b: Store, rec: RunRec, tool: Tool)
    ensures var later := AdmitTx(b, rec, tool).0.run; KeepsReason(rec.run, later) || Causes(later, Admit(tool))
  {
    hide CountCalls, AnyStarted, PersistedGoal;
  }

  lemma ReportCauses(rec: RunRec, f: Frame)
    requires f.Ran?
    ensures var later := ReportTx(rec, f.call, f.tool, f.goal, f.outcome).0.run;
      KeepsReason(rec.run, later) || Causes(later, Report)
  {
    hide Observe;
  }

  lemma FinishCauses(rec: RunRec, f: Frame)
    requires f.Checked? && f.rejection in {None, Some(NoSeats), Some(InactiveUser)}
    ensures var later := FinishTx(rec, f.proposal, f.changed, f.rejection, f.rejected, f.checked).run;
      KeepsReason(rec.run, later) || Causes(later, Machine.Finish)
  {
  }

  lemma OtherCauses(rec: RunRec, e: RunEvent)
    ensures KeepsReason(rec.run, BeforeRequestTx(rec).0.run) || Causes(BeforeRequestTx(rec).0.run, BeforeRequest)
    ensures e.AbortDecision? ==> KeepsReason(rec.run, AbortTx(rec, e.why).run) || Causes(AbortTx(rec, e.why).run, e)
    ensures e.Record? ==> KeepsReason(rec.run, RecordTx(rec, e.stage, e.record).0.run)
    ensures BeginDecideTx(rec).Some? ==> KeepsReason(rec.run, BeginDecideTx(rec).value.run)
    ensures e.Conclude? && ConcludeTx(rec, e.proposal).Some? ==> KeepsReason(rec.run, ConcludeTx(rec, e.proposal).value.run)
  {
    hide CountStage, ModelCallAccepted, AnyStarted;
  }

  lemma PlainStepCauses(b: Store, r: nat, rec: RunRec, f: Frame, e: RunEvent)
    requires !e.EndExtract? && !e.EndResolve? && !e.Admit? && !e.Report? && !e.Finish?
    ensures var later := RunStep(b, r, rec, f, e).rec.run; KeepsReason(rec.run, later) || Causes(later, e)
  {
    hide RecordTx, BeforeRequestTx, BusinessTx, AbortTx, ConcludeTx, BeginDecideTx, Resolve, VerifyRead, Causes;
    hide AnyMutationSucceeded, BlockingRejection, RejectedCall;
    OtherCauses(rec, e);
  }

  lemma StepCauses(b: Store, r: nat, rec: RunRec, f: Frame, e: RunEvent)
    requires FrameOk(b, rec, f)
    ensures var later := RunStep(b, r, rec, f, e).rec.run; KeepsReason(rec.run, later) || Causes(later, e)
  {
    hide ExtractTx, ResolveTx, RecordTx, BeforeRequestTx, AdmitTx, BusinessTx, ReportTx, FinishTx, AbortTx, ConcludeTx;
    hide BeginDecideTx, Resolve, VerifyRead, AnyMutationSucceeded, BlockingRejection, RejectedCall, Causes;
    match e
    case EndExtract(outcome) => ExtractCauses(rec, outcome);
    case EndResolve => if f.Looked? { ResolveCauses(b, rec, f.found); }
    case Admit(tool) => AdmitCauses(b, rec, tool);
    case Report => if f.Ran? { ReportCauses(rec, f); }
    case Finish =>
      if f.Checked? {
        BlockingRejectionBlocks(rec.calls);
        FinishCauses(rec, f);
      }
    case _ => PlainStepCauses(b, r, rec, f, e);
  }

  /** Every reason in a run's row was given by a step of its history that can give
      it, and the detail stored says what that step carried. So a run is never
      filed under another ending than the one it came to. */
  lemma {:induction false} EndingsHaveCauses(events: seq<Event>, r: nat, rec: RunRec)
    requires RunIn(events, r, rec) && rec.run.reason.Some?
    ensures exists e :: On(r, e) in events && Causes(rec.run, e)
    decreases |events|, 0
  {
    hide RunStep, Causes, HumanTx, ValidatedRequest, StateInv, RunInv, SoundStore, FrameOk;
    if events != [] {
      var earlier, e := events[..|events| - 1], events[|events| - 1];
      var s := StateAfter(earlier);
      assert events == earlier + [e];
      Reachable(earlier);
      if r < |s.db.runs| {
        if e.On? && e.r == r && s.Has(r) {
          RunInHasInv(earlier, r, s.db.runs[r]);
          InvHasFrame(s.db.store, r, s.db.runs[r], s.frames[r]);
          StepCauses(s.db.store, r, s.db.runs[r], s.frames[r], e.e);
          if Causes(rec.run, e.e) {
            assert On(r, e.e) in events;
          } else {
            CausedBefore(earlier, e, r, s.db.runs[r], rec);
          }
        } else {
          CausedBefore(earlier, e, r, s.db.runs[r], rec);
        }
      }
    }
  }

  lemma CausedBefore(earlier: seq<Event>, e: Event, r: nat, before: RunRec, rec: RunRec)
    requires RunIn(earlier, r, before) && rec.run.reason.Some? && KeepsReason(before.run, rec.run)
    ensures exists c :: On(r, c) in earlier + [e] && Causes(rec.run, c)
    decreases |earlier|, 1
  {
    hide StateAfter, Causes;
    EndingsHaveCauses(earlier, r, before);
    var c :| On(r, c) in earlier && Causes(before.run, c);
    SameCause(before.run, rec.run, c);
    assert On(r, c) in earlier + [e];
  }

  lemma SameCause(run: AgentRun, later: AgentRun, e: RunEvent)
    requires KeepsReason(run, later) && Causes(run, e)
    ensures Causes(later, e)
  {
  }
}
