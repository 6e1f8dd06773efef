/** Where the text in a run's rows comes from: each request, goal, proposal and
    trace row is the one that some step of the history handed over, unchanged. */
module Origins {
  import opened Basics
  import opened Domain
  import opened AgentRows
  import opened SqlChecks
  import opened Services
  import opened Resolution
  import opened Tools
  import opened Machine
  import opened Invariant
  import opened Guarantees

  predicate ProposalIs(run: AgentRun, p: Proposal) {
    run.proposal == Some(KindOf(p)) && run.claim == if p.CannotProceed? then Some(p.why) else None
  }

  /** What one step may write, given what it carries. */
  predicate Writes(rec: RunRec, later: RunRec, e: RunEvent) {
    && later.run.instruction == rec.run.instruction && later.run.requestingActor == rec.run.requestingActor
    && ((later.run.email == rec.run.email && later.run.product == rec.run.product)
        || (later.run.email.Some? && later.run.product.Some?
            && e == EndExtract(Ensure(later.run.email.value, later.run.product.value))))
    && ((later.run.proposal == rec.run.proposal && later.run.claim == rec.run.claim)
        || (e.Conclude? && ProposalIs(later.run, e.proposal)))
    && (later.models == rec.models
        || (|later.models| == |rec.models| + 1 && later.models == rec.models + [later.models[|rec.models|]]
            && e == Record(later.models[|rec.models|].stage, later.models[|rec.models|].rec)))
    && (|later.calls| == |rec.calls| || (|later.calls| == |rec.calls| + 1 && e == Admit(later.calls[|rec.calls|].tool)))
    && |rec.calls| <= |later.calls|
    && forall i | 0 <= i < |rec.calls| :: later.calls[i].tool == rec.calls[i].tool
  }

  lemma CallStepWrites(b: Store, r: nat, rec: RunRec, f: Frame, e: RunEvent)
    requires RunShape(rec.run) && StageOk(rec.run)
    requires e.Admit? || e.Report? || e.Record?
    ensures Writes(rec, RunStep(b, r, rec, f, e).rec, e)
  {
    hide AdmitTx, ReportTx, RecordTx, RunShape, StageOk, Writes;
    UnchangedWrites(rec, e);
    if e.Admit? && MayCallBack(rec.run, f) {
      AdmitWrites(b, rec, e.tool);
    } else if e.Report? && f.Ran? {
      ReportWrites(rec, f.call, f.tool, f.goal, f.outcome);
    } else if e.Record? {
      RecordWrites(rec, e.stage, e.record);
    }
  }

  lemma UnchangedWrites(rec: RunRec, e: RunEvent)
    ensures Writes(rec, rec, e)
  {
  }

  lemma AdmitWrites(b: Store, rec: RunRec, tool: Tool)
    ensures Writes(rec, AdmitTx(b, rec, tool).0, Admit(tool))
  {
    hide CountCalls, AnyStarted, PersistedGoal, Evaluate;
  }

  lemma ReportWrites(rec: RunRec, id: nat, tool: Tool, goal: Goal, outcome: Result<ToolOutput, ToolError>)
    ensures Writes(rec, ReportTx(rec, id, tool, goal, outcome).0, Report)
  {
    hide Observe;
  }

  lemma RecordWrites(rec: RunRec, stage: Stage, record: ModelRecord)
    ensures Writes(rec, RecordTx(rec, stage, record).0, Record(stage, record))
  {
    hide ModelCallAccepted;
  }

  lemma RowStepWrites(b: Store, r: nat, rec: RunRec, f: Frame, e: RunEvent)
    requires RunShape(rec.run) && StageOk(rec.run)
    requires !e.Admit? && !e.Report? && !e.Record?
    ensures Writes(rec, RunStep(b, r, rec, f, e).rec, e)
  {
    hide AdmitTx, ReportTx, RecordTx, CountStage, Resolve, VerifyRead, BusinessTx, DecisionOutcome, UngroundedFields;
    hide AnyMutationSucceeded, BlockingRejection, RejectedCall, AnyStarted;
  }

  /** Everything in the run's rows that came from outside came in a step of the history. */
  ghost predicate Sourced(events: seq<Event>, r: nat, rec: RunRec) {
    && (exists e :: e in events && e.Receive? && e.instruction == rec.run.instruction
                    && ValidatedRequest(e.instruction, e.actor) == Some(rec.run.requestingActor))
    && (rec.run.email.Some? <==> rec.run.product.Some?)
    && (rec.run.email.Some? ==> On(r, EndExtract(Ensure(rec.run.email.value, rec.run.product.value))) in events)
    && (rec.run.proposal.None? ==> rec.run.claim.None?)
    && (rec.run.proposal.Some? ==> exists p :: On(r, Conclude(p)) in events && ProposalIs(rec.run, p))
    && (forall m | m in rec.models :: On(r, Record(m.stage, m.rec)) in events)
    && (forall i | 0 <= i < |rec.calls| :: On(r, Admit(rec.calls[i].tool)) in events)
  }

  lemma SourcedLater(events: seq<Event>, e: Event, r: nat, rec: RunRec)
    requires Sourced(events, r, rec)
    ensures Sourced(events + [e], r, rec)
  {
    hide ValidatedRequest;
    var start :| start in events && start.Receive? && start.instruction == rec.run.instruction
              && ValidatedRequest(start.instruction, start.actor) == Some(rec.run.requestingActor);
    assert start in events + [e];
    if rec.run.proposal.Some? {
      var p :| On(r, Conclude(p)) in events && ProposalIs(rec.run, p);
      assert On(r, Conclude(p)) in events + [e];
    }
  }

  lemma SourcedByStep(events: seq<Event>, e: RunEvent, r: nat, rec: RunRec, later: RunRec)
    requires Sourced(events, r, rec) && Writes(rec, later, e)
    ensures Sourced(events + [On(r, e)], r, later)
  {
    hide ValidatedRequest;
    var more := events + [On(r, e)];
    SourcedLater(events, On(r, e), r, rec);
    assert On(r, e) in more;
    if later.run.proposal.Some? && later.run.proposal == rec.run.proposal && later.run.claim == rec.run.claim {
      var p :| On(r, Conclude(p)) in more && ProposalIs(rec.run, p);
      assert ProposalIs(later.run, p);
    }
    forall i | 0 <= i < |later.calls| ensures On(r, Admit(later.calls[i].tool)) in more {
      if i < |rec.calls| {
        assert later.calls[i].tool == rec.calls[i].tool;
      }
    }
  }

  /** The instruction is stored exactly as given, a goal is the extraction's own
      words, a proposal the planner's own, and every trace row answers a request
      or call that the planner made. Nothing else is ever written. */
  lemma {:induction false} RowsHaveOrigins(events: seq<Event>, r: nat, rec: RunRec)
    requires RunIn(events, r, rec)
    ensures Sourced(events, r, rec)
  {
    hide RunStep, Sourced, Writes, HumanTx, ValidatedRequest, StateInv, RunInv, SoundStore;
    if events != [] {
      var earlier, e := events[..|events| - 1], events[|events| - 1];
      var s := StateAfter(earlier);
      assert events == earlier + [e];
      if r < |s.db.runs| {
        RowsHaveOrigins(earlier, r, s.db.runs[r]);
        if e.On? && e.r == r && s.Has(r) {
          RunStepWrites(earlier, r, s.db.runs[r], e.e);
          SourcedByStep(earlier, e.e, r, s.db.runs[r], rec);
        } else {
          SourcedLater(earlier, e, r, rec);
        }
      } else {
        NewRunIsSourced(earlier, e, r);
      }
    }
  }

  lemma RunStepWrites(events: seq<Event>, r: nat, rec: RunRec, e: RunEvent)
    requires RunIn(events, r, rec) && StateAfter(events).Has(r)
    ensures Writes(rec, RunStep(StateAfter(events).db.store, r, rec, StateAfter(events).frames[r], e).rec, e)
  {
    hide StateAfter, RunStep, Writes;
    RunInHasInv(events, r, rec);
    if e.Admit? || e.Report? || e.Record? {
      CallStepWrites(StateAfter(events).db.store, r, rec, StateAfter(events).frames[r], e);
    } else {
      RowStepWrites(StateAfter(events).db.store, r, rec, StateAfter(events).frames[r], e);
    }
  }

  lemma NewRunIsSourced(events: seq<Event>, e: Event, r: nat)
    requires e.Receive? && ValidatedRequest(e.instruction, e.actor).Some?
    ensures Sourced(events + [e], r, NewRun(e.instruction, ValidatedRequest(e.instruction, e.actor).value))
  {
    hide ValidatedRequest;
    assert e in events + [e];
  }
}
