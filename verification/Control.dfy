/** When the executor stops a planner, and what a planner that does not stop can
    still change. */
module Control {
  import opened Basics
  import opened Domain
  import opened AgentRows
  import opened SqlChecks
  import opened Services
  import opened Resolution
  import opened Tools
  import opened Machine
  import opened Invariant
  import opened Guarantees

  /** The run has ended, or waits for a person. */
  predicate Halted(run: AgentRun) {
    run.completed || run.status == AwaitingApproval
  }

  lemma StoppedMeansHalted(b: Store, r: nat, rec: RunRec, f: Frame, e: RunEvent)
    requires FrameOk(b, rec, f)
    ensures RunStep(b, r, rec, f, e).reply == Stopped ==> Halted(RunStep(b, r, rec, f, e).rec.run)
  {
    hide ExtractTx, ResolveTx, FinishTx, AbortTx, ConcludeTx, BeginDecideTx, BusinessTx, Resolve, VerifyRead;
    hide AnyMutationSucceeded, BlockingRejection, RejectedCall, CountCalls, CountStage, RejectionShown;
  }

  /** In every history, whenever the executor raises DecisionStopped to a run's
      planner, the committed run has ended or is paused. */
  lemma StoppedOnlyOnceHalted(events: seq<Event>, r: nat, rec: RunRec, e: RunEvent)
    requires RunIn(events, r, rec) && StateAfter(events).Has(r)
    requires RunStep(StateAfter(events).db.store, r, rec, StateAfter(events).frames[r], e).reply == Stopped
    ensures r < |StateAfter(events + [On(r, e)]).db.runs|
    ensures Halted(StateAfter(events + [On(r, e)]).db.runs[r].run)
  {
    hide RunStep, SoundStore, Halted;
    assert (events + [On(r, e)])[..|events|] == events;
    RunInHasInv(events, r, rec);
    StoppedMeansHalted(StateAfter(events).db.store, r, rec, StateAfter(events).frames[r], e);
  }

  /** The one step that moves a paused run: its planner asks for a further request
      at the limit, in its loop or with a recorder that it kept. */
  predicate LimitAfterHold(s: State, r: nat, e: Event) {
    && e == On(r, BeforeRequest) && s.Has(r) && (s.frames[r].Deciding? || s.frames[r].Idle?)
    && CountStage(s.db.runs[r].models, Decision) >= MAX_DECISION_MODEL_REQUESTS
  }

  lemma PausedStep(b: Store, r: nat, rec: RunRec, f: Frame, e: RunEvent)
    requires FrameOk(b, rec, f) && RunShape(rec.run) && StageOk(rec.run) && rec.run.status == AwaitingApproval
    ensures var after := RunStep(b, r, rec, f, e).rec;
      if e.BeforeRequest? && (f.Deciding? || f.Idle?) && CountStage(rec.models, Decision) >= MAX_DECISION_MODEL_REQUESTS
      then after.run.status.Failed? && after.run.reason == Some(StepLimit)
      else after.run.status == AwaitingApproval && after.calls == rec.calls
  {
    hide BusinessTx, Resolve, VerifyRead, ModelCallAccepted;
    hide AnyMutationSucceeded, BlockingRejection, RejectedCall, CountCalls, CountStage, RejectionShown, UngroundedFields;
  }

  /** A paused run stays paused under every step except exactly that one, which
      ends it FAILED (step_limit). "Nothing leaves AWAITING_APPROVAL" is false. */
  lemma PausedLeavesExactlyAtTheLimit(events: seq<Event>, r: nat, rec: RunRec, e: Event)
    requires RunIn(events, r, rec) && rec.run.status == AwaitingApproval
    ensures r < |StateAfter(events + [e]).db.runs|
    ensures var later := StateAfter(events + [e]).db.runs[r].run;
      && (later.status != AwaitingApproval <==> LimitAfterHold(StateAfter(events), r, e))
      && (later.status != AwaitingApproval ==> later.status.Failed? && later.reason == Some(StepLimit))
  {
    hide RunStep, ValidatedRequest, HumanTx, SoundStore, FrameOk;
    assert (events + [e])[..|events|] == events;
    RunInHasInv(events, r, rec);
    var s := StateAfter(events);
    if e.On? && e.r == r {
      PausedStep(s.db.store, r, rec, s.frames[r], e.e);
    }
  }

  /** What keeps a run paused: once stopped, its planner only lets the exception
      through, and it asks for no request with a recorder that it kept. */
  predicate LetsStopThrough(s: State, r: nat, e: Event) {
    (e.On? && e.r == r && s.Has(r) && Halted(s.db.runs[r].run)) ==>
      && (s.frames[r].Deciding? ==> e.e.StopDecision? || e.e.Die?)
      && (s.frames[r].Idle? ==> !e.e.BeforeRequest?)
  }

  predicate Honest(events: seq<Event>, more: seq<Event>, r: nat) {
    forall k | 0 <= k < |more| :: LetsStopThrough(StateAfter(events + more[..k]), r, more[k])
  }

  /** Under a planner that keeps its contract, nothing leaves AWAITING_APPROVAL. */
  lemma {:induction false} PausedStaysPaused(events: seq<Event>, more: seq<Event>, r: nat, rec: RunRec)
    requires RunIn(events, r, rec) && rec.run.status == AwaitingApproval
    requires Honest(events, more, r)
    ensures r < |StateAfter(events + more).db.runs|
    ensures StateAfter(events + more).db.runs[r].run.status == AwaitingApproval
  {
    hide StateAfter, LetsStopThrough;
    if more == [] {
      assert events + more == events;
    } else {
      var before, e := more[..|more| - 1], more[|more| - 1];
      assert forall k | 0 <= k < |before| :: before[..k] == more[..k] && before[k] == more[k];
      PausedStaysPaused(events, before, r, rec);
      assert LetsStopThrough(StateAfter(events + before), r, e);
      HonestIsNoLimit(StateAfter(events + before), r, e);
      PausedLeavesExactlyAtTheLimit(events + before, r, StateAfter(events + before).db.runs[r], e);
      assert events + more == (events + before) + [e];
    }
  }

  lemma HonestIsNoLimit(s: State, r: nat, e: Event)
    requires LetsStopThrough(s, r, e) && (s.Has(r) ==> s.db.runs[r].run.status == AwaitingApproval)
    ensures !LimitAfterHold(s, r, e)
  {
  }

  // --- ended runs -----------------------------------------------------------------------

  /** The step stores a model call on the run. */
  predicate StoresRequest(rec: RunRec, r: nat, e: Event) {
    e.On? && e.r == r && e.e.Record? && HasRecorder(rec.run, e.e.stage) && WellFormedRecord(e.e.record)
  }

  lemma RecordChangesIffStored(rec: RunRec, stage: Stage, record: ModelRecord)
    requires rec.run.lastSeq >= 0
    ensures RecordTx(rec, stage, record).0 != rec <==> WellFormedRecord(record)
  {
    hide ModelCallAccepted, WellFormedRecord;
    ModelCallAcceptedIffWellFormed(ModelCall(rec.run.lastSeq + 1, stage, record.error.None?, record));
  }

  lemma OnlyRecordingTouchesEnded(b: Store, r: nat, rec: RunRec, f: Frame, e: RunEvent)
    requires FrameOk(b, rec, f) && RunShape(rec.run) && rec.run.completed && !e.Record?
    ensures RunStep(b, r, rec, f, e).rec == rec
  {
    hide BusinessTx, Resolve, VerifyRead, AnyMutationSucceeded, BlockingRejection, RejectedCall, CountCalls, CountStage;
    hide UngroundedFields, RejectionShown, RecordTx, DecisionOutcome;
  }

  /** An ended run changes under exactly one kind of step: a well-formed model
      call recorded by a recorder that its planner kept. "A run that has ended
      never changes again" is false. */
  lemma EndedChangesExactlyByRecording(events: seq<Event>, r: nat, rec: RunRec, e: Event)
    requires RunIn(events, r, rec) && rec.run.completed
    ensures r < |StateAfter(events + [e]).db.runs|
    ensures StateAfter(events + [e]).db.runs[r] != rec <==> StoresRequest(rec, r, e)
  {
    hide RunStep, ValidatedRequest, HumanTx, SoundStore, FrameOk, WellFormedRecord, RunShape;
    assert (events + [e])[..|events|] == events;
    RunInHasInv(events, r, rec);
    var s := StateAfter(events);
    if e.On? && e.r == r {
      EndedStep(s.db.store, r, rec, s.frames[r], e.e);
    }
  }

  lemma EndedStep(b: Store, r: nat, rec: RunRec, f: Frame, e: RunEvent)
    requires RunInv(b, r, rec, f) && rec.run.completed
    ensures RunStep(b, r, rec, f, e).rec != rec <==> e.Record? && HasRecorder(rec.run, e.stage) && WellFormedRecord(e.record)
  {
    hide CallsOk, EndingOk, BudgetOk, TraceOk, AttributionOk, EventsOf, Grounded, RecordTx, WellFormedRecord, HasRecorder;
    if e.Record? {
      RecordChangesIffStored(rec, e.stage, e.record);
    } else {
      OnlyRecordingTouchesEnded(b, r, rec, f, e);
    }
  }
}
