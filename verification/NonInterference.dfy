/** Ids cannot influence a decision. Under any renaming of user and licence ids
    the machine does the same, renamed, but for one thing that ids decide: the
    order in which an ambiguous product's candidates are listed. So everything
    a model sees, and everything decided because of it, is the same. */
module NonInterference {
  import opened Basics
  import opened Text
  import opened Domain
  import opened AgentRows
  import opened SqlChecks
  import opened Services
  import opened Resolution
  import opened Tools
  import opened Machine
  import opened Renaming

  // --- rows, frames and states under other ids --------------------------------------

  function OptionalUser(ids: Ids, u: Option<int>): Option<int> {
    match u case None => None case Some(id) => Some(ids.user(id))
  }

  function OptionalLicence(ids: Ids, l: Option<int>): Option<int> {
    match l case None => None case Some(id) => Some(ids.licence(id))
  }

  function OptionalDetail(ids: Ids, d: Option<Detail>): Option<Detail> {
    match d case None => None case Some(detail) => Some(ids.OfDetail(detail))
  }

  function OfRun(ids: Ids, run: AgentRun): AgentRun {
    run.(userId := OptionalUser(ids, run.userId), licenceId := OptionalLicence(ids, run.licenceId),
         detail := OptionalDetail(ids, run.detail))
  }

  function OfCall(ids: Ids, c: ToolCall): ToolCall {
    c.(args := ids.OfArguments(c.args), result := ids.OptionalOutput(c.result))
  }

  function OfCalls(ids: Ids, calls: seq<ToolCall>): (t: seq<ToolCall>)
    ensures |t| == |calls| && forall i | 0 <= i < |calls| :: t[i] == OfCall(ids, calls[i])
  {
    seq(|calls|, i requires 0 <= i < |calls| => OfCall(ids, calls[i]))
  }

  function OfRec(ids: Ids, rec: RunRec): RunRec {
    RunRec(OfRun(ids, rec.run), OfCalls(ids, rec.calls), rec.models)
  }

  function OfFound(ids: Ids, found: Result<Resolution, string>): Result<Resolution, string> {
    match found case Ok(r) => Ok(ids.OfResolution(r)) case Err(e) => Err(e)
  }

  function OfChecked(ids: Ids, checked: Result<(Verdict, Option<BlockCheck>), string>)
    : Result<(Verdict, Option<BlockCheck>), string>
  {
    match checked
    case Ok((verdict, check)) => Ok((ids.OfVerdict(verdict), ids.OptionalCheck(check)))
    case Err(e) => Err(e)
  }

  function OfFrame(ids: Ids, f: Frame): Frame {
    match f
    case Looked(found) => Looked(OfFound(ids, found))
    case Admitted(call, tool, goal, kept) => Admitted(call, tool, ids.OfGoal(goal), kept)
    case Ran(call, tool, goal, outcome, kept) => Ran(call, tool, ids.OfGoal(goal), ids.Outcome(outcome), kept)
    case Concluded(proposal, goal, changed, rejection, rejected) =>
      Concluded(proposal, ids.OfGoal(goal), changed, rejection, rejected)
    case Checked(proposal, changed, rejection, rejected, checked) =>
      Checked(proposal, changed, rejection, rejected, OfChecked(ids, checked))
    case _ => f
  }

  ghost function OfAfter(ids: Ids, a: After): After
    requires ids.Injective()
  {
    After(ids.Tables(a.store), OfRec(ids, a.rec), OfFrame(ids, a.frame), a.reply)
  }

  function OfRecs(ids: Ids, recs: seq<RunRec>): (t: seq<RunRec>)
    ensures |t| == |recs| && forall i | 0 <= i < |recs| :: t[i] == OfRec(ids, recs[i])
  {
    seq(|recs|, i requires 0 <= i < |recs| => OfRec(ids, recs[i]))
  }

  function OfFrames(ids: Ids, fs: seq<Frame>): (t: seq<Frame>)
    ensures |t| == |fs| && forall i | 0 <= i < |fs| :: t[i] == OfFrame(ids, fs[i])
  {
    seq(|fs|, i requires 0 <= i < |fs| => OfFrame(ids, fs[i]))
  }

  ghost function OfState(ids: Ids, s: State): State
    requires ids.Injective()
  {
    State(Db(ids.Tables(s.db.store), OfRecs(ids, s.db.runs)), OfFrames(ids, s.frames))
  }

  function OfEvent(ids: Ids, e: Event): Event {
    match e case Human(step) => Human(ids.OfStep(step)) case _ => e
  }

  function OfEvents(ids: Ids, events: seq<Event>): (t: seq<Event>)
    ensures |t| == |events| && forall i | 0 <= i < |events| :: t[i] == OfEvent(ids, events[i])
  {
    seq(|events|, i requires 0 <= i < |events| => OfEvent(ids, events[i]))
  }

  // --- queries on a run's rows ---------------------------------------------------------

  lemma SameGoal(ids: Ids, run: AgentRun)
    ensures PersistedGoal(OfRun(ids, run)) ==
      match PersistedGoal(run) case None => None case Some(goal) => Some(ids.OfGoal(goal))
  {
  }

  lemma SameFlags(ids: Ids, calls: seq<ToolCall>)
    ensures AnyStarted(OfCalls(ids, calls)) <==> AnyStarted(calls)
    ensures AnyMutationSucceeded(OfCalls(ids, calls)) <==> AnyMutationSucceeded(calls)
  {
    var t := OfCalls(ids, calls);
    assert forall i | 0 <= i < |calls| :: t[i].status == calls[i].status && t[i].tool == calls[i].tool;
  }

  lemma {:induction false} SameCounts(ids: Ids, calls: seq<ToolCall>, mutates: bool)
    ensures CountCalls(OfCalls(ids, calls), mutates) == CountCalls(calls, mutates)
  {
    if calls != [] {
      var last := |calls| - 1;
      SameCounts(ids, calls[..last], mutates);
      assert OfCalls(ids, calls)[..last] == OfCalls(ids, calls[..last]);
    }
  }

  lemma {:induction false} SameLatest(ids: Ids, calls: seq<ToolCall>)
    ensures LatestMutation(OfCalls(ids, calls)) == LatestMutation(calls)
  {
    if calls != [] {
      var last := |calls| - 1;
      SameLatest(ids, calls[..last]);
      assert OfCalls(ids, calls)[..last] == OfCalls(ids, calls[..last]);
    }
  }

  lemma SameRejection(ids: Ids, calls: seq<ToolCall>)
    ensures BlockingRejection(OfCalls(ids, calls)) == BlockingRejection(calls)
    ensures RejectedCall(OfCalls(ids, calls)) == RejectedCall(calls)
  {
    hide LatestMutation;
    SameLatest(ids, calls);
  }

  // --- transactions -------------------------------------------------------------------------

  lemma SameExtract(ids: Ids, rec: RunRec, outcome: Intent)
    ensures ExtractTx(OfRec(ids, rec), outcome) == OfRec(ids, ExtractTx(rec, outcome))
  {
    hide UngroundedFields;
  }

  lemma SameResolveTx(ids: Ids, rec: RunRec, found: Result<Resolution, string>)
    ensures ResolveTx(OfRec(ids, rec), OfFound(ids, found)) == OfRec(ids, ResolveTx(rec, found))
  {
  }

  lemma SameRecord(ids: Ids, rec: RunRec, stage: Stage, record: ModelRecord)
    ensures HasRecorder(OfRec(ids, rec).run, stage) == HasRecorder(rec.run, stage)
    ensures RecordTx(OfRec(ids, rec), stage, record)
         == (OfRec(ids, RecordTx(rec, stage, record).0), RecordTx(rec, stage, record).1)
  {
    hide ModelCallAccepted;
  }

  lemma SameBeforeRequest(ids: Ids, rec: RunRec)
    ensures HasRecorder(OfRec(ids, rec).run, Decision) == HasRecorder(rec.run, Decision)
    ensures BeforeRequestTx(OfRec(ids, rec)) == (OfRec(ids, BeforeRequestTx(rec).0), BeforeRequestTx(rec).1)
  {
    hide CountStage;
  }

  lemma SameBeginDecide(ids: Ids, rec: RunRec)
    ensures BeginDecideTx(OfRec(ids, rec)) ==
      match BeginDecideTx(rec) case None => None case Some(after) => Some(OfRec(ids, after))
  {
  }

  lemma SameConclude(ids: Ids, rec: RunRec, proposal: Proposal)
    ensures ConcludeTx(OfRec(ids, rec), proposal) ==
      match ConcludeTx(rec, proposal) case None => None case Some(after) => Some(OfRec(ids, after))
  {
    hide AnyStarted;
    SameFlags(ids, rec.calls);
  }

  lemma SameAbort(ids: Ids, rec: RunRec, why: Abort)
    ensures AbortTx(OfRec(ids, rec), why) == OfRec(ids, AbortTx(rec, why))
  {
  }

  lemma SameFinish(ids: Ids, rec: RunRec, f: Frame)
    requires f.Checked?
    ensures FinishTx(OfRec(ids, rec), f.proposal, f.changed, f.rejection, f.rejected, OfChecked(ids, f.checked))
         == OfRec(ids, FinishTx(rec, f.proposal, f.changed, f.rejection, f.rejected, f.checked))
  {
  }

  function OfAdmission(ids: Ids, a: Admission): Admission {
    match a case Started_(call, goal) => Started_(call, ids.OfGoal(goal)) case Ended(_) => a
  }

  lemma AppendCall(ids: Ids, calls: seq<ToolCall>, c: ToolCall)
    ensures OfCalls(ids, calls + [c]) == OfCalls(ids, calls) + [OfCall(ids, c)]
  {
  }

  lemma SameArguments(ids: Ids, tool: Tool, goal: Goal)
    ensures ArgumentsOf(tool, ids.OfGoal(goal)) == ids.OfArguments(ArgumentsOf(tool, goal))
  {
  }

  lemma SameAdmit(ids: Ids, b: Store, rec: RunRec, tool: Tool)
    requires ids.Injective()
    ensures HasRecorder(OfRec(ids, rec).run, Decision) == HasRecorder(rec.run, Decision)
    ensures AdmitTx(ids.Tables(b), OfRec(ids, rec), tool) ==
      (OfRec(ids, AdmitTx(b, rec, tool).0), OfAdmission(ids, AdmitTx(b, rec, tool).1))
  {
    hide AnyStarted, CountCalls, Ids.Injective, Ids.Tables, ArgumentsOf, Evaluate, OfCalls, PersistedGoal;
    hide OptionalUser, OptionalLicence, Ids.OfVerdict, Ids.OptionalCheck, Ids.OfArguments, Ids.Output, Ids.OfGoal;
    SameFlags(ids, rec.calls);
    SameCounts(ids, rec.calls, tool.Mutates());
    SameGoal(ids, rec.run);
    if PersistedGoal(rec.run).Some? {
      SamePolicy(ids, b, tool, PersistedGoal(rec.run).value);
      SameArguments(ids, tool, PersistedGoal(rec.run).value);
    }
    var after := AdmitTx(b, rec, tool).0;
    if after != rec {
      AppendCall(ids, rec.calls, after.calls[|rec.calls|]);
    }
  }

  lemma SameReport(ids: Ids, rec: RunRec, f: Frame)
    requires f.Ran? && ids.Injective()
    ensures ReportTx(OfRec(ids, rec), f.call, f.tool, ids.OfGoal(f.goal), ids.Outcome(f.outcome)) ==
      (OfRec(ids, ReportTx(rec, f.call, f.tool, f.goal, f.outcome).0), ReportTx(rec, f.call, f.tool, f.goal, f.outcome).1)
  {
    hide Observe, Ids.Injective, Ids.Output;
    SameObservation(ids, f.tool, f.goal, f.outcome);
    if f.call < |rec.calls| {
      var after := ReportTx(rec, f.call, f.tool, f.goal, f.outcome).0;
      assert OfCalls(ids, after.calls) == OfCalls(ids, rec.calls)[f.call := OfCall(ids, after.calls[f.call])];
    }
  }

  lemma SameBusiness(ids: Ids, b: Store, r: nat, tool: Tool, goal: Goal, fault: bool)
    requires ids.Injective()
    ensures BusinessTx(ids.Tables(b), r, tool, ids.OfGoal(goal), fault) ==
      (ids.Tables(BusinessTx(b, r, tool, goal, fault).0), ids.Outcome(BusinessTx(b, r, tool, goal, fault).1))
  {
    hide RunTool, Ids.Injective, Ids.Tables, Ids.Output;
    SameTool(ids, b, tool, goal, r);
  }

  lemma SameVerifyRead(ids: Ids, b: Store, goal: Goal, proposal: Proposal)
    requires ids.Injective()
    ensures VerifyRead(ids.Tables(b), ids.OfGoal(goal), proposal) == OfChecked(ids, VerifyRead(b, goal, proposal))
  {
    hide Verify, CheckBlock, Ids.Injective, Ids.Tables;
    SameVerdict(ids, b, goal);
    if proposal.CannotProceed? {
      SameCheck(ids, b, goal, proposal.why);
    }
  }

  // --- the machine -----------------------------------------------------------------------------

  lemma SameConcludeStep(ids: Ids, b: Store, r: nat, rec: RunRec, proposal: Proposal)
    requires ids.Injective()
    ensures RunStep(ids.Tables(b), r, OfRec(ids, rec), Deciding, Conclude(proposal))
         == OfAfter(ids, RunStep(b, r, rec, Deciding, Conclude(proposal)))
  {
    hide Ids.Injective, Ids.Tables, AnyMutationSucceeded, BlockingRejection, RejectedCall, AnyStarted, OfRun, PersistedGoal;
    SameConclude(ids, rec, proposal);
    SameFlags(ids, rec.calls);
    SameRejection(ids, rec.calls);
    SameGoal(ids, rec.run);
  }

  lemma SameBeginStep(ids: Ids, b: Store, r: nat, rec: RunRec, f: Frame, e: RunEvent)
    requires ids.Injective() && (e.BeginExtract? || e.BeginResolve?)
    ensures RunStep(ids.Tables(b), r, OfRec(ids, rec), OfFrame(ids, f), e) == OfAfter(ids, RunStep(b, r, rec, f, e))
  {
    hide Ids.Injective, Ids.Tables;
  }

  lemma SameCallStep(ids: Ids, b: Store, r: nat, rec: RunRec, f: Frame, e: RunEvent)
    requires ids.Injective() && (e.BeforeRequest? || e.Admit? || e.Business? || e.Report?)
    ensures RunStep(ids.Tables(b), r, OfRec(ids, rec), OfFrame(ids, f), e) == OfAfter(ids, RunStep(b, r, rec, f, e))
  {
    hide BeforeRequestTx, AdmitTx, BusinessTx, ReportTx, Ids.Injective, Ids.Tables, OfRec, HasRecorder;
    match e
    case BeforeRequest => SameBeforeRequest(ids, rec);
    case Admit(tool) => SameAdmit(ids, b, rec, tool);
    case Business(fault) => if f.Admitted? { SameBusiness(ids, b, r, f.tool, f.goal, fault); }
    case Report => if f.Ran? { SameReport(ids, rec, f); }
  }

  /** A run's step on renamed rows is the renamed step, and answers the same.
      Resolution's read is treated apart. */
  lemma SameRunStep(ids: Ids, b: Store, r: nat, rec: RunRec, f: Frame, e: RunEvent)
    requires ids.Injective() && !e.Lookup?
    ensures RunStep(ids.Tables(b), r, OfRec(ids, rec), OfFrame(ids, f), e) == OfAfter(ids, RunStep(b, r, rec, f, e))
  {
    hide ExtractTx, ResolveTx, RecordTx, BeforeRequestTx, AdmitTx, BusinessTx, ReportTx, FinishTx;
    hide AbortTx, ConcludeTx, BeginDecideTx;
    hide Resolve, VerifyRead, AnyMutationSucceeded, BlockingRejection, RejectedCall, Ids.Injective, Ids.Tables, OfRec;
    hide AwaitingExtraction, PersistedGoal, HasRecorder;
    match e
    case BeginExtract => SameBeginStep(ids, b, r, rec, f, e);
    case BeginResolve => SameBeginStep(ids, b, r, rec, f, e);
    case EndExtract(outcome) => SameExtract(ids, rec, outcome);
    case Record(stage, record) => SameRecord(ids, rec, stage, record);
    case EndResolve => if f.Looked? { SameResolveTx(ids, rec, f.found); }
    case BeginDecide => SameBeginDecide(ids, rec);
    case BeforeRequest => SameCallStep(ids, b, r, rec, f, e);
    case Admit(_) => SameCallStep(ids, b, r, rec, f, e);
    case Business(_) => SameCallStep(ids, b, r, rec, f, e);
    case Report => SameCallStep(ids, b, r, rec, f, e);
    case Conclude(proposal) => if f.Deciding? { SameConcludeStep(ids, b, r, rec, proposal); }
    case VerifyNow(fault) => if f.Concluded? { SameVerifyRead(ids, b, f.goal, f.proposal); }
    case Finish => if f.Checked? { SameFinish(ids, rec, f); }
    case AbortDecision(why) => SameAbort(ids, rec, why);
    case _ =>
  }

  lemma NewRunHasNoIds(ids: Ids, instruction: string, actor: string)
    ensures OfRec(ids, NewRun(instruction, actor)) == NewRun(instruction, actor)
    ensures OfFrame(ids, Idle) == Idle
  {
  }

  // --- ids in the old order -----------------------------------------------------------------

  lemma LookupInOrder(ids: Ids, b: Store, r: nat, rec: RunRec, f: Frame, fault: bool)
    requires ids.Injective() && ids.KeepsOrder()
    ensures RunStep(ids.Tables(b), r, OfRec(ids, rec), OfFrame(ids, f), Lookup(fault))
         == OfAfter(ids, RunStep(b, r, rec, f, Lookup(fault)))
  {
    hide Resolve, Ids.Injective, Ids.Tables, OfRec, Ids.KeepsOrder;
    if f.Resolving? {
      SameResolveInOrder(ids, b, f.email, f.product);
    }
  }

  lemma RunStepInOrder(ids: Ids, b: Store, r: nat, rec: RunRec, f: Frame, e: RunEvent)
    requires ids.Injective() && ids.KeepsOrder()
    ensures RunStep(ids.Tables(b), r, OfRec(ids, rec), OfFrame(ids, f), e) == OfAfter(ids, RunStep(b, r, rec, f, e))
  {
    hide RunStep, Ids.Injective, Ids.Tables, OfRec, OfFrame, Ids.KeepsOrder, OfAfter;
    if e.Lookup? {
      LookupInOrder(ids, b, r, rec, f, e.fault);
    } else {
      SameRunStep(ids, b, r, rec, f, e);
    }
  }

  /** Under ids that keep the order of the old ones, every step of the machine, of
      a run or a person, commutes with the renaming. */
  lemma SameStepInOrder(ids: Ids, s: State, e: Event)
    requires ids.Injective() && ids.KeepsOrder()
    ensures Step(OfState(ids, s), OfEvent(ids, e)) == OfState(ids, Step(s, e))
  {
    hide RunStep, HumanTx, ValidatedRequest, Ids.Injective, Ids.Tables, OfRec, OfFrame, Ids.KeepsOrder;
    match e
    case Receive(instruction, actor) =>
      if ValidatedRequest(instruction, actor).Some? {
        ReceivedAlike(ids, s, NewRun(instruction, ValidatedRequest(instruction, actor).value));
        NewRunHasNoIds(ids, instruction, ValidatedRequest(instruction, actor).value);
      }
    case On(r, event) =>
      if s.Has(r) {
        var after := RunStep(s.db.store, r, s.db.runs[r], s.frames[r], event);
        RunStepInOrder(ids, s.db.store, r, s.db.runs[r], s.frames[r], event);
        assert OfRecs(ids, s.db.runs[r := after.rec]) == OfRecs(ids, s.db.runs)[r := OfRec(ids, after.rec)];
        assert OfFrames(ids, s.frames[r := after.frame]) == OfFrames(ids, s.frames)[r := OfFrame(ids, after.frame)];
      }
    case Human(step) => SameHumanTx(ids, s.db.store, step);
  }

  lemma ReceivedAlike(ids: Ids, s: State, run: RunRec)
    ensures OfRecs(ids, s.db.runs + [run]) == OfRecs(ids, s.db.runs) + [OfRec(ids, run)]
    ensures OfFrames(ids, s.frames + [Idle]) == OfFrames(ids, s.frames) + [Idle]
  {
    hide OfRec;
  }

  predicate StateIn(events: seq<Event>, s: State) {
    StateAfter(events) == s
  }

  lemma {:induction false} SameHistory(ids: Ids, events: seq<Event>)
    requires ids.Injective() && ids.KeepsOrder()
    ensures StateAfter(OfEvents(ids, events)) == OfState(ids, StateAfter(events))
  {
    hide Step, Ids.Injective, Ids.KeepsOrder;
    if events == [] {
      assert ids.Tables(EMPTY_STORE) == EMPTY_STORE;
    } else {
      var last := |events| - 1;
      SameHistory(ids, events[..last]);
      assert OfEvents(ids, events)[..last] == OfEvents(ids, events[..last]);
      SameStepInOrder(ids, StateAfter(events[..last]), events[last]);
    }
  }

  /** A whole history under ids in the same order leaves exactly the renamed
      tables, runs and frames. */
  lemma HistoriesInOrder(ids: Ids, events: seq<Event>, s: State, t: State)
    requires ids.Injective() && ids.KeepsOrder()
    requires StateIn(events, s) && StateIn(OfEvents(ids, events), t)
    ensures t.db.store == ids.Tables(s.db.store)
    ensures t.db.runs == OfRecs(ids, s.db.runs)
    ensures t.frames == OfFrames(ids, s.frames)
  {
    hide StateAfter, Ids.Injective, Ids.Tables, Ids.KeepsOrder;
    SameHistory(ids, events);
  }

  // --- any ids: alike up to the order of candidates --------------------------------------------

  predicate OptionalReordered(d: Option<Detail>, same: Option<Detail>) {
    match (d, same)
    case (None, None) => true
    case (Some(detail), Some(other)) => Reordered(detail, other)
    case _ => false
  }

  /** The same rows, but for the order of an ambiguous outcome's candidates. */
  predicate RecReordered(rec: RunRec, same: RunRec) {
    && same == rec.(run := rec.run.(detail := same.run.detail))
    && OptionalReordered(rec.run.detail, same.run.detail)
  }

  predicate FrameReordered(f: Frame, same: Frame) {
    if f.Looked? then
      same.Looked? && match (f.found, same.found)
        case (Err(e), Err(other)) => other == e
        case (Ok(found), Ok(other)) => ResolutionReordered(found, other)
        case _ => false
    else same == f
  }

  predicate RecAlike(ids: Ids, rec: RunRec, same: RunRec) {
    RecReordered(OfRec(ids, rec), same)
  }

  predicate FrameAlike(ids: Ids, f: Frame, same: Frame) {
    FrameReordered(OfFrame(ids, f), same)
  }

  /** `t` is `s` under the other ids, up to that order. */
  ghost predicate Alike(ids: Ids, s: State, t: State)
    requires ids.Injective()
  {
    && t.db.store == ids.Tables(s.db.store)
    && |t.db.runs| == |s.db.runs| && |t.frames| == |s.frames|
    && (forall r | 0 <= r < |s.db.runs| :: RecAlike(ids, s.db.runs[r], t.db.runs[r]))
    && (forall r | 0 <= r < |s.frames| :: FrameAlike(ids, s.frames[r], t.frames[r]))
  }

  // No transaction reads a run's detail, so each treats rows that differ in that
  // order alike.

  lemma ReorderedExtract(rec: RunRec, same: RunRec, outcome: Intent)
    requires RecReordered(rec, same)
    ensures RecReordered(ExtractTx(rec, outcome), ExtractTx(same, outcome))
  {
    hide UngroundedFields;
  }

  lemma ReorderedResolve(rec: RunRec, same: RunRec, f: Frame, g: Frame)
    requires RecReordered(rec, same) && f.Looked? && FrameReordered(f, g)
    ensures RecReordered(ResolveTx(rec, f.found), ResolveTx(same, g.found))
  {
  }

  lemma ReorderedRecord(rec: RunRec, same: RunRec, stage: Stage, record: ModelRecord)
    requires RecReordered(rec, same)
    ensures RecReordered(RecordTx(rec, stage, record).0, RecordTx(same, stage, record).0)
    ensures RecordTx(same, stage, record).1 == RecordTx(rec, stage, record).1
  {
    hide ModelCallAccepted;
  }

  lemma ReorderedBeforeRequest(rec: RunRec, same: RunRec)
    requires RecReordered(rec, same)
    ensures RecReordered(BeforeRequestTx(rec).0, BeforeRequestTx(same).0)
    ensures BeforeRequestTx(same).1 == BeforeRequestTx(rec).1
  {
    hide CountStage;
  }

  lemma ReorderedBegin(rec: RunRec, same: RunRec)
    requires RecReordered(rec, same)
    ensures BeginDecideTx(same).Some? <==> BeginDecideTx(rec).Some?
    ensures BeginDecideTx(rec).Some? ==> RecReordered(BeginDecideTx(rec).value, BeginDecideTx(same).value)
  {
  }

  lemma ReorderedAdmit(b: Store, rec: RunRec, same: RunRec, tool: Tool)
    requires RecReordered(rec, same)
    ensures RecReordered(AdmitTx(b, rec, tool).0, AdmitTx(b, same, tool).0)
    ensures AdmitTx(b, same, tool).1 == AdmitTx(b, rec, tool).1
  {
    hide AnyStarted, CountCalls, ArgumentsOf, Evaluate;
  }

  lemma ReorderedReport(rec: RunRec, same: RunRec, f: Frame)
    requires RecReordered(rec, same) && f.Ran?
    ensures RecReordered(ReportTx(rec, f.call, f.tool, f.goal, f.outcome).0, ReportTx(same, f.call, f.tool, f.goal, f.outcome).0)
    ensures ReportTx(same, f.call, f.tool, f.goal, f.outcome).1 == ReportTx(rec, f.call, f.tool, f.goal, f.outcome).1
  {
    hide Observe;
  }

  lemma ReorderedConclude(rec: RunRec, same: RunRec, proposal: Proposal)
    requires RecReordered(rec, same)
    ensures ConcludeTx(same, proposal).Some? <==> ConcludeTx(rec, proposal).Some?
    ensures ConcludeTx(rec, proposal).Some? ==> RecReordered(ConcludeTx(rec, proposal).value, ConcludeTx(same, proposal).value)
  {
    hide AnyStarted;
  }

  lemma ReorderedFinish(rec: RunRec, same: RunRec, f: Frame)
    requires RecReordered(rec, same) && f.Checked?
    ensures RecReordered(FinishTx(rec, f.proposal, f.changed, f.rejection, f.rejected, f.checked),
                         FinishTx(same, f.proposal, f.changed, f.rejection, f.rejected, f.checked))
  {
    hide DecisionOutcome;
  }

  lemma ReorderedAbort(rec: RunRec, same: RunRec, why: Abort)
    requires RecReordered(rec, same)
    ensures RecReordered(AbortTx(rec, why), AbortTx(same, why))
  {
  }

  lemma ReorderedRunStep(b: Store, r: nat, rec: RunRec, f: Frame, same: RunRec, g: Frame, e: RunEvent)
    requires RecReordered(rec, same) && FrameReordered(f, g)
    ensures var (x, y) := (RunStep(b, r, rec, f, e), RunStep(b, r, same, g, e));
      y.store == x.store && RecReordered(x.rec, y.rec) && FrameReordered(x.frame, y.frame) && y.reply == x.reply
  {
    hide RecordTx, BeforeRequestTx, AdmitTx, BusinessTx, ReportTx, ConcludeTx, AbortTx, FinishTx, VerifyRead;
    hide ExtractTx, ResolveTx, BeginDecideTx, OptionalReordered, Resolve;
    hide AnyMutationSucceeded, BlockingRejection, RejectedCall;
    match e
    case Record(stage, record) => ReorderedRecord(rec, same, stage, record);
    case EndExtract(outcome) => ReorderedExtract(rec, same, outcome);
    case Lookup(_) => SameOrder(b, f);
    case EndResolve => if f.Looked? { ReorderedResolve(rec, same, f, g); }
    case BeginDecide => ReorderedBegin(rec, same);
    case Conclude(proposal) => if f.Deciding? { ReorderedConclude(rec, same, proposal); }
    case Finish => if f.Checked? { ReorderedFinish(rec, same, f); }
    case AbortDecision(why) => ReorderedAbort(rec, same, why);
    case BeforeRequest => ReorderedCall(b, r, rec, f, same, g, e);
    case Admit(_) => ReorderedCall(b, r, rec, f, same, g, e);
    case Report => ReorderedCall(b, r, rec, f, same, g, e);
    case _ =>
  }

  lemma ReorderedCall(b: Store, r: nat, rec: RunRec, f: Frame, same: RunRec, g: Frame, e: RunEvent)
    requires RecReordered(rec, same) && FrameReordered(f, g) && (e.BeforeRequest? || e.Admit? || e.Report?)
    ensures var (x, y) := (RunStep(b, r, rec, f, e), RunStep(b, r, same, g, e));
      y.store == x.store && RecReordered(x.rec, y.rec) && FrameReordered(x.frame, y.frame) && y.reply == x.reply
  {
    hide BeforeRequestTx, AdmitTx, ReportTx, OptionalReordered;
    match e
    case BeforeRequest => ReorderedBeforeRequest(rec, same);
    case Admit(tool) => ReorderedAdmit(b, rec, same, tool);
    case Report => if f.Ran? { ReorderedReport(rec, same, f); }
  }

  lemma SameOrder(b: Store, f: Frame)
    ensures f.Resolving? && Resolve(b, f.email, f.product).Ok? ==>
      ResolutionReordered(Resolve(b, f.email, f.product).value, Resolve(b, f.email, f.product).value)
  {
    hide Resolve;
  }

  /** On alike rows under the other ids, a run's step gives the same answer and
      leaves alike rows. */
  lemma AlikeRunStep(ids: Ids, b: Store, r: nat, rec: RunRec, f: Frame, same: RunRec, g: Frame, e: RunEvent)
    requires ids.Injective() && RecAlike(ids, rec, same) && FrameAlike(ids, f, g)
    ensures var (x, y) := (RunStep(b, r, rec, f, e), RunStep(ids.Tables(b), r, same, g, e));
      && y.store == ids.Tables(x.store) && RecAlike(ids, x.rec, y.rec) && FrameAlike(ids, x.frame, y.frame)
      && y.reply == x.reply
  {
    if e.Lookup? {
      AlikeLookup(ids, b, r, rec, f, same, g, e.fault);
    } else {
      hide RunStep, OfRec, OfFrame, RecReordered, FrameReordered, Ids.Tables, Ids.Injective;
      SameRunStep(ids, b, r, rec, f, e);
      ReorderedRunStep(ids.Tables(b), r, OfRec(ids, rec), OfFrame(ids, f), same, g, e);
    }
  }

  lemma AlikeLookup(ids: Ids, b: Store, r: nat, rec: RunRec, f: Frame, same: RunRec, g: Frame, fault: bool)
    requires ids.Injective() && RecAlike(ids, rec, same) && FrameAlike(ids, f, g)
    ensures var (x, y) := (RunStep(b, r, rec, f, Lookup(fault)), RunStep(ids.Tables(b), r, same, g, Lookup(fault)));
      && y.store == ids.Tables(x.store) && RecAlike(ids, x.rec, y.rec) && FrameAlike(ids, x.frame, y.frame)
      && y.reply == x.reply
  {
    hide Resolve, RecAlike, Ids.Tables, Ids.Injective, ResolutionReordered;
    if f.Resolving? {
      SameResolve(ids, b, f.email, f.product);
    }
  }

  /** Every step of the machine keeps two states alike, whatever the other ids are. */
  lemma AlikeStep(ids: Ids, s: State, t: State, e: Event)
    requires ids.Injective() && Alike(ids, s, t)
    ensures Alike(ids, Step(s, e), Step(t, OfEvent(ids, e)))
  {
    hide RunStep, HumanTx, ValidatedRequest, Ids.Injective, Ids.Tables, RecAlike, FrameAlike;
    match e
    case Receive(instruction, actor) =>
      if ValidatedRequest(instruction, actor).Some? {
        NewRunsAlike(ids, instruction, ValidatedRequest(instruction, actor).value);
      }
    case On(r, event) =>
      if s.Has(r) {
        AlikeRunStep(ids, s.db.store, r, s.db.runs[r], s.frames[r], t.db.runs[r], t.frames[r], event);
      }
    case Human(step) => SameHumanTx(ids, s.db.store, step);
  }

  lemma NewRunsAlike(ids: Ids, instruction: string, actor: string)
    ensures RecAlike(ids, NewRun(instruction, actor), NewRun(instruction, actor)) && FrameAlike(ids, Idle, Idle)
  {
  }

  lemma {:induction false} AlikeHistory(ids: Ids, events: seq<Event>)
    requires ids.Injective()
    ensures Alike(ids, StateAfter(events), StateAfter(OfEvents(ids, events)))
  {
    hide Step, Ids.Injective, RecAlike, FrameAlike;
    if events == [] {
      assert ids.Tables(EMPTY_STORE) == EMPTY_STORE;
    } else {
      var last := |events| - 1;
      AlikeHistory(ids, events[..last]);
      assert OfEvents(ids, events)[..last] == OfEvents(ids, events[..last]);
      AlikeStep(ids, StateAfter(events[..last]), StateAfter(OfEvents(ids, events[..last])), events[last]);
    }
  }

  /** A whole history under any other ids leaves exactly the renamed tables, and
      runs and frames that are alike. */
  lemma HistoriesIgnoreIds(ids: Ids, events: seq<Event>, s: State, t: State)
    requires ids.Injective() && StateIn(events, s) && StateIn(OfEvents(ids, events), t)
    ensures t.db.store == ids.Tables(s.db.store)
    ensures |t.db.runs| == |s.db.runs| && |t.frames| == |s.frames|
    ensures forall r | 0 <= r < |s.db.runs| :: RecAlike(ids, s.db.runs[r], t.db.runs[r])
    ensures forall r | 0 <= r < |s.frames| :: FrameAlike(ids, s.frames[r], t.frames[r])
  {
    hide StateAfter, Ids.Injective, Ids.Tables, RecAlike, FrameAlike;
    AlikeHistory(ids, events);
  }

  // --- a planner that is the same -----------------------------------------------------------------

  /** What a decision planner can do next. It has nothing to go by but the
      context it was given and the answers it has had. */
  datatype Choice =
    | Ask
    | Tell(record: ModelRecord)
    | Call(tool: Tool)
    | Propose(proposal: Proposal)
    | Abandon(why: Abort)
    | Stop

  type Planner = (Context, seq<Reply>) -> Choice

  function EventFor(c: Choice): RunEvent {
    match c
    case Ask => BeforeRequest
    case Tell(record) => Record(Decision, record)
    case Call(tool) => Admit(tool)
    case Propose(proposal) => Conclude(proposal)
    case Abandon(why) => AbortDecision(why)
    case Stop => StopDecision
  }

  /** What run `r`'s planner is answered while the events happen. */
  function Answers(s: State, r: nat, events: seq<Event>): seq<Reply>
    decreases |events|
  {
    if events == [] then []
    else AnswerTo(s, r, events[0]) + Answers(Step(s, events[0]), r, events[1..])
  }

  function AnswerTo(s: State, r: nat, e: Event): seq<Reply> {
    if e.On? && e.r == r && s.Has(r) then
      var reply := RunStep(s.db.store, r, s.db.runs[r], s.frames[r], e.e).reply;
      if reply.Silent? then [] else [reply]
    else []
  }

  /** The decision of run `r`, one choice of its planner at a time. After each
      choice the world goes on: the call's other transactions, their faults,
      people, other runs, a crash. */
  function Converse(s: State, r: nat, planner: Planner, seen: seq<Reply>, world: seq<seq<Event>>): (State, seq<Reply>)
    decreases |world|
  {
    if world == [] || !s.Has(r) || !s.frames[r].Deciding? || s.db.runs[r].run.context.None? then (s, seen)
    else
      var turn := [On(r, EventFor(planner(s.db.runs[r].run.context.value, seen)))] + world[0];
      Converse(Play(s, turn), r, planner, seen + Answers(s, r, turn), world[1..])
  }

  function OfWorld(ids: Ids, world: seq<seq<Event>>): (t: seq<seq<Event>>)
    ensures |t| == |world| && forall i | 0 <= i < |world| :: t[i] == OfEvents(ids, world[i])
  {
    seq(|world|, i requires 0 <= i < |world| => OfEvents(ids, world[i]))
  }

  lemma {:induction false} AlikePlay(ids: Ids, s: State, t: State, r: nat, events: seq<Event>)
    requires ids.Injective() && Alike(ids, s, t)
    ensures Alike(ids, Play(s, events), Play(t, OfEvents(ids, events)))
    ensures Answers(t, r, OfEvents(ids, events)) == Answers(s, r, events)
    decreases |events|
  {
    hide Step, Ids.Injective, Alike, AnswerTo;
    if events != [] {
      AlikeStep(ids, s, t, events[0]);
      AlikeAnswer(ids, s, t, r, events[0]);
      AlikePlay(ids, Step(s, events[0]), Step(t, OfEvent(ids, events[0])), r, events[1..]);
      assert OfEvents(ids, events)[1..] == OfEvents(ids, events[1..]);
    }
  }

  lemma AlikeAnswer(ids: Ids, s: State, t: State, r: nat, e: Event)
    requires ids.Injective() && Alike(ids, s, t)
    ensures AnswerTo(t, r, OfEvent(ids, e)) == AnswerTo(s, r, e)
  {
    hide RunStep, Ids.Injective, Ids.Tables, RecAlike, FrameAlike;
    if e.On? && e.r == r && s.Has(r) {
      AlikeRunStep(ids, s.db.store, r, s.db.runs[r], s.frames[r], t.db.runs[r], t.frames[r], e.e);
    }
  }

  /** Where the planner stands is the same in alike states. */
  lemma AlikeStands(ids: Ids, s: State, t: State, r: nat)
    requires ids.Injective() && Alike(ids, s, t)
    ensures t.Has(r) <==> s.Has(r)
    ensures s.Has(r) ==> (t.frames[r].Deciding? <==> s.frames[r].Deciding?) && t.db.runs[r].run.context == s.db.runs[r].run.context
  {
    hide Ids.Injective, Ids.Tables;
    if s.Has(r) {
      assert RecAlike(ids, s.db.runs[r], t.db.runs[r]) && FrameAlike(ids, s.frames[r], t.frames[r]);
    }
  }

  lemma {:induction false} AlikeConverse(
    ids: Ids, s: State, t: State, r: nat, planner: Planner, seen: seq<Reply>, world: seq<seq<Event>>)
    requires ids.Injective() && Alike(ids, s, t)
    ensures var (x, y) := (Converse(s, r, planner, seen, world), Converse(t, r, planner, seen, OfWorld(ids, world)));
      y.1 == x.1 && Alike(ids, x.0, y.0)
    decreases |world|
  {
    hide Play, Answers, Ids.Injective, Alike;
    AlikeStands(ids, s, t, r);
    if !(world == [] || !s.Has(r) || !s.frames[r].Deciding? || s.db.runs[r].run.context.None?) {
      var turn := [On(r, EventFor(planner(s.db.runs[r].run.context.value, seen)))] + world[0];
      assert OfEvents(ids, turn) == [turn[0]] + OfEvents(ids, world[0]);
      AlikePlay(ids, s, t, r, turn);
      AlikeConverse(ids, Play(s, turn), Play(t, OfEvents(ids, turn)), r, planner, seen + Answers(s, r, turn), world[1..]);
      assert OfWorld(ids, world)[1..] == OfWorld(ids, world[1..]);
    }
  }

  /** The decision gives the planner these answers, and leaves this state. */
  predicate Leads(
    s: State, r: nat, planner: Planner, seen: seq<Reply>, world: seq<seq<Event>>, answers: seq<Reply>, after: State)
  {
    Converse(s, r, planner, seen, world) == (after, answers)
  }

  /** Ids do not influence a decision. In two states alike under any injective
      renaming of user and licence ids, the same planner is given the same
      answers throughout, every observation text included, and the states it
      leaves are alike. */
  lemma DecisionsIgnoreIds(
    ids: Ids, s: State, t: State, r: nat, planner: Planner, world: seq<seq<Event>>,
    answers: seq<Reply>, after: State, otherAnswers: seq<Reply>, otherAfter: State)
    requires ids.Injective() && Alike(ids, s, t)
    requires Leads(s, r, planner, [], world, answers, after)
    requires Leads(t, r, planner, [], OfWorld(ids, world), otherAnswers, otherAfter)
    ensures otherAnswers == answers
    ensures Alike(ids, after, otherAfter)
  {
    hide Converse, Ids.Injective, Alike;
    AlikeConverse(ids, s, t, r, planner, [], world);
  }

  /** The renamed state itself is alike, to begin with. */
  lemma RenamedIsAlike(ids: Ids, s: State)
    requires ids.Injective()
    ensures Alike(ids, s, OfState(ids, s))
  {
    hide Ids.Injective, Ids.Tables, OfCalls;
    forall r | 0 <= r < |s.db.runs| ensures RecAlike(ids, s.db.runs[r], OfRec(ids, s.db.runs[r])) {
      if s.db.runs[r].run.detail.Some? {
        assert Reordered(ids.OfDetail(s.db.runs[r].run.detail.value), ids.OfDetail(s.db.runs[r].run.detail.value));
      }
    }
  }

  /** So a run decided under other ids ends the same, for the same reason, with
      the same proposal, and with the same calls, policies and observations. */
  lemma DecidedAlike(
    ids: Ids, s: State, t: State, r: nat, planner: Planner, world: seq<seq<Event>>,
    answers: seq<Reply>, after: State, otherAnswers: seq<Reply>, otherAfter: State)
    requires ids.Injective() && Alike(ids, s, t)
    requires Leads(s, r, planner, [], world, answers, after)
    requires Leads(t, r, planner, [], OfWorld(ids, world), otherAnswers, otherAfter)
    requires after.Has(r)
    ensures otherAfter.Has(r)
    ensures var (run, same) := (after.db.runs[r].run, otherAfter.db.runs[r].run);
      && same.status == run.status && same.reason == run.reason && same.completed == run.completed
      && same.proposal == run.proposal && same.claim == run.claim && same.context == run.context
      && same.lastSeq == run.lastSeq && otherAfter.db.runs[r].models == after.db.runs[r].models
    ensures var (calls, same) := (after.db.runs[r].calls, otherAfter.db.runs[r].calls);
      |same| == |calls| && forall i | 0 <= i < |calls| ::
        && same[i].tool == calls[i].tool && same[i].status == calls[i].status && same[i].seqNo == calls[i].seqNo
        && same[i].policy == calls[i].policy && same[i].error == calls[i].error
        && same[i].observation == calls[i].observation
  {
    hide Converse, Ids.Injective, Ids.Tables, FrameAlike;
    AlikeConverse(ids, s, t, r, planner, [], world);
    assert RecAlike(ids, after.db.runs[r], otherAfter.db.runs[r]);
  }
}
