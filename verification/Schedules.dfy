/** The steps that each method of the executor makes, as a list, given what the
    planner, people and the database do meanwhile; and what those steps keep. */
module Schedules {
  import opened Basics
  import opened Text
  import opened Domain
  import opened AgentRows
  import opened SqlChecks
  import opened Services
  import opened Resolution
  import opened Tools
  import opened Machine
  import opened Invariant
  import opened Guarantees
  import opened Control
  import opened Databases

  // --- histories ----------------------------------------------------------------------

  lemma Extend(events: seq<Event>, e: Event)
    ensures StateAfter(events + [e]) == Step(StateAfter(events), e)
  {
    hide Step;
    assert (events + [e])[..|events|] == events;
  }

  /** The run's frame after a history, and what a step on it answers. */
  predicate Known(events: seq<Event>, r: nat) {
    StateAfter(events).Has(r)
  }

  function FrameOf(events: seq<Event>, r: nat): Frame
    requires Known(events, r)
  {
    StateAfter(events).frames[r]
  }

  function RecOf(events: seq<Event>, r: nat): RunRec
    requires Known(events, r)
  {
    StateAfter(events).db.runs[r]
  }

  function Answer(events: seq<Event>, r: nat, e: RunEvent): Reply
    requires Known(events, r)
  {
    RunStep(StateAfter(events).db.store, r, RecOf(events, r), FrameOf(events, r), e).reply
  }

  /** What the last of some steps answers, made after the others. */
  function LastAnswer(events: seq<Event>, r: nat, steps: seq<Event>): Reply
    requires steps != []
  {
    var (before, last) := (events + steps[..|steps| - 1], steps[|steps| - 1]);
    if Known(before, r) && last.On? then Answer(before, r, last.e) else Silent
  }

  /** A step on run `r`, as a change of the database, whose rows are acceptable. */
  lemma Advances(events: seq<Event>, r: nat, e: RunEvent, after: After)
    requires Known(events, r)
    requires after == RunStep(StateAfter(events).db.store, r, RecOf(events, r), FrameOf(events, r), e)
    ensures Known(events + [On(r, e)], r)
    ensures StateAfter(events + [On(r, e)]).db == Db(after.store, StateAfter(events).db.runs[r := after.rec])
    ensures FrameOf(events + [On(r, e)], r) == after.frame
    ensures RowsAccepted(after.store, after.rec)
  {
    hide RunStep, StateAfter, RunAccepted, CallAccepted, ModelCallAccepted;
    Extend(events, On(r, e));
    CommittedRowsAreAccepted(events + [On(r, e)], r, after.rec);
  }

  /** The steps of a call, by their transactions. */
  lemma CallSteps(b: Store, r: nat, rec: RunRec, f: Frame, tool: Tool)
    requires MayCallBack(rec.run, f)
    ensures var (after, admission) := AdmitTx(b, rec, tool);
      RunStep(b, r, rec, f, Admit(tool)) ==
        match admission
        case Started_(call, goal) => After(b, after, Admitted(call, tool, goal, f.Idle?), Silent)
        case Ended(reply) => After(b, after, f, reply)
  {
    hide AdmitTx;
  }

  /** What the executor relies on when it steps on a run. */
  lemma StandsOn(events: seq<Event>, r: nat)
    requires Known(events, r)
    ensures RunInv(StateAfter(events).db.store, r, RecOf(events, r), FrameOf(events, r))
  {
    hide StateAfter, RunInv;
    Reachable(events);
  }

  /** No call of the run is without an outcome. */
  predicate NoneStarted(calls: seq<ToolCall>) {
    forall i | 0 <= i < |calls| :: calls[i].status != Started
  }

  lemma ExecutingHasGoal(b: Store, r: nat, rec: RunRec, f: Frame)
    requires RunInv(b, r, rec, f) && rec.run.status == Executing
    ensures PersistedGoal(rec.run).Some? && !rec.run.completed
    ensures PersistedGoal(rec.run).value.licenceId in b.licences && PersistedGoal(rec.run).value.userId in b.users
  {
    hide TraceOk, BudgetOk, OneAttempt, AttributionOk, EventsOf, Grounded, CallsOk, EndingOk;
  }

  // --- what a call meets, and its steps ------------------------------------------------

  lemma AssignedRow(b: Store, goal: Goal, actor: string)
    ensures var r := AssignLicence(b, goal.userId, goal.licenceId, actor);
      r.Ok? ==> r.value.0 < |r.value.1.assignments|
  {
  }

  lemma InvHasFrame(b: Store, r: nat, rec: RunRec, f: Frame)
    requires RunInv(b, r, rec, f)
    ensures FrameOk(b, rec, f)
  {
  }

  /** What happens around the transactions of one call: people's steps, an error
      of the database, an exception that loses the call's outcome. */
  datatype Weather = Weather(
    before: seq<HumanStep>, fault: bool, after: seq<HumanStep>, lostBefore: bool, lostAfter: bool)

  function CallEvents(events: seq<Event>, r: nat, tool: Tool, w: Weather): (steps: seq<Event>)
    ensures steps != []
  {
    var admit := [On(r, Admit(tool))];
    if Known(events + admit, r) && FrameOf(events + admit, r).Admitted? then admit + AdmittedEvents(r, w) else admit
  }

  function AdmittedEvents(r: nat, w: Weather): (steps: seq<Event>)
    ensures steps != []
  {
    if w.lostBefore then [On(r, Interrupt)]
    else
      var ran := Humans(w.before) + [On(r, Business(w.fault))];
      if w.lostAfter then ran + [On(r, Interrupt)] else ran + Humans(w.after) + [On(r, Report)]
  }

  function FinishEvents(events: seq<Event>, r: nat, proposal: Proposal, w: Weather): seq<Event> {
    var conclude := [On(r, Conclude(proposal))];
    if Known(events + conclude, r) && FrameOf(events + conclude, r).Concluded?
    then conclude + Humans(w.before) + [On(r, VerifyNow(w.fault))] + Humans(w.after) + [On(r, Machine.Finish)]
    else conclude
  }

  /** What a planner may do with the executor, in any order. */
  datatype Move = AskLimit | Tell(record: ModelRecord) | Use(tool: Tool, w: Weather)

  /** How the planner's loop ends: a proposal, an exception, or DecisionStopped. */
  datatype Ending = Propose(proposal: Proposal, w: Weather) | Abandon(why: Abort) | LetThrough

  function MoveEvents(events: seq<Event>, r: nat, move: Move): (steps: seq<Event>)
    ensures steps != []
  {
    match move
    case AskLimit => [On(r, BeforeRequest)]
    case Tell(record) => [On(r, Record(Decision, record))]
    case Use(tool, w) => CallEvents(events, r, tool, w)
  }

  lemma LastOfOne(events: seq<Event>, r: nat, e: RunEvent)
    requires Known(events, r)
    ensures LastAnswer(events, r, [On(r, e)]) == Answer(events, r, e)
  {
    hide Known, Answer;
    assert [On(r, e)][..0] == [] && events + [] == events;
  }

  lemma LastOfBoth(events: seq<Event>, r: nat, first: seq<Event>, second: seq<Event>)
    requires second != []
    ensures LastAnswer(events, r, first + second) == LastAnswer(events + first, r, second)
  {
    hide Known, Answer;
    var both := first + second;
    assert both[..|both| - 1] == first + second[..|second| - 1];
    assert events + (first + second[..|second| - 1]) == events + first + second[..|second| - 1];
  }

  /** What the executor answers a move. */
  function MoveAnswer(events: seq<Event>, r: nat, move: Move): Reply {
    LastAnswer(events, r, MoveEvents(events, r, move))
  }

  function MovesEvents(events: seq<Event>, r: nat, moves: seq<Move>): seq<Event>
    decreases |moves|
  {
    if moves == [] then []
    else
      var first := MoveEvents(events, r, moves[0]);
      first + MovesEvents(events + first, r, moves[1..])
  }

  function EndingEvents(events: seq<Event>, r: nat, ending: Ending): seq<Event> {
    match ending
    case Propose(proposal, w) => FinishEvents(events, r, proposal, w)
    case Abandon(why) => [On(r, AbortDecision(why))]
    case LetThrough => [On(r, StopDecision)]
  }

  function DecideEvents(events: seq<Event>, r: nat, moves: seq<Move>, ending: Ending): seq<Event> {
    var begun := [On(r, BeginDecide)];
    if Known(events + begun, r) && FrameOf(events + begun, r).Deciding? then
      var acted := begun + MovesEvents(events + begun, r, moves);
      acted + EndingEvents(events + acted, r, ending)
    else begun
  }

  /** Everything outside the executor that a run meets. */
  datatype Script = Script(
    instruction: string, actor: string,
    records: seq<ModelRecord>, intent: Intent,
    before: seq<HumanStep>, lookupFault: bool, after: seq<HumanStep>,
    moves: seq<Move>, ending: Ending)

  predicate InStatus(events: seq<Event>, r: nat, status: RunStatus) {
    Known(events, r) && RecOf(events, r).run.status == status
  }

  function RunEvents(events: seq<Event>, script: Script): seq<Event> {
    var r := |StateAfter(events).db.runs|;
    var received := [Receive(script.instruction, script.actor)];
    if ValidatedRequest(script.instruction, script.actor).None? then received
    else
      var extracted := received + ExtractEvents(r, script.records, script.intent);
      if !InStatus(events + extracted, r, Received) then extracted
      else
        var resolved := extracted + ResolveEvents(r, script.lookupFault, script.before, script.after);
        if !InStatus(events + resolved, r, Resolved) then resolved
        else resolved + DecideEvents(events + resolved, r, script.moves, script.ending)
  }

  /** The history of a decision, from the history of its parts. */
  lemma DecisionSplits(start: seq<Event>, r: nat, moves: seq<Move>, ending: Ending)
    requires Known(start + [On(r, BeginDecide)], r) && FrameOf(start + [On(r, BeginDecide)], r).Deciding?
    ensures var begun := start + [On(r, BeginDecide)];
      var acted := begun + MovesEvents(begun, r, moves);
      acted + EndingEvents(acted, r, ending) == start + DecideEvents(start, r, moves, ending)
  {
    hide StateAfter, MovesEvents, EndingEvents;
    var begun := start + [On(r, BeginDecide)];
    assert start + ([On(r, BeginDecide)] + MovesEvents(begun, r, moves)) == begun + MovesEvents(begun, r, moves);
  }

  lemma VerifyingIsOpen(b: Store, r: nat, rec: RunRec, f: Frame)
    requires RunInv(b, r, rec, f) && f.Checked?
    ensures !rec.run.completed
  {
  }

  /** Extraction left a goal to resolve, or ended the run. */
  predicate ExtractionOver(run: AgentRun) {
    if run.status == Received then AwaitsResolution(run) else run.completed
  }

  /** The run has its goal's texts and waits for its ids. */
  predicate AwaitsResolution(run: AgentRun) {
    run.status == Received && run.email.Some? && run.product.Some?
  }

  /** The run has its goal's ids and waits for its decision stage. */
  predicate MayDecide(run: AgentRun) {
    run.status == Resolved && PersistedGoal(run).Some?
  }

  /** Resolution left a run to decide, or ended it. */
  predicate ResolutionOver(run: AgentRun) {
    if run.status == Resolved then MayDecide(run) else run.completed
  }

  lemma ExtractionSettles(b: Store, r: nat, rec: RunRec, outcome: Intent)
    requires RunInv(b, r, rec, Extracting)
    ensures ExtractionOver(ExtractTx(rec, outcome).run)
  {
  }

  lemma ResolutionSettles(b: Store, r: nat, rec: RunRec, found: Result<Resolution, string>)
    requires RunInv(b, r, rec, Looked(found))
    ensures ResolutionOver(ResolveTx(rec, found).run)
  {
  }

  function Records(r: nat, records: seq<ModelRecord>): (events: seq<Event>)
    ensures |events| == |records| && forall i | 0 <= i < |records| :: events[i] == On(r, Record(Extraction, records[i]))
  {
    seq(|records|, i requires 0 <= i < |records| => On(r, Record(Extraction, records[i])))
  }

  function ExtractEvents(r: nat, records: seq<ModelRecord>, outcome: Intent): seq<Event> {
    [On(r, BeginExtract)] + Records(r, records) + [On(r, EndExtract(outcome))]
  }

  lemma ExtractSplits(start: seq<Event>, r: nat, records: seq<ModelRecord>, outcome: Intent)
    ensures start + [On(r, BeginExtract)] + Records(r, records) + [On(r, EndExtract(outcome))]
         == start + ExtractEvents(r, records, outcome)
  {
  }

  function ResolveEvents(r: nat, fault: bool, before: seq<HumanStep>, after: seq<HumanStep>): seq<Event> {
    [On(r, BeginResolve)] + Humans(before) + [On(r, Lookup(fault))] + Humans(after) + [On(r, EndResolve)]
  }

  lemma ResolveSplits(start: seq<Event>, r: nat, fault: bool, before: seq<HumanStep>, after: seq<HumanStep>)
    ensures start + [On(r, BeginResolve)] + Humans(before) + [On(r, Lookup(fault))] + Humans(after) + [On(r, EndResolve)]
         == start + ResolveEvents(r, fault, before, after)
  {
  }

  lemma NewRunAwaits(rec: RunRec)
    ensures forall instruction, actor :: rec == NewRun(instruction, actor) ==> AwaitingExtraction(rec.run)
  {
  }

  lemma ExtractSteps(b: Store, r: nat, rec: RunRec, outcome: Intent)
    ensures RunStep(b, r, rec, Extracting, EndExtract(outcome)) == After(b, ExtractTx(rec, outcome), Idle, Silent)
  {
    hide ExtractTx;
  }

  lemma AbortStep(b: Store, r: nat, rec: RunRec, why: Abort)
    ensures RunStep(b, r, rec, Deciding, AbortDecision(why)) == After(b, AbortTx(rec, why), Idle, Silent)
  {
    hide AbortTx;
  }

  lemma AbortHalts(b: Store, r: nat, rec: RunRec, why: Abort)
    requires RunInv(b, r, rec, Deciding)
    ensures Halted(AbortTx(rec, why).run)
  {
  }

  lemma RecordNeverStops(events: seq<Event>, r: nat, record: ModelRecord)
    requires Known(events, r)
    ensures Answer(events, r, Record(Decision, record)) != Stopped
  {
    hide StateAfter, ModelCallAccepted;
  }

  /** A run in its decision stage has a recorder for it. */
  lemma DecidingHasRecorder(events: seq<Event>, r: nat)
    requires Known(events, r) && FrameOf(events, r).Deciding?
    ensures HasRecorder(RecOf(events, r).run, Decision)
  {
    hide StateAfter;
    StandsOn(events, r);
  }

  lemma EndedIsHalted(run: AgentRun)
    ensures run.completed ==> Halted(run)
  {
  }

  lemma LeavesDecision(events: seq<Event>, r: nat)
    requires Known(events, r) && FrameOf(events, r).Deciding?
    ensures Known(events + [On(r, StopDecision)], r)
    ensures StateAfter(events + [On(r, StopDecision)]).db == StateAfter(events).db
  {
    hide StateAfter, RowsAccepted;
    Advances(events, r, StopDecision, RunStep(StateAfter(events).db.store, r, RecOf(events, r), Deciding, StopDecision));
  }

  /** Once a run has ended or is paused, it stays ended or paused. */
  lemma {:induction false} HaltedStays(events: seq<Event>, more: seq<Event>, r: nat)
    requires Known(events, r) && Halted(RecOf(events, r).run)
    ensures Known(events + more, r) && Halted(RecOf(events + more, r).run)
  {
    hide StateAfter, Step, SoundStore, RunInv;
    if more == [] {
      assert events + more == events;
    } else {
      var before := more[..|more| - 1];
      HaltedStays(events, before, r);
      assert events + more == (events + before) + [more[|more| - 1]];
      Extend(events + before, more[|more| - 1]);
      Reachable(events + before);
      Reachable(events + more);
      HaltedStep(StateAfter(events + before), more[|more| - 1], r);
    }
  }

  lemma HaltedStep(s: State, e: Event, r: nat)
    requires StateInv(s) && StateInv(Step(s, e)) && s.Has(r) && Halted(s.db.runs[r].run)
    ensures Step(s, e).Has(r) && Halted(Step(s, e).db.runs[r].run)
  {
    hide Step, SoundStore, TraceExtends, IdentityKept, EventsOf, TraceOk, BudgetOk, Grounded, CallsOk;
    StepEvolves(s, e, r);
    assert RunInv(Step(s, e).db.store, r, Step(s, e).db.runs[r], Step(s, e).frames[r]);
  }

  function Humans(steps: seq<HumanStep>): (events: seq<Event>)
    ensures |events| == |steps| && forall i | 0 <= i < |steps| :: events[i] == Human(steps[i])
  {
    seq(|steps|, i requires 0 <= i < |steps| => Human(steps[i]))
  }

  /** People change neither a run's rows nor the executor's frame on it. */
  lemma {:induction false} PeopleKeep(events: seq<Event>, steps: seq<HumanStep>, r: nat)
    requires Known(events, r)
    ensures Known(events + Humans(steps), r)
    ensures RecOf(events + Humans(steps), r) == RecOf(events, r) && FrameOf(events + Humans(steps), r) == FrameOf(events, r)
  {
    hide StateAfter, HumanTx, RunStep;
    if steps == [] {
      assert events + Humans(steps) == events;
    } else {
      var last := |steps| - 1;
      PeopleKeep(events, steps[..last], r);
      assert events + Humans(steps) == events + Humans(steps[..last]) + [Human(steps[last])];
      Extend(events + Humans(steps[..last]), Human(steps[last]));
    }
  }
}
