/** What the executor answers a planner's request or tool call, exactly: when a
    request is granted and a call admitted, what a call's transaction meets, and
    what the model is shown of it. */
module Calls {
  import opened Basics
  import opened Text
  import opened Domain
  import opened AgentRows
  import opened SqlChecks
  import opened Services
  import opened Resolution
  import opened Tools
  import opened Machine
  import opened Invariant
  import opened Guarantees
  import opened Control
  import opened Schedules

  // --- what stands in the trace ---------------------------------------------------------

  function MutationsIn(calls: seq<ToolCall>): set<nat> {
    set i: nat | i < |calls| && calls[i].tool == AssignSeat
  }

  function ReadsIn(calls: seq<ToolCall>): set<nat> {
    set i: nat | i < |calls| && calls[i].tool in {GetUser, GetCapacity, ListAssignments}
  }

  function RequestsIn(models: seq<ModelCall>): set<nat> {
    set i: nat | i < |models| && models[i].stage == Decision
  }

  lemma OneMoreMutation(calls: seq<ToolCall>, c: ToolCall)
    ensures |MutationsIn(calls + [c])| == |MutationsIn(calls)| + if c.tool == AssignSeat then 1 else 0
  {
    var (before, after) := (MutationsIn(calls), MutationsIn(calls + [c]));
    if c.tool == AssignSeat {
      assert after == before + {|calls|};
    } else {
      assert after == before;
    }
  }

  lemma OneMoreRead(calls: seq<ToolCall>, c: ToolCall)
    ensures |ReadsIn(calls + [c])| == |ReadsIn(calls)| + if c.tool == AssignSeat then 0 else 1
  {
    var (before, after) := (ReadsIn(calls), ReadsIn(calls + [c]));
    if c.tool == AssignSeat {
      assert after == before;
    } else {
      assert after == before + {|calls|};
    }
  }

  /** The counts that the limits are tested with are the sizes of these sets. */
  lemma {:induction false} CountIsSize(calls: seq<ToolCall>)
    ensures CountCalls(calls, true) == |MutationsIn(calls)| && CountCalls(calls, false) == |ReadsIn(calls)|
  {
    if calls == [] {
      assert MutationsIn(calls) == {} && ReadsIn(calls) == {};
    } else {
      hide MutationsIn, ReadsIn;
      var before, c := calls[..|calls| - 1], calls[|calls| - 1];
      assert calls == before + [c];
      CountIsSize(before);
      OneMoreMutation(before, c);
      OneMoreRead(before, c);
    }
  }

  lemma {:induction false} RequestCountIsSize(models: seq<ModelCall>)
    ensures CountStage(models, Decision) == |RequestsIn(models)|
  {
    if models != [] {
      var last: nat := |models| - 1;
      var before := models[..last];
      RequestCountIsSize(before);
      assert RequestsIn(models) == RequestsIn(before) + if models[last].stage == Decision then {last} else {};
    }
  }

  // --- model requests -------------------------------------------------------------------

  /** A request is granted exactly while fewer than six decision requests are
      recorded, and granting writes nothing. The check before a further one ends
      the run, or raises if it has ended. */
  lemma RequestIsGrantedBelowSix(b: Store, r: nat, rec: RunRec, f: Frame)
    requires MayCallBack(rec.run, f)
    ensures var x := RunStep(b, r, rec, f, BeforeRequest);
      var below := |RequestsIn(rec.models)| < 6;
      && x.store == b && x.frame == f && x.rec.calls == rec.calls && x.rec.models == rec.models
      && (x.reply == Granted <==> below)
      && (x.reply == Refused <==> !below && rec.run.completed)
      && (x.reply == Stopped <==> !below && !rec.run.completed)
      && (x.reply == Stopped <==> x.rec.run != rec.run)
      && (x.reply == Stopped ==>
            && x.rec.run.status == RunStatus.Failed && x.rec.run.completed && x.rec.run.reason == Some(StepLimit)
            && x.rec.run.detail == Some(LimitDetail(ModelRequests, 6)))
  {
    hide CountStage, RequestsIn;
    RequestCountIsSize(rec.models);
  }

  /** A request is recorded exactly if its record is well formed: at the end,
      under the run's next number, as given. Otherwise nothing is written. */
  lemma RecordIsStoredAsGiven(b: Store, r: nat, rec: RunRec, f: Frame, stage: Stage, record: ModelRecord)
    requires HasRecorder(rec.run, stage) && rec.run.lastSeq >= 0
    ensures var x := RunStep(b, r, rec, f, Record(stage, record));
      && x.store == b && x.frame == f && x.rec.calls == rec.calls
      && (x.reply == Recorded <==> WellFormedRecord(record))
      && (x.reply == Raised <==> !WellFormedRecord(record))
      && (x.reply == Raised ==> x.rec == rec)
      && (x.reply == Recorded ==>
            && |x.rec.models| == |rec.models| + 1 && x.rec.models[..|rec.models|] == rec.models
            && x.rec.run == rec.run.(lastSeq := rec.run.lastSeq + 1)
            && var m := x.rec.models[|rec.models|];
               && m.seqNo == rec.run.lastSeq + 1 && m.stage == stage && m.rec == record
               && (m.succeeded <==> record.error.None?))
  {
    hide ModelCallAccepted, WellFormedRecord;
    ModelCallAcceptedIffWellFormed(ModelCall(rec.run.lastSeq + 1, stage, record.error.None?, record));
  }

  // --- admission ------------------------------------------------------------------------

  /** Six reads, or one mutation, already stand in the trace. */
  predicate AtLimit(calls: seq<ToolCall>, tool: Tool) {
    if tool == AssignSeat then |MutationsIn(calls)| >= 1 else |ReadsIn(calls)| >= 6
  }

  /** The step adds this call, under the run's next number, on the goal's ids. */
  predicate AddsCall(rec: RunRec, tool: Tool, goal: Goal, x: After) {
    var n := |rec.calls|;
    && |x.rec.calls| == n + 1 && x.rec.calls[..n] == rec.calls && x.rec.models == rec.models
    && x.rec.run.lastSeq == rec.run.lastSeq + 1
    && var c := x.rec.calls[n];
       && c.tool == tool && c.seqNo == rec.run.lastSeq + 1 && c.result.None? && c.observation.None?
       && c.args.userId == (if tool == GetCapacity then None else Some(goal.userId))
       && c.args.licenceId == (if tool == GetCapacity || tool == AssignSeat then Some(goal.licenceId) else None)
  }

  /** The call was recorded over the limit, and ended the run. */
  predicate WasRefused(c: ToolCall, tool: Tool, x: After) {
    && c.status == CallFailed && c.error == Some(ToolError(CodeStepLimit)) && c.policy.None? && c.completed
    && x.rec.run.status == RunStatus.Failed && x.rec.run.completed && x.rec.run.reason == Some(StepLimit)
    && x.rec.run.detail == Some(if tool == AssignSeat then LimitDetail(MutationCalls, 1) else LimitDetail(ReadCalls, 6))
    && x.reply == Stopped
  }

  predicate WasDenied(id: nat, c: ToolCall, x: After) {
    && c.status == CallFailed && c.error == Some(ToolError(CodePolicyDenied)) && c.policy == Some(Deny) && c.completed
    && x.rec.run.status == Blocked && x.rec.run.completed && x.rec.run.reason == Some(PolicyDenied)
    && x.rec.run.detail == Some(CallDetail(CallRef(id, c.seqNo, c.tool, c.error)))
    && x.reply == Stopped
  }

  predicate WasHeld(rec: RunRec, c: ToolCall, x: After) {
    && c.status == Held && c.error.None? && c.policy == Some(RequireApproval) && !c.completed
    && x.rec.run == rec.run.(status := AwaitingApproval, lastSeq := x.rec.run.lastSeq)
    && x.reply == Stopped
  }

  predicate WasStarted(rec: RunRec, id: nat, c: ToolCall, goal: Goal, f: Frame, x: After) {
    && c.status == Started && c.error.None? && !c.completed
    && c.policy == (if c.tool == AssignSeat then Some(Allow) else None)
    && x.rec.run == rec.run.(lastSeq := x.rec.run.lastSeq)
    && x.frame.Admitted? && x.frame.call == id && x.frame.tool == c.tool && x.frame.goal == goal
    && (x.frame.kept <==> f.Idle?)
  }

  /** What `AdmitTx` asks of a run, besides the limit and the policy. */
  predicate MayBeAsked(b: Store, rec: RunRec) {
    && rec.run.status == Executing && !rec.run.completed && NoneStarted(rec.calls)
    && PersistedGoal(rec.run).Some? && PersistedGoal(rec.run).value.licenceId in b.licences
  }

  lemma AtLimitIsRefused(b: Store, r: nat, rec: RunRec, f: Frame, tool: Tool)
    requires MayCallBack(rec.run, f) && MayBeAsked(b, rec) && AtLimit(rec.calls, tool)
    ensures var x := RunStep(b, r, rec, f, Admit(tool));
      && x.store == b && AddsCall(rec, tool, PersistedGoal(rec.run).value, x)
      && WasRefused(x.rec.calls[|rec.calls|], tool, x) && x.frame == f
  {
    hide CountCalls, MutationsIn, ReadsIn, PersistedGoal, Evaluate;
    CountIsSize(rec.calls);
  }

  lemma ReadIsStarted(b: Store, r: nat, rec: RunRec, f: Frame, tool: Tool)
    requires MayCallBack(rec.run, f) && MayBeAsked(b, rec) && !AtLimit(rec.calls, tool) && tool != AssignSeat
    ensures var x := RunStep(b, r, rec, f, Admit(tool));
      && x.store == b && AddsCall(rec, tool, PersistedGoal(rec.run).value, x)
      && WasStarted(rec, |rec.calls|, x.rec.calls[|rec.calls|], PersistedGoal(rec.run).value, f, x)
  {
    hide CountCalls, MutationsIn, ReadsIn, PersistedGoal;
    CountIsSize(rec.calls);
  }

  lemma MutationIsDecided(b: Store, r: nat, rec: RunRec, f: Frame)
    requires MayCallBack(rec.run, f) && MayBeAsked(b, rec) && !AtLimit(rec.calls, AssignSeat)
    ensures var (x, goal, n) := (RunStep(b, r, rec, f, Admit(AssignSeat)), PersistedGoal(rec.run).value, |rec.calls|);
      && x.store == b && AddsCall(rec, AssignSeat, goal, x)
      && match b.licences[goal.licenceId].policy
         case Allow => WasStarted(rec, n, x.rec.calls[n], goal, f, x)
         case Deny => WasDenied(n, x.rec.calls[n], x) && x.frame == f
         case RequireApproval => WasHeld(rec, x.rec.calls[n], x) && x.frame == f
  {
    hide CountCalls, MutationsIn, ReadsIn, PersistedGoal;
    CountIsSize(rec.calls);
  }

  lemma AdmissionStep(b: Store, r: nat, rec: RunRec, f: Frame, tool: Tool)
    requires MayCallBack(rec.run, f) && MayBeAsked(b, rec)
    ensures var (x, goal, n) := (RunStep(b, r, rec, f, Admit(tool)), PersistedGoal(rec.run).value, |rec.calls|);
      && x.store == b && AddsCall(rec, tool, goal, x)
      && var (c, policy, full) := (x.rec.calls[n], b.licences[goal.licenceId].policy, AtLimit(rec.calls, tool));
         && (WasRefused(c, tool, x) <==> full)
         && (WasStarted(rec, n, c, goal, f, x) <==> !full && (tool == AssignSeat ==> policy == Allow))
         && (WasDenied(n, c, x) <==> !full && tool == AssignSeat && policy == Deny)
         && (WasHeld(rec, c, x) <==> !full && tool == AssignSeat && policy == RequireApproval)
         && (WasStarted(rec, n, c, goal, f, x) || x.frame == f)
  {
    hide RunStep, AtLimit, PersistedGoal;
    if AtLimit(rec.calls, tool) {
      AtLimitIsRefused(b, r, rec, f, tool);
    } else if tool == AssignSeat {
      MutationIsDecided(b, r, rec, f);
    } else {
      ReadIsStarted(b, r, rec, f, tool);
    }
  }

  /** Admission, exactly. A run that executes and has no unfinished call admits a
      tool that stands in the trace fewer times than its own limit: six reads,
      one mutation. A read then starts; a mutation starts, is denied or is held
      as the licence's policy says. At the limit the call is refused and the run
      ended. Any other run refuses the call, and nothing is written. */
  lemma AdmissionIsExact(events: seq<Event>, r: nat, rec: RunRec, tool: Tool)
    requires RunIn(events, r, rec) && Known(events, r) && MayCallBack(rec.run, FrameOf(events, r))
    ensures var (b, f) := (StateAfter(events).db.store, FrameOf(events, r));
      var x := RunStep(b, r, rec, f, Admit(tool));
      && Known(events + [On(r, Admit(tool))], r)
      && RecOf(events + [On(r, Admit(tool))], r) == x.rec && FrameOf(events + [On(r, Admit(tool))], r) == x.frame
      && if rec.run.status == Executing && NoneStarted(rec.calls) then
           && PersistedGoal(rec.run).Some? && PersistedGoal(rec.run).value.licenceId in b.licences
           && var (goal, n) := (PersistedGoal(rec.run).value, |rec.calls|);
              var (policy, full) := (b.licences[goal.licenceId].policy, AtLimit(rec.calls, tool));
              && AddsCall(rec, tool, goal, x)
              && var c := x.rec.calls[n];
                 && (WasRefused(c, tool, x) <==> full)
                 && (WasStarted(rec, n, c, goal, f, x) <==> !full && (tool == AssignSeat ==> policy == Allow))
                 && (WasDenied(n, c, x) <==> !full && tool == AssignSeat && policy == Deny)
                 && (WasHeld(rec, c, x) <==> !full && tool == AssignSeat && policy == RequireApproval)
                 && (WasStarted(rec, n, c, goal, f, x) || x.frame == f)
         else x.rec == rec && x.frame == f && x.reply == Refused
  {
    hide StateAfter, RunInv, SoundStore, AtLimit, WasRefused, WasStarted, WasDenied, WasHeld, AddsCall, RunStep;
    RunInHasInv(events, r, rec);
    Extend(events, On(r, Admit(tool)));
    var (b, f) := (StateAfter(events).db.store, FrameOf(events, r));
    if rec.run.status == Executing && NoneStarted(rec.calls) {
      ExecutingHasGoal(b, r, rec, f);
      AdmissionStep(b, r, rec, f, tool);
    } else {
      RefusalStep(b, r, rec, f, tool);
    }
  }

  lemma RefusalStep(b: Store, r: nat, rec: RunRec, f: Frame, tool: Tool)
    requires MayCallBack(rec.run, f) && !(rec.run.status == Executing && NoneStarted(rec.calls))
    ensures var x := RunStep(b, r, rec, f, Admit(tool)); x.rec == rec && x.frame == f && x.reply == Refused
  {
  }

  // --- the call's business transaction ------------------------------------------------------

  /** The rows of a user, all of them and no other, as the listing returns them. */
  predicate ListsRowsOf(views: seq<AssignmentView>, rows: seq<Assignment>, u: int) {
    && (forall i | 0 <= i < |rows| && rows[i].userId == u :: ViewOf(i, rows[i]) in views)
    && (forall k | 0 <= k < |views| ::
          views[k].id < |rows| && rows[views[k].id].userId == u && views[k] == ViewOf(views[k].id, rows[views[k].id]))
    && (forall j, k | 0 <= j < k < |views| :: views[j].id < views[k].id)
  }

  /** A seat is free for the goal's user to take. */
  predicate MayTakeSeat(b: Store, goal: Goal) {
    && goal.userId in b.users && b.users[goal.userId].status == Active && goal.licenceId in b.licences
    && !HoldsSeat(b.assignments, goal.userId, goal.licenceId)
    && SeatsTaken(b.assignments, goal.licenceId) < b.licences[goal.licenceId].seatsTotal
  }

  lemma ListingIsComplete(rows: seq<Assignment>, u: int)
    ensures ListsRowsOf(ViewsOf(rows, RowsOfUser(rows, u)), rows, u)
  {
    var ids := RowsOfUser(rows, u);
    var views := ViewsOf(rows, ids);
    RowsOfUserIsComplete(rows, u);
    forall i | 0 <= i < |rows| && rows[i].userId == u ensures ViewOf(i, rows[i]) in views {
      assert i in ids;
      var k :| 0 <= k < |ids| && ids[k] == i;
      assert views[k] == ViewOf(i, rows[i]);
    }
    forall k | 0 <= k < |views| ensures rows[views[k].id].userId == u {
      assert ids[k] in ids;
    }
  }

  /** A read answers with what is stored, or that its row is missing, and writes
      nothing. */
  lemma ReadsAreExact(b: Store, r: nat, rec: RunRec, f: Frame)
    requires f.Admitted? && f.tool != AssignSeat && |AgentActor(r)| <= ACTOR_MAX_LENGTH
    ensures var x := RunStep(b, r, rec, f, Business(false));
      var (u, l) := (f.goal.userId, f.goal.licenceId);
      && x.store == b && x.rec == rec && x.frame.Ran?
      && x.frame == Ran(f.call, f.tool, f.goal, x.frame.outcome, f.kept)
      && match f.tool
         case GetUser =>
           x.frame.outcome == if u !in b.users then Err(ToolError(CodeUserNotFound))
                              else Ok(UserOutput(u, b.users[u].email, b.users[u].name, b.users[u].status))
         case GetCapacity =>
           if l !in b.licences then x.frame.outcome == Err(ToolError(CodeLicenceNotFound))
           else
             && x.frame.outcome.Ok? && x.frame.outcome.value.CapacityOutput?
             && var o := x.frame.outcome.value;
                && o.licenceId == l && o.product == b.licences[l].product && o.total == b.licences[l].seatsTotal
                && o.active == SeatsTaken(b.assignments, l)
                && o.available == if o.total >= o.active then o.total - o.active else 0
         case ListAssignments =>
           if u !in b.users then x.frame.outcome == Err(ToolError(CodeUserNotFound))
           else
             && x.frame.outcome.Ok? && x.frame.outcome.value.ListOutput? && x.frame.outcome.value.userId == u
             && ListsRowsOf(x.frame.outcome.value.rows, b.assignments, u)
         case AssignSeat => true
  {
    hide RowsOfUser, SeatsTaken, ListsRowsOf, AgentActor, ViewsOf;
    AgentRunActorIsItsName(r);
    ListingIsComplete(b.assignments, f.goal.userId);
  }

  /** The mutation takes the seat exactly if one may be taken, in one transaction
      with its event under the run's own name. Otherwise nothing is written, and
      the error is the first that applies. */
  lemma AssignmentIsExact(b: Store, r: nat, rec: RunRec, f: Frame)
    requires f.Admitted? && f.tool == AssignSeat && |AgentActor(r)| <= ACTOR_MAX_LENGTH
    ensures var x := RunStep(b, r, rec, f, Business(false));
      var (u, l, n) := (f.goal.userId, f.goal.licenceId, |b.assignments|);
      var active := u in b.users && b.users[u].status == Active;
      && x.rec == rec && x.frame.Ran? && x.frame == Ran(f.call, f.tool, f.goal, x.frame.outcome, f.kept)
      && var outcome := x.frame.outcome;
         && (outcome.Ok? <==> MayTakeSeat(b, f.goal))
         && (outcome.Ok? ==>
               && outcome.value == AssignedOutput(AssignmentView(n, u, l, true, None))
               && x.store.assignments == b.assignments + [Assignment(u, l, None)]
               && x.store.audit == b.audit + [AuditEvent(AgentActor(r), AssignmentCreate, n, None, Some(Assigned(u, l)))]
               && x.store.users == b.users && x.store.licences == b.licences)
         && (outcome.Err? ==> x.store == b)
         && (outcome == Err(ToolError(CodeUserNotFound)) <==> u !in b.users)
         && (outcome == Err(ToolError(CodeUserInactive)) <==> u in b.users && b.users[u].status == Inactive)
         && (outcome == Err(ToolError(CodeLicenceNotFound)) <==> active && l !in b.licences)
         && (outcome == Err(ToolError(CodeAlreadyExists)) <==>
               active && l in b.licences && HoldsSeat(b.assignments, u, l))
         && (outcome == Err(ToolError(CodeNoSeats)) <==>
               active && l in b.licences && !HoldsSeat(b.assignments, u, l)
               && SeatsTaken(b.assignments, l) >= b.licences[l].seatsTotal)
  {
    hide SeatsTaken, AgentActor, HoldsSeat;
    AgentRunActorIsItsName(r);
    if AgentRunActor(r).Ok? {
      ValidatedActorIdempotent(AgentActor(r));
    }
  }

  /** A fault of the database, or a run whose name the audit log cannot hold,
      writes nothing and is recorded as such. */
  lemma FaultsWriteNothing(b: Store, r: nat, rec: RunRec, f: Frame, fault: bool)
    requires f.Admitted? && (fault || |AgentActor(r)| > ACTOR_MAX_LENGTH)
    ensures var x := RunStep(b, r, rec, f, Business(fault));
      && x.store == b && x.rec == rec
      && x.frame == Ran(f.call, f.tool, f.goal, Err(ToolError(if fault then CodeUnexpected else CodeInvalidInput)), f.kept)
  {
    hide AgentActor;
    AgentRunActorIsItsName(r);
  }

  // --- what is recorded and shown of it --------------------------------------------------------

  /** The model is shown a mutation's rejection by one of three rules, and no other error. */
  predicate RejectionIsShown(tool: Tool, code: ErrorCode) {
    tool == AssignSeat && code in {CodeAlreadyExists, CodeNoSeats, CodeUserInactive}
  }

  /** What is shown of an outcome: a user's status, a licence's numbers, whether
      the user holds the seat, that it was assigned, or one of three rejections. */
  predicate ShownAs(tool: Tool, goal: Goal, outcome: Result<ToolOutput, ToolError>, seen: Option<Observation>) {
    match outcome
    case Ok(UserOutput(_, _, _, status)) => seen == Some(SawUser(status))
    case Ok(CapacityOutput(_, _, total, active, available)) => seen == Some(SawCapacity(total, active, available))
    case Ok(AssignedOutput(_)) => seen == Some(SawAssigned)
    case Ok(ListOutput(_, rows)) =>
      && seen.Some? && seen.value.SawSeat?
      && (seen.value.holds <==> exists k :: 0 <= k < |rows| && rows[k].active && rows[k].licenceId == goal.licenceId)
    case Err(e) =>
      && (seen.Some? <==> RejectionIsShown(tool, e.code))
      && (seen == Some(SawRejected(ShownAlreadyAssigned)) <==> tool == AssignSeat && e.code == CodeAlreadyExists)
      && (seen == Some(SawRejected(ShownNoSeats)) <==> tool == AssignSeat && e.code == CodeNoSeats)
      && (seen == Some(SawRejected(ShownInactive)) <==> tool == AssignSeat && e.code == CodeUserInactive)
  }

  lemma ObservationIsExact(tool: Tool, goal: Goal, outcome: Result<ToolOutput, ToolError>)
    ensures ShownAs(tool, goal, outcome, Observe(tool, goal, outcome))
  {
    if outcome.Ok? && outcome.value.ListOutput? {
      var rows := outcome.value.rows;
      if v :| v in rows && v.active && v.licenceId == goal.licenceId {
        var k :| 0 <= k < |rows| && rows[k] == v;
      }
    }
  }

  /** The outcome is recorded with its call, as it was, together with what the
      model is shown of it. If it is shown nothing, the run ends with the call
      and the planner is stopped. */
  lemma ReportIsExact(b: Store, r: nat, rec: RunRec, f: Frame)
    requires f.Ran? && InCall(rec, f.call, f.tool, f.goal) && !rec.run.completed
    ensures var x := RunStep(b, r, rec, f, Report);
      && x.store == b && x.frame == (if f.kept then Idle else Deciding) && x.rec.models == rec.models
      && |x.rec.calls| == |rec.calls| && (forall i | 0 <= i < f.call :: x.rec.calls[i] == rec.calls[i])
      && var (started, c) := (rec.calls[f.call], x.rec.calls[f.call]);
         && c.seqNo == started.seqNo && c.tool == started.tool && c.args == started.args && c.policy == started.policy
         && c.completed
         && (match f.outcome
             case Ok(o) => c.status == Succeeded && c.result == Some(o) && c.error == started.error
             case Err(e) => c.status == CallFailed && c.error == Some(e) && c.result == started.result)
         && ShownAs(f.tool, f.goal, f.outcome, c.observation)
         && (if c.observation.Some? then x.rec.run == rec.run && x.reply == Shown(c.observation.value)
             else
               && x.reply == Stopped && x.rec.run.status == RunStatus.Failed && x.rec.run.completed
               && x.rec.run.reason == Some(ToolFailed)
               && x.rec.run.detail == Some(CallDetail(CallRef(f.call, c.seqNo, c.tool, c.error))))
  {
    hide Observe, ShownAs, PersistedGoal;
    ObservationIsExact(f.tool, f.goal, f.outcome);
    ShownUnlessFailed(f.tool, f.goal, f.outcome);
  }

  lemma ShownUnlessFailed(tool: Tool, goal: Goal, outcome: Result<ToolOutput, ToolError>)
    ensures outcome.Ok? ==> Observe(tool, goal, outcome).Some?
  {
  }
}
