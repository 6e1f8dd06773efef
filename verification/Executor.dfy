/** The executor itself, changing the database in place, one transaction at a
    time. Each method is proved to make exactly the machine's steps, so that
    every guarantee of the machine is one of this code. */
module Executor {
  import opened Basics
  import opened Text
  import opened Domain
  import opened AgentRows
  import opened SqlChecks
  import opened Services
  import opened Resolution
  import opened Tools
  import opened Machine
  import opened Invariant
  import opened Guarantees
  import opened Control
  import opened Databases
  import opened Schedules

  class AgentExecutor {
    const db: Database
    ghost var history: seq<Event>

    /** No transaction is open, and the committed database is what the history left. */
    ghost predicate Valid()
      reads this, db
    {
      !db.open && db.committed == StateAfter(history).db
    }

    constructor ()
      ensures Valid() && fresh(db) && history == []
    {
      db := new Database(Db(EMPTY_STORE, []));
      history := [];
    }

    /** The state before this step, and the row it steps on. */
    ghost function Before(): State
      reads this
    {
      StateAfter(history)
    }

    // --- people ---------------------------------------------------------------------------

    /** A person's request or edit, in a transaction of its own. */
    method Person(step: HumanStep)
      requires Valid()
      modifies this, db
      ensures Valid() && history == old(history) + [Human(step)]
    {
      hide RunStep, StateAfter, AssignLicence, RevokeAssignment, CreateUser, CreateLicence;
      Extend(history, Human(step));
      history := history + [Human(step)];
      if ReservedRequest(step) {
        return;
      }
      db.Begin();
      match step {
        case HumanAssign(u, l, actor) =>
          var service := new AssignmentService(db.work.store);
          var _ := service.Assign(u, l, actor);
          db.work := db.work.(store := service.State());
        case HumanRevoke(id, now, actor) =>
          var service := new AssignmentService(db.work.store);
          var _ := service.Revoke(id, now, actor);
          db.work := db.work.(store := service.State());
        case HumanCreateUser(id, email, name, actor) =>
          if id !in db.work.store.users {
            var service := new UserService(db.work.store);
            var _ := service.Create(id, email, name, actor);
            db.work := db.work.(store := service.State());
          }
        case HumanCreateLicence(id, product, seats, policy, actor) =>
          if id !in db.work.store.licences {
            var service := new LicenceService(db.work.store);
            var _ := service.Create(id, product, seats, policy, actor);
            db.work := db.work.(store := service.State());
          }
        case _ =>
          db.work := db.work.(store := HumanTx(db.work.store, step));
      }
      db.CommitBusiness(false);
    }

    method People(steps: seq<HumanStep>)
      requires Valid()
      modifies this, db
      ensures Valid() && history == old(history) + Humans(steps)
    {
      hide StateAfter;
      for i := 0 to |steps|
        invariant Valid() && history == old(history) + Humans(steps[..i])
      {
        Person(steps[i]);
        assert Humans(steps[..i + 1]) == Humans(steps[..i]) + [Human(steps[i])];
      }
      assert steps[..|steps|] == steps;
    }

    // --- receive and extract -----------------------------------------------------------------

    method ReceiveRun(instruction: string, actor: string) returns (id: Option<nat>)
      requires Valid()
      modifies this, db
      ensures Valid() && history == old(history) + [Receive(instruction, actor)]
      ensures id.None? <==> ValidatedRequest(instruction, actor).None?
      ensures id.None? ==> db.committed == old(db.committed)
      ensures id.Some? ==> id.value == |old(db.committed).runs| && Known(history, id.value) && FrameOf(history, id.value).Idle?
                           && db.committed.runs == old(db.committed).runs
                              + [NewRun(instruction, ValidatedRequest(instruction, actor).value)]
    {
      hide RunStep, StateAfter, RunInv, SoundStore, ValidatedRequest;
      Reachable(history);
      Extend(history, Receive(instruction, actor));
      Reachable(history + [Receive(instruction, actor)]);
      var name := ValidatedRequest(instruction, actor);
      if name.None? {
        history := history + [Receive(instruction, actor)];
        return None;
      }
      db.Begin();
      var r := |db.work.runs|;
      db.work := db.work.(runs := db.work.runs + [NewRun(instruction, name.value)]);
      history := history + [Receive(instruction, actor)];
      CommittedRowsAreAccepted(history, r, db.work.runs[r]);
      db.CommitLog(r);
      return Some(r);
    }

    /** The check of `extract_intent` before the planner is called. */
    method BeginExtraction(r: nat) returns (ok: bool)
      requires Valid() && Known(history, r) && FrameOf(history, r).Idle?
      modifies this, db
      ensures Valid() && history == old(history) + [On(r, BeginExtract)] && Known(history, r)
      ensures db.committed == old(db.committed)
      ensures ok <==> FrameOf(history, r).Extracting?
      ensures ok <==> AwaitingExtraction(RecOf(old(history), r).run)
      ensures !ok ==> FrameOf(history, r).Idle?
    {
      hide StateAfter;
      Advances(history, r, BeginExtract, RunStep(StateAfter(history).db.store, r, RecOf(history, r), Idle, BeginExtract));
      db.Begin();
      ok := AwaitingExtraction(db.work.runs[r].run);
      db.Rollback();
      history := history + [On(r, BeginExtract)];
    }

    /** One model request of a planner, recorded in its own transaction. A planner
        that kept its recorder may call it wherever the run then stands. */
    method RecordCall(r: nat, stage: Stage, record: ModelRecord) returns (reply: Reply)
      requires Valid() && Known(history, r) && HasRecorder(RecOf(history, r).run, stage)
      modifies this, db
      ensures Valid() && history == old(history) + [On(r, Record(stage, record))] && Known(history, r)
      ensures reply == Answer(old(history), r, Record(stage, record))
      ensures FrameOf(history, r) == FrameOf(old(history), r)
    {
      hide StateAfter, ModelCallAccepted, RowsAccepted;
      ghost var after := RunStep(StateAfter(history).db.store, r, RecOf(history, r), FrameOf(history, r), Record(stage, record));
      Advances(history, r, Record(stage, record), after);
      db.Begin();
      var seqNo := db.NextSequenceNo(r);
      var call := ModelCall(seqNo, stage, record.error.None?, record);
      if ModelCallAccepted(call) {
        db.AddModelCall(r, call);
        assert db.work.runs[r] == after.rec;
        db.CommitLog(r);
        reply := Recorded;
      } else {
        db.Rollback();
        reply := Raised;
      }
      history := history + [On(r, Record(stage, record))];
    }

    /** The last transaction of `extract_intent`: the goal, or the run's end. */
    method EndExtraction(r: nat, outcome: Intent)
      requires Valid() && Known(history, r) && FrameOf(history, r).Extracting?
      modifies this, db
      ensures Valid() && history == old(history) + [On(r, EndExtract(outcome))] && Known(history, r)
      ensures FrameOf(history, r).Idle?
      ensures ExtractionOver(RecOf(history, r).run)
    {
      hide StateAfter, RowsAccepted, RunInv, SoundStore, RunStep;
      hide ExtractionOver, Grounded, UngroundedFields, AwaitingExtraction;
      ExtractionSettles(Before().db.store, r, RecOf(history, r), outcome) by { StandsOn(history, r); }
      ghost var after := RunStep(StateAfter(history).db.store, r, RecOf(history, r), FrameOf(history, r), EndExtract(outcome));
      Advances(history, r, EndExtract(outcome), after);
      ExtractSteps(Before().db.store, r, RecOf(history, r), outcome);
      db.Begin();
      var run := db.work.runs[r].run;
      if !outcome.Throwing? && !AwaitingExtraction(run) {
        db.Rollback();
        history := history + [On(r, EndExtract(outcome))];
        return;
      }
      match outcome {
        case Throwing(thrown) =>
          var _ := db.EndRun(r, RunStatus.Failed, UnexpectedFailure, UnexpectedDetail("extraction", thrown));
        case Ensure(email, product) =>
          var missing := UngroundedFields(email, product, run.instruction);
          if missing != [] {
            var _ := db.EndRun(r, RunStatus.Failed, PlannerFailed, PlannerDetail(Extraction, "ungrounded_output", None, missing));
          } else {
            db.PutRun(r, run.(goalType := Some(EnsureAssignment), desiredState := Some(DesiredAssigned),
                              email := Some(email), product := Some(product)));
          }
        case Unclear(code) => var _ := db.EndRun(r, NeedsClarification, InstructionUnclear, CodeDetail(code));
        case Unsupported(code) => var _ := db.EndRun(r, NeedsClarification, UnsupportedRequest, CodeDetail(code));
        case Failing(code, errorType) =>
          var _ := db.EndRun(r, RunStatus.Failed, PlannerFailed, PlannerDetail(Extraction, code, errorType, []));
      }
      assert db.work.runs[r] == after.rec;
      db.CommitLog(r);
      history := history + [On(r, EndExtract(outcome))];
    }

    /** The requests an extraction planner makes, each recorded. */
    method RecordAll(r: nat, records: seq<ModelRecord>)
      requires Valid() && Known(history, r) && FrameOf(history, r).Extracting?
      modifies this, db
      ensures Valid() && Known(history, r) && FrameOf(history, r).Extracting?
      ensures history == old(history) + Records(r, records)
    {
      hide StateAfter, RunStep, Answer;
      for i := 0 to |records|
        invariant Valid() && Known(history, r) && FrameOf(history, r).Extracting?
        invariant history == old(history) + Records(r, records[..i])
      {
        var _ := RecordCall(r, Extraction, records[i]);
        assert Records(r, records[..i + 1]) == Records(r, records[..i]) + [On(r, Record(Extraction, records[i]))];
      }
      assert records[..|records|] == records;
    }

    /** `extract_intent`, for whatever requests the planner makes and however it
        ends; false if the run does not await extraction. */
    method ExtractIntent(r: nat, records: seq<ModelRecord>, outcome: Intent) returns (ok: bool)
      requires Valid() && Known(history, r) && FrameOf(history, r).Idle?
      modifies this, db
      ensures Valid() && Known(history, r) && FrameOf(history, r).Idle?
      ensures ok <==> AwaitingExtraction(RecOf(old(history), r).run)
      ensures history == old(history) + if ok then ExtractEvents(r, records, outcome) else [On(r, BeginExtract)]
      ensures ok ==> ExtractionOver(RecOf(history, r).run)
    {
      hide StateAfter, RunStep, Answer, ExtractionOver, AwaitingExtraction, Records, ExtractEvents;
      ExtractSplits(history, r, records, outcome);
      ok := BeginExtraction(r);
      if ok {
        RecordAll(r, records);
        EndExtraction(r, outcome);
      }
    }

    // --- resolve ----------------------------------------------------------------------------------

    /** The resolver, inside one open read. */
    method ReadNames(email: string, product: string) returns (found: Result<Resolution, string>)
      requires db.open
      ensures found == match Resolve(db.work.store, email, product)
                       case Ok(resolution) => Ok(resolution)
                       case Err(_) => Err("MultipleResultsFound")
    {
      hide Resolve;
      var users := new UserService(db.work.store);
      var licences := new LicenceService(db.work.store);
      var resolved := ResolveGoal(users, licences, email, product);
      return if resolved.Ok? then Ok(resolved.value) else Err("MultipleResultsFound");
    }

    /** The read of `resolve_run`, from committed state. */
    method LookUp(r: nat, fault: bool) returns (found: Result<Resolution, string>)
      requires Valid() && Known(history, r) && FrameOf(history, r).Resolving?
      modifies this, db
      ensures Valid() && Known(history, r) && history == old(history) + [On(r, Lookup(fault))]
      ensures FrameOf(history, r) == Looked(found) && db.committed == old(db.committed)
    {
      hide StateAfter, RowsAccepted, Resolve;
      ghost var frame := FrameOf(history, r);
      var run := db.committed.runs[r].run;
      StandsOn(history, r);
      Advances(history, r, Lookup(fault), RunStep(Before().db.store, r, RecOf(history, r), frame, Lookup(fault)));
      db.Begin();
      if fault {
        found := Err("OperationalError");
      } else {
        found := ReadNames(run.email.value, run.product.value);
      }
      db.Rollback();
      history := history + [On(r, Lookup(fault))];
    }

    /** The last transaction of `resolve_run`: the ids, or the run's end. */
    method EndResolution(r: nat, found: Result<Resolution, string>)
      requires Valid() && Known(history, r) && FrameOf(history, r) == Looked(found)
      modifies this, db
      ensures Valid() && Known(history, r) && history == old(history) + [On(r, EndResolve)]
      ensures FrameOf(history, r).Idle?
      ensures ResolutionOver(RecOf(history, r).run)
    {
      hide StateAfter, RowsAccepted, Resolve, RunInv, SoundStore, ResolutionOver;
      ResolutionSettles(Before().db.store, r, RecOf(history, r), found) by { StandsOn(history, r); }
      ghost var last := RunStep(Before().db.store, r, RecOf(history, r), FrameOf(history, r), EndResolve);
      Advances(history, r, EndResolve, last);
      db.Begin();
      match found {
        case Err(thrown) =>
          var _ := db.EndRun(r, RunStatus.Failed, UnexpectedFailure, UnexpectedDetail("resolution", thrown));
        case Ok(Unresolved(code, detail)) =>
          var _ := db.EndRun(r, NeedsClarification, code, detail);
        case Ok(ResolvedTo(goal)) =>
          db.PutRun(r, db.work.runs[r].run.(userId := Some(goal.userId), licenceId := Some(goal.licenceId),
                                            status := Resolved));
      }
      assert db.work.runs[r] == last.rec;
      db.CommitLog(r);
      history := history + [On(r, EndResolve)];
    }

    /** The check of `resolve_run`: the run has texts and waits for its ids. */
    method BeginResolution(r: nat) returns (ok: bool)
      requires Valid() && Known(history, r) && FrameOf(history, r).Idle?
      modifies this, db
      ensures Valid() && Known(history, r) && db.committed == old(db.committed)
      ensures ok <==> AwaitsResolution(RecOf(old(history), r).run)
      ensures history == old(history) + if ok then [On(r, BeginResolve)] else []
      ensures if ok then FrameOf(history, r).Resolving? else FrameOf(history, r).Idle?
    {
      hide StateAfter, RowsAccepted;
      Advances(history, r, BeginResolve, RunStep(Before().db.store, r, RecOf(history, r), Idle, BeginResolve));
      db.Begin();
      ok := AwaitsResolution(db.work.runs[r].run);
      db.Rollback();
      if ok {
        history := history + [On(r, BeginResolve)];
      }
    }

    /** `resolve_run`, with people at work between its transactions; false if the
        run does not await resolution. */
    method ResolveRun(r: nat, fault: bool, before: seq<HumanStep>, after: seq<HumanStep>) returns (ok: bool)
      requires Valid() && Known(history, r) && FrameOf(history, r).Idle?
      modifies this, db
      ensures Valid() && Known(history, r) && FrameOf(history, r).Idle?
      ensures ok <==> AwaitsResolution(RecOf(old(history), r).run)
      ensures history == old(history) + if ok then ResolveEvents(r, fault, before, after) else []
      ensures ok ==> ResolutionOver(RecOf(history, r).run)
    {
      hide StateAfter, RunStep, ResolutionOver, AwaitsResolution, ResolveEvents, Humans;
      ResolveSplits(history, r, fault, before, after);
      ok := BeginResolution(r);
      if ok {
        Meanwhile(r, before);
        var found := LookUp(r, fault);
        Meanwhile(r, after);
        EndResolution(r, found);
      }
    }

    // --- decide ---------------------------------------------------------------------------------------

    /** The first transaction of `decide`: the context, and EXECUTING. */
    method BeginDecision(r: nat) returns (ok: bool)
      requires Valid() && Known(history, r) && FrameOf(history, r).Idle?
      modifies this, db
      ensures Valid() && Known(history, r) && history == old(history) + [On(r, BeginDecide)]
      ensures ok <==> FrameOf(history, r).Deciding?
      ensures ok <==> MayDecide(RecOf(old(history), r).run)
      ensures !ok ==> FrameOf(history, r).Idle? && db.committed == old(db.committed)
    {
      hide StateAfter, RowsAccepted;
      ghost var after := RunStep(Before().db.store, r, RecOf(history, r), Idle, BeginDecide);
      Advances(history, r, BeginDecide, after);
      db.Begin();
      var run := db.work.runs[r].run;
      var goal := PersistedGoal(run);
      if run.status != Resolved || goal.None? {
        db.Rollback();
        ok := false;
      } else {
        db.PutRun(r, run.(context := Some(Context(goal.value.email, goal.value.product)), status := Executing));
        assert db.work.runs[r] == after.rec;
        db.CommitLog(r);
        ok := true;
      }
      history := history + [On(r, BeginDecide)];
    }

    /** The check before a model request, by the planner's recorder, kept or not. */
    method BeforeModelRequest(r: nat) returns (reply: Reply)
      requires Valid() && Known(history, r) && MayCallBack(RecOf(history, r).run, FrameOf(history, r))
      modifies this, db
      ensures Valid() && Known(history, r) && history == old(history) + [On(r, BeforeRequest)]
      ensures FrameOf(history, r) == FrameOf(old(history), r) && reply == Answer(old(history), r, BeforeRequest)
      ensures reply == Stopped ==> Halted(RecOf(history, r).run)
    {
      hide StateAfter, RowsAccepted, CountStage;
      ghost var after := RunStep(Before().db.store, r, RecOf(history, r), FrameOf(history, r), BeforeRequest);
      Advances(history, r, BeforeRequest, after);
      db.Begin();
      var made := CountStage(db.work.runs[r].models, Decision);
      if made < MAX_DECISION_MODEL_REQUESTS {
        db.Rollback();
        reply := Granted;
      } else {
        var ended := db.EndRun(r, RunStatus.Failed, StepLimit, LimitDetail(ModelRequests, MAX_DECISION_MODEL_REQUESTS));
        if ended {
          assert db.work.runs[r] == after.rec;
          db.CommitLog(r);
          reply := Stopped;
        } else {
          db.Rollback();
          reply := Refused;
        }
      }
      history := history + [On(r, BeforeRequest)];
    }

    /** The policy for a call, inside the transaction that admits it. */
    method ReadPolicy(tool: Tool, goal: Goal) returns (policy: Result<Option<Policy>, ServiceError>)
      requires db.open
      ensures policy == Evaluate(db.work.store, tool, goal)
    {
      var licences := new LicenceService(db.work.store);
      policy := EvaluatePolicy(tool, goal, licences);
    }

    /** `_start_call`: admit the call and record it STARTED, or record why not. */
    method StartCall(r: nat, tool: Tool) returns (admission: Admission)
      requires Valid() && Known(history, r) && MayCallBack(RecOf(history, r).run, FrameOf(history, r))
      modifies this, db
      ensures Valid() && Known(history, r) && history == old(history) + [On(r, Admit(tool))]
      ensures match admission
              case Started_(call, goal) =>
                FrameOf(history, r) == Admitted(call, tool, goal, FrameOf(old(history), r).Idle?)
              case Ended(reply) =>
                FrameOf(history, r) == FrameOf(old(history), r) && reply == Answer(old(history), r, Admit(tool))
      ensures admission == Ended(Stopped) ==> Halted(RecOf(history, r).run)
    {
      hide StateAfter, RowsAccepted, CountCalls, RunStep, RunInv, SoundStore;
      ghost var after := RunStep(Before().db.store, r, RecOf(history, r), FrameOf(history, r), Admit(tool));
      CallSteps(Before().db.store, r, RecOf(history, r), FrameOf(history, r), tool);
      Advances(history, r, Admit(tool), after);
      history := history + [On(r, Admit(tool))];
      db.Begin();
      var rec := db.work.runs[r];
      var run := rec.run;
      var target := PersistedGoal(run);
      if run.status != Executing || AnyStarted(rec.calls) || target.None? {
        db.Rollback();
        return Ended(Refused);
      }
      var goal := target.value;
      var seqNo := db.NextSequenceNo(r);
      var call := ToolCall(seqNo, tool, ArgumentsOf(tool, goal), Started, None, None, None, None, false);
      var ok := true;
      if CountCalls(rec.calls, tool.Mutates()) >= MaxCalls(tool.Mutates()) {
        ok := db.RefuseOverLimit(r, call);
        admission := Ended(Stopped);
      } else {
        var policy := ReadPolicy(tool, goal);
        if policy.Err? {
          db.Rollback();
          return Ended(Raised);
        }
        call := call.(policy := policy.value);
        match policy.value {
          case Some(Deny) =>
            ok := db.Deny(r, call);
            admission := Ended(Stopped);
          case Some(RequireApproval) =>
            db.HoldForApproval(r, call);
            admission := Ended(Stopped);
          case _ =>
            var id := db.AddCall(r, call);
            admission := Started_(id, goal);
        }
      }
      if !ok {
        db.Rollback();
        return Ended(Refused);
      }
      assert db.work.runs[r] == after.rec;
      db.CommitLog(r);
    }

    /** The tool's service call, inside the open business transaction. */
    method RunIn(tool: Tool, goal: Goal, r: nat) returns (outcome: Result<ToolOutput, ToolError>)
      requires db.open
      modifies db`work
      ensures match RunTool(old(db.work).store, tool, goal, r)
              case Ok((output, after)) => outcome == Ok(output) && db.work == old(db.work).(store := after)
              case Err(e) => outcome == Err(ToolErrorOf(e)) && db.work == old(db.work)
    {
      hide StateAfter, AssignLicence;
      var actor := AgentRunActor(r);
      if actor.Err? {
        return Err(ToolErrorOf(InvalidInput));
      }
      var service := new AssignmentService(db.work.store);
      match tool {
        case GetUser =>
          var users := new UserService(db.work.store);
          var user := users.Get(goal.userId);
          outcome := if user.Err? then Err(ToolErrorOf(user.error))
                     else Ok(UserOutput(goal.userId, user.value.email, user.value.name, user.value.status));
        case GetCapacity =>
          var usage := service.SeatUsageOf(goal.licenceId);
          outcome := if usage.Err? then Err(ToolErrorOf(usage.error)) else Ok(CapacityOf(goal.licenceId, usage.value));
        case ListAssignments =>
          var ids := service.ListForUser(goal.userId);
          outcome := if ids.Err? then Err(ToolErrorOf(ids.error))
                     else Ok(ListOutput(goal.userId, ViewsOf(service.assignments, ids.value)));
        case AssignSeat =>
          var id := service.Assign(goal.userId, goal.licenceId, actor.value);
          if id.Err? {
            return Err(ToolErrorOf(id.error));
          }
          AssignedRow(db.work.store, goal, actor.value);
          db.work := db.work.(store := service.State());
          outcome := Ok(AssignedOutput(ViewOf(id.value, service.assignments[id.value])));
      }
    }

    /** The business transaction of an admitted call. */
    method RunBusiness(r: nat, tool: Tool, goal: Goal, fault: bool) returns (outcome: Result<ToolOutput, ToolError>)
      requires Valid() && Known(history, r)
      requires FrameOf(history, r).Admitted? && FrameOf(history, r).tool == tool && FrameOf(history, r).goal == goal
      modifies this, db
      ensures Valid() && Known(history, r) && history == old(history) + [On(r, Business(fault))]
      ensures FrameOf(history, r)
        == Ran(FrameOf(old(history), r).call, tool, goal, outcome, FrameOf(old(history), r).kept)
    {
      hide StateAfter, RowsAccepted, RunTool, RunInv, SoundStore;
      ghost var after := RunStep(Before().db.store, r, RecOf(history, r), FrameOf(history, r), Business(fault));
      Advances(history, r, Business(fault), after);
      db.Begin();
      outcome := RunIn(tool, goal, r);
      if outcome.Ok? {
        db.CommitBusiness(fault);
      } else {
        db.Rollback();
      }
      if fault {
        // The tool, or the commit itself, raised an error of the database.
        outcome := Err(ToolErrorOf(Unexpected("OperationalError")));
      }
      history := history + [On(r, Business(fault))];
    }

    /** The transaction that records a call's outcome and its observation. */
    method ReportCall(r: nat, id: nat, tool: Tool, goal: Goal, outcome: Result<ToolOutput, ToolError>) returns (reply: Reply)
      requires Valid() && Known(history, r) && FrameOf(history, r).Ran?
      requires FrameOf(history, r) == Ran(id, tool, goal, outcome, FrameOf(history, r).kept)
      modifies this, db
      ensures Valid() && Known(history, r) && history == old(history) + [On(r, Report)]
      ensures FrameOf(history, r) == Back(FrameOf(old(history), r).kept) && reply == Answer(old(history), r, Report)
      ensures reply == Stopped ==> Halted(RecOf(history, r).run)
    {
      hide StateAfter, RowsAccepted, Observe, RunInv, SoundStore;
      ghost var after := RunStep(Before().db.store, r, RecOf(history, r), FrameOf(history, r), Report);
      Advances(history, r, Report, after);
      StoppedMeansHalted(Before().db.store, r, RecOf(history, r), FrameOf(history, r), Report) by {
        StandsOn(history, r);
        InvHasFrame(Before().db.store, r, RecOf(history, r), FrameOf(history, r));
      }
      history := history + [On(r, Report)];
      db.Begin();
      if id >= |db.work.runs[r].calls| {
        db.Rollback();
        return Raised;
      }
      var shown := Observe(tool, goal, outcome);
      var call := db.work.runs[r].calls[id].(completed := true, observation := shown);
      match outcome {
        case Ok(output) =>
          call := call.(status := Succeeded, result := Some(output));
        case Err(error) =>
          call := call.(status := CallFailed, error := Some(error));
          if shown.None? {
            var ended := db.EndRun(r, RunStatus.Failed, ToolFailed, CallDetail(RefOf(id, call)));
            if !ended {
              db.Rollback();
              return Refused;
            }
          }
      }
      db.PutCall(r, id, call);
      assert db.work.runs[r] == after.rec;
      db.CommitLog(r);
      reply := if shown.Some? then Shown(shown.value) else Stopped;
    }

    /** People at work while the executor stands between two transactions of run `r`. */
    method Meanwhile(r: nat, steps: seq<HumanStep>)
      requires Valid() && Known(history, r)
      modifies this, db
      ensures Valid() && Known(history, r) && history == old(history) + Humans(steps)
      ensures FrameOf(history, r) == FrameOf(old(history), r) && RecOf(history, r) == RecOf(old(history), r)
    {
      hide StateAfter, RunStep;
      PeopleKeep(history, steps, r);
      People(steps);
    }

    /** The second and third transactions of `call_tool`. */
    method FinishCall(r: nat, id: nat, tool: Tool, goal: Goal, w: Weather) returns (reply: Reply)
      requires Valid() && Known(history, r) && FrameOf(history, r).Admitted?
      requires FrameOf(history, r) == Admitted(id, tool, goal, FrameOf(history, r).kept)
      modifies this, db
      ensures Valid() && Known(history, r) && FrameOf(history, r) == Back(FrameOf(old(history), r).kept)
      ensures history == old(history) + AdmittedEvents(r, w)
      ensures reply == LastAnswer(old(history), r, AdmittedEvents(r, w))
      ensures reply == Stopped ==> Halted(RecOf(history, r).run)
    {
      hide StateAfter, RunStep, RunInv, SoundStore, Answer;
      ghost var start := history;
      if w.lostBefore {
        LastOfOne(start, r, Interrupt);
        Interrupted(r);
        return Raised;
      }
      Meanwhile(r, w.before);
      var outcome := RunBusiness(r, tool, goal, w.fault);
      ghost var ran := Humans(w.before) + [On(r, Business(w.fault))];
      assert history == start + ran;
      if w.lostAfter {
        Interrupted(r);
        assert AdmittedEvents(r, w)[..|ran|] == ran;
        return Raised;
      }
      Meanwhile(r, w.after);
      ghost var reported := ran + Humans(w.after);
      assert history == start + reported && AdmittedEvents(r, w)[..|reported|] == reported;
      reply := ReportCall(r, id, tool, goal, outcome);
    }

    /** `call_tool`: three transactions, with people at work, or an exception,
        between them. */
    method CallTool(r: nat, tool: Tool, w: Weather) returns (reply: Reply)
      requires Valid() && Known(history, r) && MayCallBack(RecOf(history, r).run, FrameOf(history, r))
      modifies this, db
      ensures Valid() && Known(history, r) && FrameOf(history, r) == FrameOf(old(history), r)
      ensures history == old(history) + CallEvents(old(history), r, tool, w)
      ensures reply == LastAnswer(old(history), r, CallEvents(old(history), r, tool, w))
      ensures reply == Stopped ==> Halted(RecOf(history, r).run)
    {
      hide StateAfter, RunStep, RunInv, SoundStore, Answer, AdmittedEvents;
      ghost var start, admit := history, [On(r, Admit(tool))];
      var admission := StartCall(r, tool);
      if admission.Ended? {
        LastOfOne(start, r, Admit(tool));
        reply := admission.reply;
      } else {
        reply := FinishCall(r, admission.call, tool, admission.goal, w);
        LastOfBoth(start, r, admit, AdmittedEvents(r, w));
      }
    }

    // --- the end of a decision ------------------------------------------------------------------------

    /** The transaction that records the proposal, and what the method keeps of
        it; nothing if it raises. */
    method RecordProposal(r: nat, proposal: Proposal) returns (kept: Option<Frame>)
      requires Valid() && Known(history, r) && FrameOf(history, r).Deciding?
      modifies this, db
      ensures Valid() && Known(history, r) && history == old(history) + [On(r, Conclude(proposal))]
      ensures kept.Some? <==> RecOf(old(history), r).run.status == Executing && NoneStarted(RecOf(old(history), r).calls)
      ensures kept.Some? ==> FrameOf(history, r).Concluded? && kept.value == FrameOf(history, r)
      ensures kept.None? ==> FrameOf(history, r).Idle?
    {
      hide StateAfter, RowsAccepted, RunInv, SoundStore, BlockingRejection, RejectedCall, AnyMutationSucceeded;
      if RecOf(history, r).run.status == Executing {
        StandsOn(history, r);
        ExecutingHasGoal(Before().db.store, r, RecOf(history, r), Deciding);
      }
      ghost var after := RunStep(Before().db.store, r, RecOf(history, r), Deciding, Conclude(proposal));
      Advances(history, r, Conclude(proposal), after);
      history := history + [On(r, Conclude(proposal))];
      db.Begin();
      var rec := db.work.runs[r];
      var run := rec.run;
      var goal := PersistedGoal(run);
      if run.status != Executing || AnyStarted(rec.calls) || goal.None? {
        db.Rollback();
        return None;
      }
      run := run.(proposal := Some(KindOf(proposal)), status := Verifying);
      if proposal.CannotProceed? {
        run := run.(claim := Some(proposal.why));
      }
      db.PutRun(r, run);
      assert db.work.runs[r] == after.rec;
      db.CommitLog(r);
      kept := Some(Concluded(proposal, goal.value, AnyMutationSucceeded(rec.calls),
                             BlockingRejection(rec.calls), RejectedCall(rec.calls)));
    }

    /** The verifier, and the check of a claimed block, inside one open read. */
    method ReadGoal(goal: Goal, proposal: Proposal) returns (checked: Result<(Verdict, Option<BlockCheck>), string>)
      requires db.open
      ensures checked == VerifyRead(db.work.store, goal, proposal)
    {
      hide Verify, CheckBlock;
      var assignments := new AssignmentService(db.work.store);
      var verdict := VerifyGoal(assignments, goal);
      if verdict.satisfied || !proposal.CannotProceed? {
        return Ok((verdict, None));
      }
      var users := new UserService(db.work.store);
      var check := CheckClaim(users, assignments, goal, proposal.why);
      if check.Err? {
        return Err(if check.error.UserNotFound? then "UserNotFound" else "LicenceNotFound");
      }
      return Ok((verdict, Some(check.value)));
    }

    /** Verification's read of committed state. */
    method ReadVerdict(r: nat, kept: Frame, fault: bool) returns (frame: Frame)
      requires Valid() && Known(history, r) && kept.Concluded? && FrameOf(history, r) == kept
      modifies this, db
      ensures Valid() && Known(history, r) && history == old(history) + [On(r, VerifyNow(fault))]
      ensures frame.Checked? && FrameOf(history, r) == frame
    {
      hide StateAfter, RowsAccepted, RunInv, SoundStore, VerifyRead;
      Advances(history, r, VerifyNow(fault), RunStep(Before().db.store, r, RecOf(history, r), kept, VerifyNow(fault)));
      history := history + [On(r, VerifyNow(fault))];
      db.Begin();
      var checked := Err("OperationalError");
      if !fault {
        checked := ReadGoal(kept.goal, kept.proposal);
      }
      db.Rollback();
      frame := Checked(kept.proposal, kept.changed, kept.rejection, kept.rejected, checked);
    }

    /** The transaction that ends a verified run. */
    method EndVerified(r: nat, frame: Frame)
      requires Valid() && Known(history, r) && frame.Checked? && FrameOf(history, r) == frame
      modifies this, db
      ensures Valid() && Known(history, r) && history == old(history) + [On(r, Machine.Finish)]
      ensures FrameOf(history, r).Idle? && RecOf(history, r).run.completed
    {
      hide StateAfter, RowsAccepted, RunInv, SoundStore, DecisionOutcome;
      ghost var after := RunStep(Before().db.store, r, RecOf(history, r), frame, Machine.Finish);
      Advances(history, r, Machine.Finish, after);
      StandsOn(history, r);
      VerifyingIsOpen(Before().db.store, r, RecOf(history, r), frame);
      history := history + [On(r, Machine.Finish)];
      db.Begin();
      match frame.checked {
        case Err(thrown) =>
          var _ := db.EndRun(r, RunStatus.Failed, UnexpectedFailure, UnexpectedDetail("verification", thrown));
        case Ok((verdict, check)) =>
          var confirmed := check.Some? && check.value.confirmed;
          var outcome := DecisionOutcome(frame.proposal, verdict.satisfied, frame.changed, frame.rejection, confirmed);
          var _ := db.EndRun(r, outcome.0, outcome.1, VerdictDetail(verdict, frame.rejected, check));
      }
      assert db.work.runs[r] == after.rec;
      db.CommitLog(r);
    }

    /** `_finish_decision`, with people at work around the read; false if it raises. */
    method FinishDecision(r: nat, proposal: Proposal, w: Weather) returns (ok: bool)
      requires Valid() && Known(history, r) && FrameOf(history, r).Deciding?
      modifies this, db
      ensures Valid() && Known(history, r)
      ensures history == old(history) + FinishEvents(old(history), r, proposal, w)
      ensures ok <==> RecOf(old(history), r).run.status == Executing && NoneStarted(RecOf(old(history), r).calls)
      ensures ok ==> RecOf(history, r).run.completed
    {
      hide StateAfter, RunStep, RunInv, SoundStore;
      var kept := RecordProposal(r, proposal);
      ok := kept.Some?;
      if ok {
        Meanwhile(r, w.before);
        var frame := ReadVerdict(r, kept.value, w.fault);
        Meanwhile(r, w.after);
        EndVerified(r, frame);
      }
    }

    /** `_end_decision`: the planner raised something other than DecisionStopped. */
    method EndDecision(r: nat, why: Abort)
      requires Valid() && Known(history, r) && FrameOf(history, r).Deciding?
      modifies this, db
      ensures Valid() && Known(history, r) && history == old(history) + [On(r, AbortDecision(why))]
      ensures Halted(RecOf(history, r).run)
    {
      hide StateAfter, RowsAccepted, SoundStore, RunInv, RunStep;
      ghost var after := RunStep(Before().db.store, r, RecOf(history, r), Deciding, AbortDecision(why));
      AbortStep(Before().db.store, r, RecOf(history, r), why);
      Advances(history, r, AbortDecision(why), after);
      StandsOn(history, r);
      AbortHalts(Before().db.store, r, RecOf(history, r), why);
      history := history + [On(r, AbortDecision(why))];
      db.Begin();
      if db.work.runs[r].run.status == Executing {
        match why {
          case PlannerError(code, errorType) =>
            var _ := db.EndRun(r, RunStatus.Failed, PlannerFailed, PlannerDetail(Decision, code, errorType, []));
          case Thrown(thrown) =>
            var _ := db.EndRun(r, RunStatus.Failed, UnexpectedFailure, UnexpectedDetail("decision", thrown));
        }
      }
      assert db.work.runs[r] == after.rec;
      db.CommitLog(r);
    }

    // --- the decision loop, driven by the planner ---------------------------------------------------------

    /** One thing the planner does with the executor. No transaction is open
        when it is asked, nor when it has its answer. */
    method Answered(r: nat, move: Move) returns (reply: Reply)
      requires Valid() && Known(history, r) && FrameOf(history, r).Deciding?
      modifies this, db
      ensures Valid() && Known(history, r) && FrameOf(history, r).Deciding?
      ensures history == old(history) + MoveEvents(old(history), r, move)
      ensures reply == MoveAnswer(old(history), r, move)
      ensures reply == Stopped ==> Halted(RecOf(history, r).run)
    {
      hide StateAfter, RunStep, RunInv, SoundStore, CallEvents, RecordTx, BeforeRequestTx;
      match move {
        case AskLimit =>
          LastOfOne(history, r, BeforeRequest);
          reply := BeforeModelRequest(r);
        case Tell(record) =>
          RecordNeverStops(history, r, record);
          LastOfOne(history, r, Record(Decision, record));
          DecidingHasRecorder(history, r);
          reply := RecordCall(r, Decision, record);
        case Use(tool, w) => reply := CallTool(r, tool, w);
      }
    }

    /** What `decide` does once the planner's loop has stopped; false if it raises. */
    method EndLoop(r: nat, ending: Ending) returns (normal: bool)
      requires Valid() && Known(history, r) && FrameOf(history, r).Deciding?
      modifies this, db
      ensures Valid() && Known(history, r)
      ensures history == old(history) + EndingEvents(old(history), r, ending)
      ensures !normal ==> ending.Propose?
      ensures normal && !ending.LetThrough? ==> Halted(RecOf(history, r).run)
      ensures ending.LetThrough? ==> db.committed == old(db.committed)
    {
      hide StateAfter, RunStep, RunInv, SoundStore, FinishEvents, Halted;
      normal := true;
      match ending {
        case Propose(proposal, w) =>
          normal := FinishDecision(r, proposal, w);
          EndedIsHalted(RecOf(history, r).run);
        case Abandon(why) =>
          EndDecision(r, why);
        case LetThrough =>
          LeavesDecision(history, r);
          history := history + [On(r, StopDecision)];
      }
    }

    /** `decide`, for whatever the planner does and however its loop ends. It
        returns normally only once the run has ended or is paused, unless the
        planner raised a DecisionStopped that no answer had raised. */
    method Decide(r: nat, moves: seq<Move>, ending: Ending) returns (normal: bool, stopped: bool)
      requires Valid() && Known(history, r) && FrameOf(history, r).Idle?
      modifies this, db
      ensures Valid() && Known(history, r)
      ensures history == old(history) + DecideEvents(old(history), r, moves, ending)
      ensures !normal ==> !MayDecide(RecOf(old(history), r).run) || ending.Propose?
      ensures normal && (ending.LetThrough? ==> stopped) ==> Halted(RecOf(history, r).run)
    {
      hide StateAfter, RunStep, RunInv, SoundStore, MoveEvents, EndingEvents, Halted, MayDecide;
      ghost var start := history;
      stopped := false;
      normal := BeginDecision(r);
      if !normal {
        return;
      }
      ghost var begun := history;
      for i := 0 to |moves|
        invariant Valid() && Known(history, r) && FrameOf(history, r).Deciding?
        invariant begun + MovesEvents(begun, r, moves) == history + MovesEvents(history, r, moves[i..])
        invariant stopped ==> Halted(RecOf(history, r).run)
      {
        assert moves[i..][0] == moves[i] && moves[i..][1..] == moves[i + 1..];
        ghost var now := history;
        var reply := Answered(r, moves[i]);
        if stopped {
          HaltedStays(now, MoveEvents(now, r, moves[i]), r);
        }
        stopped := stopped || reply == Stopped;
      }
      assert moves[|moves|..] == [] && history + [] == history;
      ghost var done := history;
      normal := EndLoop(r, ending);
      assert history == done + EndingEvents(done, r, ending);
      DecisionSplits(start, r, moves, ending);
    }

    /** `run`: a run's whole life. It raises only for a request it refuses, or
        when a proposal cannot be acted on; otherwise it returns with the run
        ended or paused, unless the planner forged a DecisionStopped. */
    method Run(script: Script) returns (id: Option<nat>, normal: bool, forged: bool)
      requires Valid()
      modifies this, db
      ensures Valid() && history == old(history) + RunEvents(old(history), script)
      ensures id.None? <==> ValidatedRequest(script.instruction, script.actor).None?
      ensures id.None? ==> !normal && db.committed == old(db.committed)
      ensures id.Some? ==> id.value == |old(db.committed).runs| && Known(history, id.value)
      ensures id.Some? && !normal ==> script.ending.Propose?
      ensures id.Some? && normal && !forged ==> Halted(RecOf(history, id.value).run)
      ensures forged ==> script.ending.LetThrough?
    {
      hide StateAfter, RunStep, RunInv, SoundStore, Halted, ValidatedRequest, MayDecide;
      hide AwaitingExtraction, ExtractEvents, ResolveEvents, DecideEvents;
      ghost var start := history;
      normal, forged := false, false;
      id := ReceiveRun(script.instruction, script.actor);
      if id.None? {
        return;
      }
      var r := id.value;
      NewRunAwaits(db.committed.runs[r]);
      var _ := ExtractIntent(r, script.records, script.intent);
      normal := true;
      EndedIsHalted(db.committed.runs[r].run);
      ghost var received := [Receive(script.instruction, script.actor)];
      ghost var extracted := received + ExtractEvents(r, script.records, script.intent);
      assert history == start + extracted;
      if db.committed.runs[r].run.status != Received {
        return;
      }
      var _ := ResolveRun(r, script.lookupFault, script.before, script.after);
      EndedIsHalted(db.committed.runs[r].run);
      ghost var resolved := extracted + ResolveEvents(r, script.lookupFault, script.before, script.after);
      assert history == start + resolved;
      if db.committed.runs[r].run.status != Resolved {
        return;
      }
      var stopped;
      normal, stopped := Decide(r, script.moves, script.ending);
      forged := normal && script.ending.LetThrough? && !stopped;
    }

    /** The process dies between two transactions of the run, or its method is
        left by an exception: what is committed stays, and nothing takes it up. */
    ghost method Crashed(r: nat)
      requires Valid() && Known(history, r)
      modifies this
      ensures Valid() && Known(history, r) && history == old(history) + [On(r, Die)]
      ensures FrameOf(history, r).Idle? && RecOf(history, r) == RecOf(old(history), r)
    {
      hide StateAfter, RowsAccepted;
      Advances(history, r, Die, RunStep(Before().db.store, r, RecOf(history, r), FrameOf(history, r), Die));
      history := history + [On(r, Die)];
    }

    /** An exception between two transactions of a call reaches its caller. */
    ghost method Interrupted(r: nat)
      requires Valid() && Known(history, r) && (FrameOf(history, r).Admitted? || FrameOf(history, r).Ran?)
      modifies this
      ensures Valid() && Known(history, r) && history == old(history) + [On(r, Interrupt)]
      ensures FrameOf(history, r) == Back(FrameOf(old(history), r).kept)
      ensures Answer(old(history), r, Interrupt) == Raised
    {
      hide StateAfter, RowsAccepted;
      Advances(history, r, Interrupt, RunStep(Before().db.store, r, RecOf(history, r), FrameOf(history, r), Interrupt));
      history := history + [On(r, Interrupt)];
    }
  }

  /** So whatever the executor has been made to do, the committed database is
      sound, and no run has more calls or changes than it may. */
  lemma CommittedStateIsSound(executor: AgentExecutor, r: nat)
    requires executor.Valid() && r < |executor.db.committed.runs|
    ensures SoundStore(executor.db.committed.store)
    ensures RowsAccepted(executor.db.committed.store, executor.db.committed.runs[r])
    ensures |executor.db.committed.runs[r].calls| <= 8
    ensures |EventsOf(executor.db.committed.store.audit, r)| <= 1
  {
    hide StateAfter, RunInv, SoundStore, RunAccepted, CallAccepted, ModelCallAccepted;
    var rec := executor.db.committed.runs[r];
    Reachable(executor.history);
    CommittedRowsAreAccepted(executor.history, r, rec);
    CallsStayWithinBudget(executor.history, r, rec);
    ExactlyOnceAttribution(executor.history, r, rec);
  }
}
