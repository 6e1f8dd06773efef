/** The two migrations that rebuild `agent_runs`: 0005 (decision stage) and 0007
    (policy checks). Both must keep every row, refuse to go back while a row
    would not survive it, and never rebuild `agent_runs` on SQLite while a
    trace row refers to it. */
module Migrations {
  import opened Basics
  import opened Domain
  import opened AgentRows
  import opened SqlChecks

  // --- which rows each revision can store -------------------------------------------

  /** Data of the decision stage, which revision 0004 has no place for. */
  predicate HoldsDecision(run: AgentRun) {
    run.context.Some? || run.proposal.Some? || run.reason == Some(StepLimit)
  }

  /** A paused run or a policy denial, which revision 0006 cannot store. */
  predicate HoldsPolicy(run: AgentRun) {
    run.status == AwaitingApproval || run.reason == Some(PolicyDenied)
  }

  predicate CallHoldsPolicy(call: ToolCall) {
    call.status == Held || call.policy.Some?
  }

  predicate NoDecisionColumns(run: AgentRun) {
    run.context.None? && run.proposal.None? && run.claim.None?
  }

  lemma CheckAt0006(name: RunCheck, run: AgentRun)
    requires !HoldsPolicy(run)
    ensures RunCheckValue(R0006, name, run) == RunCheckValue(R0007, name, run)
  {
  }

  /** Revision 0006 stores exactly the rows of 0007 that its guard lets through. */
  lemma Stored0006(run: AgentRun)
    ensures RunAccepted(R0006, run) <==> RunAccepted(R0007, run) && !HoldsPolicy(run)
  {
    if !HoldsPolicy(run) {
      forall name: RunCheck ensures RunCheckValue(R0006, name, run) == RunCheckValue(R0007, name, run) {
        CheckAt0006(name, run);
      }
    } else if run.status == AwaitingApproval {
      assert !Passes(RunCheckValue(R0006, RunStatusEnum, run));
    } else {
      assert !Passes(RunCheckValue(R0006, OutcomeReasonEnum, run));
    }
  }

  lemma CheckAt0004(name: RunCheck, run: AgentRun)
    requires run.reason != Some(StepLimit)
    ensures RunCheckValue(R0004, name, run) == RunCheckValue(R0005, name, run)
  {
  }

  /** The guard of 0005 lets a row through exactly if 0004 stores it whole. A
      missing proposal forces a missing reason code, so the guard need not ask. */
  lemma Stored0004(run: AgentRun)
    ensures RunAccepted(R0004, run) && NoDecisionColumns(run) <==> RunAccepted(R0005, run) && !HoldsDecision(run)
  {
    if run.reason == Some(StepLimit) {
      assert !Passes(RunCheckValue(R0004, OutcomeReasonEnum, run));
    } else {
      forall name: RunCheck ensures RunCheckValue(R0004, name, run) == RunCheckValue(R0005, name, run) {
        CheckAt0004(name, run);
      }
      if RunAccepted(R0005, run) && run.proposal.None? {
        assert Passes(RunCheckValue(R0005, DecisionReasonMatchesProposal, run));
      }
    }
  }

  /** Likewise for tool calls, whose policy column 0006 does not have. */
  lemma CallStored0006(call: ToolCall)
    ensures CallAccepted(R0006, call) && call.policy.None? <==> CallAccepted(R0007, call) && !CallHoldsPolicy(call)
  {
    if call.status == Held {
      assert !Passes(CallCheckValue(R0006, CallStatusEnum, call));
    } else if call.policy.None? {
      forall name: CallCheck ensures CallCheckValue(R0006, name, call) == CallCheckValue(R0007, name, call) {
      }
      forall name: CallCheck | PolicyCheck(name) ensures Passes(CallCheckValue(R0007, name, call)) {
      }
    }
  }

  // --- schemas -----------------------------------------------------------------------

  /** A table's columns beyond the first revision's, and its CHECKs: each by the
      revision its text dates from. */
  datatype RunSchema = RunSchema(decisionColumns: bool, checks: map<RunCheck, Revision>)

  datatype CallSchema = CallSchema(policyColumn: bool, statusWidth: nat, checks: map<CallCheck, Revision>)

  /** A check's text on either side of a migration. */
  datatype Change = Change(before: Revision, after: Revision)

  const AGENT_RUN_CHECKS: map<RunCheck, Change> := map[
    RunStatusEnum := Change(R0004, R0007),
    OutcomeReasonEnum := Change(R0005, R0007),
    ResolvedIdsMatchStatus := Change(R0004, R0007),
    CompletedAtIffTerminal := Change(R0004, R0007),
    OutcomeMatchesStatus := Change(R0005, R0007)]

  const TOOL_CALL_CHECKS: map<CallCheck, Change> := map[
    CallStatusEnum := Change(R0004, R0007),
    CallOutcomeMatchesStatus := Change(R0004, R0007),
    ObservationNeedsOutcome := Change(R0004, R0007)]

  const NEW_TOOL_CALL_CHECKS: set<CallCheck> := {PolicyDecisionEnum, AwaitingApprovalWasRequired, DeniedCallFailed}

  const STEP_LIMIT_CHECKS: map<RunCheck, Change> := map[
    OutcomeReasonEnum := Change(R0004, R0005),
    OutcomeMatchesStatus := Change(R0004, R0005)]

  const NEW_AGENT_RUN_CHECKS: set<RunCheck> := {
    DecisionProposalEnum, CannotProceedReasonEnum, DecisionContextNeedsResolution, DecisionProposalNeedsContext,
    DecisionReasonMatchesProposal}

  /** The revision that a check's text at `rev` dates from. */
  function RunText(rev: Revision, name: RunCheck): Revision {
    if rev == R0007 && (name.RunStatusEnum? || name.OutcomeReasonEnum? || name.ResolvedIdsMatchStatus?
                        || name.CompletedAtIffTerminal? || name.OutcomeMatchesStatus?) then R0007
    else if rev != R0004 && (DecisionCheck(name) || name.OutcomeReasonEnum? || name.OutcomeMatchesStatus?) then R0005
    else R0004
  }

  function CallText(rev: Revision, name: CallCheck): Revision {
    if rev == R0007 && !name.SequenceNoPositive? then R0007 else R0004
  }

  const RUN_CHECKS: set<RunCheck> := {
    RunStatusEnum, OutcomeReasonEnum, ResolvedIdsTogether, GoalColumnsTogether, ResolvedIdsNeedGoal,
    ExtractionOutcomeHasNoGoal, LastSequenceNoNonNegative, ResolvedIdsMatchStatus, CompletedAtIffTerminal,
    OutcomeMatchesStatus, DecisionProposalEnum, CannotProceedReasonEnum, DecisionContextNeedsResolution,
    DecisionProposalNeedsContext, DecisionReasonMatchesProposal}

  const CALL_CHECKS: set<CallCheck> := {
    CallStatusEnum, SequenceNoPositive, CallOutcomeMatchesStatus, ObservationNeedsOutcome, PolicyDecisionEnum,
    AwaitingApprovalWasRequired, DeniedCallFailed}

  function RunSchemaAt(rev: Revision): RunSchema {
    RunSchema(rev != R0004, map name | name in RUN_CHECKS && (rev != R0004 || !DecisionCheck(name)) :: RunText(rev, name))
  }

  function CallSchemaAt(rev: Revision): CallSchema {
    CallSchema(rev == R0007, if rev == R0007 then 32 else 16,
               map name | name in CALL_CHECKS && (rev == R0007 || !PolicyCheck(name)) :: CallText(rev, name))
  }

  function StatusText(s: CallStatus): string {
    match s
    case Held => "awaiting_approval"
    case Started => "started"
    case Succeeded => "succeeded"
    case CallFailed => "failed"
  }

  ghost predicate RunFits(schema: RunSchema, run: AgentRun) {
    && (forall name | name in schema.checks :: Passes(RunCheckValue(schema.checks[name], name, run)))
    && (schema.decisionColumns || NoDecisionColumns(run))
  }

  ghost predicate CallFits(schema: CallSchema, call: ToolCall) {
    && (forall name | name in schema.checks :: Passes(CallCheckValue(schema.checks[name], name, call)))
    && (schema.policyColumn || call.policy.None?)
    && |StatusText(call.status)| <= schema.statusWidth
  }

  lemma RunTextIsCurrent(rev: Revision, name: RunCheck, run: AgentRun)
    ensures RunCheckValue(RunText(rev, name), name, run) == RunCheckValue(rev, name, run)
  {
  }

  /** A schema's rows are those its revision accepts, in the columns it has. */
  lemma RunFitsAt(rev: Revision, run: AgentRun)
    ensures RunFits(RunSchemaAt(rev), run) <==> RunAccepted(rev, run) && (rev == R0004 ==> NoDecisionColumns(run))
  {
    hide RunCheckValue;
    var checks := RunSchemaAt(rev).checks;
    forall name: RunCheck
      ensures name in checks <==> !(rev == R0004 && DecisionCheck(name))
      ensures RunCheckValue(RunText(rev, name), name, run) == RunCheckValue(rev, name, run)
    {
      RunTextIsCurrent(rev, name, run);
    }
  }

  lemma CallTextIsCurrent(rev: Revision, name: CallCheck, call: ToolCall)
    ensures CallCheckValue(CallText(rev, name), name, call) == CallCheckValue(rev, name, call)
  {
  }

  lemma CallFitsAt(rev: Revision, call: ToolCall)
    ensures CallFits(CallSchemaAt(rev), call)
      <==> CallAccepted(rev, call) && (rev != R0007 ==> call.policy.None? && |StatusText(call.status)| <= 16)
  {
    hide CallCheckValue;
    var checks := CallSchemaAt(rev).checks;
    forall name: CallCheck
      ensures name in checks <==> rev == R0007 || !PolicyCheck(name)
      ensures CallCheckValue(CallText(rev, name), name, call) == CallCheckValue(rev, name, call)
    {
      CallTextIsCurrent(rev, name, call);
    }
  }

  // --- rewriting a set of checks ---------------------------------------------------------

  function Replaced<T>(checks: map<T, Revision>, changes: map<T, Change>, upgrade: bool): map<T, Revision> {
    checks + map name | name in changes :: if upgrade then changes[name].after else changes[name].before
  }

  function Created<T>(checks: map<T, Revision>, names: set<T>, text: Revision): map<T, Revision> {
    checks + map name | name in names :: text
  }

  /** `replace_checks`: each check dropped, and created again with the other text. */
  method ReplaceChecks<T(==)>(checks: map<T, Revision>, changes: map<T, Change>, upgrade: bool)
    returns (after: map<T, Revision>)
    ensures after == Replaced(checks, changes, upgrade)
  {
    hide Replaced;
    after := checks;
    var left := changes.Keys;
    ReplaceNone(checks, changes, upgrade);
    while left != {}
      invariant left <= changes.Keys
      invariant after == Replaced(checks, changes - left, upgrade)
      decreases |left|
    {
      var name :| name in left;
      var text := if upgrade then changes[name].after else changes[name].before;
      ReplaceOne(checks, changes, upgrade, left, name);
      after := after - {name};
      after := after[name := text];
      left := left - {name};
    }
    assert changes - {} == changes;
  }

  lemma ReplaceNone<T>(checks: map<T, Revision>, changes: map<T, Change>, upgrade: bool)
    ensures Replaced(checks, changes - changes.Keys, upgrade) == checks
  {
  }

  lemma ReplaceOne<T>(checks: map<T, Revision>, changes: map<T, Change>, upgrade: bool, left: set<T>, name: T)
    requires left <= changes.Keys && name in left
    ensures var text := if upgrade then changes[name].after else changes[name].before;
      (Replaced(checks, changes - left, upgrade) - {name})[name := text] == Replaced(checks, changes - (left - {name}), upgrade)
  {
    var text := if upgrade then changes[name].after else changes[name].before;
    var some, more := changes - left, changes - (left - {name});
    assert more == some[name := changes[name]];
    hide Replaced;
    forall n ensures n in (Replaced(checks, some, upgrade) - {name})[name := text] <==> n in Replaced(checks, more, upgrade)
      ensures n in Replaced(checks, more, upgrade) ==>
        (Replaced(checks, some, upgrade) - {name})[name := text][n] == Replaced(checks, more, upgrade)[n]
    {
      ReplacedAt(checks, some, upgrade, n);
      ReplacedAt(checks, more, upgrade, n);
    }
  }

  method CreateChecks<T(==)>(checks: map<T, Revision>, names: set<T>, text: Revision) returns (after: map<T, Revision>)
    ensures after == Created(checks, names, text)
  {
    hide Created;
    after := checks;
    var left := names;
    CreateNone(checks, names, text);
    while left != {}
      invariant left <= names
      invariant after == Created(checks, names - left, text)
      decreases |left|
    {
      var name :| name in left;
      CreateOne(checks, names - left, text, name);
      after := after[name := text];
      assert names - left + {name} == names - (left - {name});
      left := left - {name};
    }
    assert names - {} == names;
  }

  lemma CreateNone<T>(checks: map<T, Revision>, names: set<T>, text: Revision)
    ensures Created(checks, names - names, text) == checks
  {
  }

  lemma CreateOne<T>(checks: map<T, Revision>, names: set<T>, text: Revision, name: T)
    ensures Created(checks, names, text)[name := text] == Created(checks, names + {name}, text)
  {
    var one, all := Created(checks, names, text)[name := text], Created(checks, names + {name}, text);
    assert forall n | n in one :: n in all && one[n] == all[n];
    assert forall n | n in all :: n in one;
  }

  method DropChecks<T(==)>(checks: map<T, Revision>, names: set<T>) returns (after: map<T, Revision>)
    ensures after == checks - names
  {
    after := checks;
    var left := names;
    while left != {}
      invariant left <= names
      invariant after == checks - (names - left)
      decreases |left|
    {
      var name :| name in left;
      after := after - {name};
      left := left - {name};
    }
    assert names - {} == names;
  }

  lemma ReplacedAt<T>(checks: map<T, Revision>, changes: map<T, Change>, upgrade: bool, name: T)
    ensures var after := Replaced(checks, changes, upgrade);
      && (name in after <==> name in checks || name in changes)
      && (name in changes ==> after[name] == if upgrade then changes[name].after else changes[name].before)
      && (name in checks && name !in changes ==> after[name] == checks[name])
  {
  }

  lemma RunChecksOf0007At(name: RunCheck)
    ensures name in AGENT_RUN_CHECKS <==> RunText(R0006, name) != RunText(R0007, name)
    ensures name in AGENT_RUN_CHECKS ==> AGENT_RUN_CHECKS[name] == Change(RunText(R0006, name), RunText(R0007, name))
    ensures name in RUN_CHECKS
  {
  }

  /** The dictionaries of 0007 lead from one schema to the other, and back. */
  lemma RunChecksOf0007()
    ensures Replaced(RunSchemaAt(R0006).checks, AGENT_RUN_CHECKS, true) == RunSchemaAt(R0007).checks
    ensures Replaced(RunSchemaAt(R0007).checks, AGENT_RUN_CHECKS, false) == RunSchemaAt(R0006).checks
  {
    hide Replaced, RunText, AGENT_RUN_CHECKS, RUN_CHECKS;
    var older, newer := RunSchemaAt(R0006).checks, RunSchemaAt(R0007).checks;
    var up, down := Replaced(older, AGENT_RUN_CHECKS, true), Replaced(newer, AGENT_RUN_CHECKS, false);
    forall name: RunCheck
      ensures name in up <==> name in newer
      ensures name in down <==> name in older
      ensures name in up ==> up[name] == newer[name]
      ensures name in down ==> down[name] == older[name]
    {
      RunChecksOf0007At(name);
      ReplacedAt(older, AGENT_RUN_CHECKS, true, name);
      ReplacedAt(newer, AGENT_RUN_CHECKS, false, name);
    }
    assert up == newer;
    assert down == older;
  }

  lemma CreatedAt<T>(checks: map<T, Revision>, names: set<T>, text: Revision, name: T)
    ensures var after := Created(checks, names, text);
      && (name in after <==> name in checks || name in names)
      && (name in names ==> after[name] == text)
      && (name in checks && name !in names ==> after[name] == checks[name])
  {
  }

  lemma CallChecksOf0007At(name: CallCheck)
    ensures name in NEW_TOOL_CALL_CHECKS <==> PolicyCheck(name)
    ensures PolicyCheck(name) ==> CallText(R0007, name) == R0007 && name !in TOOL_CALL_CHECKS
    ensures name in TOOL_CALL_CHECKS <==> !PolicyCheck(name) && CallText(R0006, name) != CallText(R0007, name)
    ensures name in TOOL_CALL_CHECKS ==> TOOL_CALL_CHECKS[name] == Change(CallText(R0006, name), CallText(R0007, name))
    ensures name in CALL_CHECKS
  {
  }

  lemma CallChecksOf0007()
    ensures Created(Replaced(CallSchemaAt(R0006).checks, TOOL_CALL_CHECKS, true), NEW_TOOL_CALL_CHECKS, R0007)
         == CallSchemaAt(R0007).checks
    ensures Replaced(CallSchemaAt(R0007).checks - NEW_TOOL_CALL_CHECKS, TOOL_CALL_CHECKS, false)
         == CallSchemaAt(R0006).checks
  {
    hide Replaced, Created, CallText, TOOL_CALL_CHECKS, NEW_TOOL_CALL_CHECKS, CALL_CHECKS, PolicyCheck;
    var older, newer := CallSchemaAt(R0006).checks, CallSchemaAt(R0007).checks;
    var replaced := Replaced(older, TOOL_CALL_CHECKS, true);
    var up := Created(replaced, NEW_TOOL_CALL_CHECKS, R0007);
    var kept := newer - NEW_TOOL_CALL_CHECKS;
    var down := Replaced(kept, TOOL_CALL_CHECKS, false);
    forall name: CallCheck
      ensures name in up <==> name in newer
      ensures name in down <==> name in older
      ensures name in up ==> up[name] == newer[name]
      ensures name in down ==> down[name] == older[name]
    {
      CallChecksOf0007At(name);
      ReplacedAt(older, TOOL_CALL_CHECKS, true, name);
      CreatedAt(replaced, NEW_TOOL_CALL_CHECKS, R0007, name);
      ReplacedAt(kept, TOOL_CALL_CHECKS, false, name);
    }
    assert up == newer;
    assert down == older;
  }

  lemma RunChecksOf0005At(name: RunCheck)
    ensures name in NEW_AGENT_RUN_CHECKS <==> DecisionCheck(name)
    ensures DecisionCheck(name) ==> RunText(R0005, name) == R0005 && name !in STEP_LIMIT_CHECKS
    ensures name in STEP_LIMIT_CHECKS <==> !DecisionCheck(name) && RunText(R0004, name) != RunText(R0005, name)
    ensures name in STEP_LIMIT_CHECKS ==> STEP_LIMIT_CHECKS[name] == Change(RunText(R0004, name), RunText(R0005, name))
    ensures name in RUN_CHECKS
  {
  }

  lemma RunChecksOf0005()
    ensures Created(Replaced(RunSchemaAt(R0004).checks, STEP_LIMIT_CHECKS, true), NEW_AGENT_RUN_CHECKS, R0005)
         == RunSchemaAt(R0005).checks
    ensures Replaced(RunSchemaAt(R0005).checks - NEW_AGENT_RUN_CHECKS, STEP_LIMIT_CHECKS, false)
         == RunSchemaAt(R0004).checks
  {
    hide Replaced, Created, RunText, STEP_LIMIT_CHECKS, NEW_AGENT_RUN_CHECKS, RUN_CHECKS, DecisionCheck;
    var older, newer := RunSchemaAt(R0004).checks, RunSchemaAt(R0005).checks;
    var replaced := Replaced(older, STEP_LIMIT_CHECKS, true);
    var up := Created(replaced, NEW_AGENT_RUN_CHECKS, R0005);
    var kept := newer - NEW_AGENT_RUN_CHECKS;
    var down := Replaced(kept, STEP_LIMIT_CHECKS, false);
    forall name: RunCheck
      ensures name in up <==> name in newer
      ensures name in down <==> name in older
      ensures name in up ==> up[name] == newer[name]
      ensures name in down ==> down[name] == older[name]
    {
      RunChecksOf0005At(name);
      ReplacedAt(older, STEP_LIMIT_CHECKS, true, name);
      CreatedAt(replaced, NEW_AGENT_RUN_CHECKS, R0005, name);
      ReplacedAt(kept, STEP_LIMIT_CHECKS, false, name);
    }
    assert up == newer;
    assert down == older;
  }

  // --- the database while it is migrated --------------------------------------------------

  datatype CallRow = CallRow(runId: int, call: ToolCall)

  datatype ModelRow = ModelRow(runId: int, call: ModelCall)

  /** The rows of the three tables, by id. */
  datatype Rows = Rows(runs: map<int, AgentRun>, calls: map<int, CallRow>, models: map<int, ModelRow>)

  datatype TraceTable = ToolCallsTable | ModelCallsTable

  const TRACE_TABLES: seq<TraceTable> := [ToolCallsTable, ModelCallsTable]

  /** A row read through the listed columns, which leave out `policy_decision`. */
  function ListedColumns(row: CallRow): CallRow {
    row.(call := row.call.(policy := None))
  }

  function Copied(calls: map<int, CallRow>): map<int, CallRow> {
    map id | id in calls :: ListedColumns(calls[id])
  }

  /** A row in the columns that the schema keeps; a new column starts NULL. */
  function RunColumns(schema: RunSchema, run: AgentRun): AgentRun {
    if schema.decisionColumns then run else run.(context := None, proposal := None, claim := None)
  }

  function CallColumns(schema: CallSchema, row: CallRow): CallRow {
    if schema.policyColumn then row else ListedColumns(row)
  }

  lemma SchemaParts(rev: Revision)
    ensures RunSchemaAt(rev) == RunSchema(rev != R0004, RunSchemaAt(rev).checks)
    ensures CallSchemaAt(rev) == CallSchema(rev == R0007, if rev == R0007 then 32 else 16, CallSchemaAt(rev).checks)
  {
  }

  lemma StatusFits(call: ToolCall)
    ensures |StatusText(call.status)| <= 16 <==> call.status != Held
  {
  }

  lemma RunBetween0006And0007(run: AgentRun)
    ensures RunFits(RunSchemaAt(R0006), run) <==> RunFits(RunSchemaAt(R0007), run) && !HoldsPolicy(run)
  {
    hide RunFits, RunAccepted, HoldsPolicy;
    RunFitsAt(R0006, run);
    RunFitsAt(R0007, run);
    Stored0006(run);
  }

  lemma CallBetween0006And0007(call: ToolCall)
    ensures CallFits(CallSchemaAt(R0006), call) <==> CallFits(CallSchemaAt(R0007), call) && !CallHoldsPolicy(call)
  {
    hide CallFits, CallAccepted, StatusText;
    CallFitsAt(R0006, call);
    CallFitsAt(R0007, call);
    CallStored0006(call);
    StatusFits(call);
  }

  lemma RunBetween0004And0005(run: AgentRun)
    ensures RunFits(RunSchemaAt(R0004), run) <==> RunFits(RunSchemaAt(R0005), run) && !HoldsDecision(run)
  {
    hide RunFits, RunAccepted, HoldsDecision, NoDecisionColumns;
    RunFitsAt(R0004, run);
    RunFitsAt(R0005, run);
    Stored0004(run);
  }

  /** Rows without policy data fit both revisions, and every column is listed. */
  lemma Fits0007(runs: map<int, AgentRun>, calls: map<int, CallRow>)
    requires forall id | id in runs :: RunFits(RunSchemaAt(R0007), runs[id]) && !HoldsPolicy(runs[id])
    requires forall id | id in calls :: CallFits(CallSchemaAt(R0007), calls[id].call) && !CallHoldsPolicy(calls[id].call)
    ensures forall id | id in runs :: RunFits(RunSchemaAt(R0006), runs[id])
    ensures forall id | id in calls :: CallFits(CallSchemaAt(R0006), calls[id].call)
    ensures Copied(calls) == calls
  {
    hide RunFits, CallFits, RunSchemaAt, CallSchemaAt, HoldsPolicy;
    forall id | id in runs ensures RunFits(RunSchemaAt(R0006), runs[id]) {
      RunBetween0006And0007(runs[id]);
    }
    forall id | id in calls ensures CallFits(CallSchemaAt(R0006), calls[id].call) && ListedColumns(calls[id]) == calls[id] {
      CallBetween0006And0007(calls[id].call);
    }
  }

  lemma Fits0006(runs: map<int, AgentRun>, calls: map<int, CallRow>)
    requires forall id | id in runs :: RunFits(RunSchemaAt(R0006), runs[id])
    requires forall id | id in calls :: CallFits(CallSchemaAt(R0006), calls[id].call)
    ensures forall id | id in runs :: RunFits(RunSchemaAt(R0007), runs[id]) && !HoldsPolicy(runs[id])
    ensures forall id | id in calls :: CallFits(CallSchemaAt(R0007), calls[id].call) && !CallHoldsPolicy(calls[id].call)
    ensures Copied(calls) == calls
  {
    hide RunFits, CallFits, RunSchemaAt, CallSchemaAt, HoldsPolicy;
    forall id | id in runs ensures RunFits(RunSchemaAt(R0007), runs[id]) && !HoldsPolicy(runs[id]) {
      RunBetween0006And0007(runs[id]);
    }
    forall id | id in calls
      ensures CallFits(CallSchemaAt(R0007), calls[id].call) && !CallHoldsPolicy(calls[id].call)
      ensures ListedColumns(calls[id]) == calls[id]
    {
      CallBetween0006And0007(calls[id].call);
    }
  }

  lemma NoneHeld(s: set<int>)
    ensures |s| == 0 <==> forall id :: id !in s
  {
    if forall id :: id !in s {
      assert s == {};
    }
  }

  lemma GuardCounts(runs: map<int, AgentRun>, calls: map<int, CallRow>)
    ensures |set id | id in runs && HoldsPolicy(runs[id])| == 0 <==> forall id | id in runs :: !HoldsPolicy(runs[id])
    ensures |set id | id in calls && CallHoldsPolicy(calls[id].call)| == 0
       <==> forall id | id in calls :: !CallHoldsPolicy(calls[id].call)
  {
    hide HoldsPolicy, CallHoldsPolicy;
    var held := set id | id in runs && HoldsPolicy(runs[id]);
    var heldCalls := set id | id in calls && CallHoldsPolicy(calls[id].call);
    NoneHeld(held);
    NoneHeld(heldCalls);
    assert forall id :: id in held <==> id in runs && HoldsPolicy(runs[id]);
    assert forall id :: id in heldCalls <==> id in calls && CallHoldsPolicy(calls[id].call);
  }

  /** 0005 leaves the trace tables as they are. */
  lemma SameCallSchema()
    ensures CallSchemaAt(R0004) == CallSchemaAt(R0005)
  {
  }

  lemma CallHasNoPolicy(call: ToolCall)
    ensures CallFits(CallSchemaAt(R0004), call) ==> call.policy.None?
  {
  }

  lemma Fits0004(runs: map<int, AgentRun>, calls: map<int, CallRow>)
    requires forall id | id in runs :: RunFits(RunSchemaAt(R0004), runs[id])
    requires forall id | id in calls :: CallFits(CallSchemaAt(R0004), calls[id].call)
    ensures forall id | id in runs :: RunFits(RunSchemaAt(R0005), runs[id])
    ensures CallSchemaAt(R0004) == CallSchemaAt(R0005) && Copied(calls) == calls
  {
    hide RunFits, CallFits, RunSchemaAt, CallSchemaAt, HoldsDecision;
    forall id | id in runs ensures RunFits(RunSchemaAt(R0005), runs[id]) {
      RunBetween0004And0005(runs[id]);
    }
    SameCallSchema();
    forall id | id in calls ensures ListedColumns(calls[id]) == calls[id] {
      CallHasNoPolicy(calls[id].call);
    }
  }

  lemma Fits0005(runs: map<int, AgentRun>, calls: map<int, CallRow>)
    requires forall id | id in runs :: RunFits(RunSchemaAt(R0005), runs[id]) && !HoldsDecision(runs[id])
    requires forall id | id in calls :: CallFits(CallSchemaAt(R0005), calls[id].call)
    ensures forall id | id in runs :: RunFits(RunSchemaAt(R0004), runs[id])
    ensures forall id | id in runs :: RunColumns(RunSchema(false, map[]), runs[id]) == runs[id]
    ensures CallSchemaAt(R0004) == CallSchemaAt(R0005) && Copied(calls) == calls
  {
    hide RunFits, CallFits, RunSchemaAt, CallSchemaAt, HoldsDecision;
    forall id | id in runs ensures RunFits(RunSchemaAt(R0004), runs[id]) && NoDecisionColumns(runs[id]) {
      RunBetween0004And0005(runs[id]);
      HasNoDecision(runs[id]);
    }
    SameCallSchema();
    forall id | id in calls ensures ListedColumns(calls[id]) == calls[id] {
      CallHasNoPolicy(calls[id].call);
    }
  }

  lemma HasNoDecision(run: AgentRun)
    ensures RunFits(RunSchemaAt(R0004), run) ==> NoDecisionColumns(run)
  {
  }

  class Schema {
    const sqlite: bool
    var runs: map<int, AgentRun>
    var calls: map<int, CallRow>
    var models: map<int, ModelRow>
    var runSchema: RunSchema
    var callSchema: CallSchema
    // Temporary tables.
    var asideCalls: map<int, CallRow>
    var asideModels: map<int, ModelRow>

    function Stored(): Rows
      reads this
    {
      Rows(runs, calls, models)
    }

    /** A valid database at a revision: its schema, every row fitting it, and
        every trace row of a run that exists. */
    ghost predicate At(rev: Revision)
      reads this
    {
      && runSchema == RunSchemaAt(rev) && callSchema == CallSchemaAt(rev)
      && (forall id | id in runs :: RunFits(runSchema, runs[id]))
      && (forall id | id in calls :: CallFits(callSchema, calls[id].call) && calls[id].runId in runs)
      && (forall id | id in models :: ModelCallAccepted(models[id].call) && models[id].runId in runs)
    }

    /** Empties the trace tables on SQLite, keeping their rows aside. */
    method SetAside()
      modifies this`calls, this`models, this`asideCalls, this`asideModels
      ensures sqlite ==> calls == map[] && models == map[] && asideCalls == Copied(old(calls)) && asideModels == old(models)
      ensures !sqlite ==> calls == old(calls) && models == old(models)
    {
      if !sqlite {
        return;
      }
      for i := 0 to |TRACE_TABLES|
        invariant if i > 0 then calls == map[] && asideCalls == Copied(old(calls)) else calls == old(calls)
        invariant if i > 1 then models == map[] && asideModels == old(models) else models == old(models)
      {
        if TRACE_TABLES[i] == ToolCallsTable {
          asideCalls := map id | id in calls :: ListedColumns(calls[id]);
          calls := map[];
        } else {
          asideModels := models;
          models := map[];
        }
      }
    }

    /** Puts the rows back. Each must fit its table's schema and refer to a run. */
    method PutBack()
      requires sqlite ==> calls == map[] && models == map[]
      requires sqlite ==> forall id | id in asideCalls :: CallFits(callSchema, asideCalls[id].call) && asideCalls[id].runId in runs
      requires sqlite ==> forall id | id in asideModels :: ModelCallAccepted(asideModels[id].call) && asideModels[id].runId in runs
      modifies this`calls, this`models, this`asideCalls, this`asideModels
      ensures sqlite ==> calls == old(asideCalls) && models == old(asideModels)
      ensures !sqlite ==> calls == old(calls) && models == old(models)
    {
      if !sqlite {
        return;
      }
      for i := 0 to |TRACE_TABLES|
        invariant if i > 0 then calls == old(asideCalls) else asideCalls == old(asideCalls)
        invariant if i > 1 then models == old(asideModels) else asideModels == old(asideModels)
      {
        if TRACE_TABLES[i] == ToolCallsTable {
          calls := asideCalls;
          asideCalls := map[];
        } else {
          models := asideModels;
          asideModels := map[];
        }
      }
    }

    /** The end of a batch on `agent_runs`. SQLite rebuilds the table, which it
        will not drop while a row refers to it; elsewhere it is altered in
        place. Either way every row must fit. */
    method AlterRuns(schema: RunSchema)
      requires sqlite ==> calls == map[] && models == map[]
      requires forall id | id in runs :: RunFits(schema, RunColumns(schema, runs[id]))
      modifies this`runs, this`runSchema
      ensures runSchema == schema
      ensures runs == map id | id in old(runs) :: RunColumns(schema, old(runs)[id])
      ensures (forall id | id in old(runs) :: RunColumns(schema, old(runs)[id]) == old(runs)[id]) ==> runs == old(runs)
    {
      runs := map id | id in runs :: RunColumns(schema, runs[id]);
      runSchema := schema;
      if forall id | id in old(runs) :: RunColumns(schema, old(runs)[id]) == old(runs)[id] {
        assert runs == old(runs);
      }
    }

    method AlterCalls(schema: CallSchema)
      requires forall id | id in calls :: CallFits(schema, CallColumns(schema, calls[id]).call)
      modifies this`calls, this`callSchema
      ensures callSchema == schema
      ensures calls == map id | id in old(calls) :: CallColumns(schema, old(calls)[id])
      ensures (forall id | id in old(calls) :: CallColumns(schema, old(calls)[id]) == old(calls)[id]) ==> calls == old(calls)
    {
      calls := map id | id in calls :: CallColumns(schema, calls[id]);
      callSchema := schema;
      if forall id | id in old(calls) :: CallColumns(schema, old(calls)[id]) == old(calls)[id] {
        assert calls == old(calls);
      }
    }

    // --- 0007 ------------------------------------------------------------------------------

    method UpgradeCalls0007()
      requires callSchema == CallSchemaAt(R0006)
      requires forall id | id in calls :: CallFits(CallSchemaAt(R0007), calls[id].call)
      modifies this`calls, this`callSchema
      ensures callSchema == CallSchemaAt(R0007) && calls == old(calls)
    {
      hide CallFits, CallSchemaAt, Replaced, Created, ListedColumns;
      SchemaParts(R0007);
      var checks := ReplaceChecks(callSchema.checks, TOOL_CALL_CHECKS, true);
      checks := CreateChecks(checks, NEW_TOOL_CALL_CHECKS, R0007);
      CallChecksOf0007();
      AlterCalls(CallSchema(true, 32, checks));
    }

    method UpgradeRuns0007()
      requires sqlite ==> calls == map[] && models == map[]
      requires runSchema == RunSchemaAt(R0006)
      requires forall id | id in runs :: RunFits(RunSchemaAt(R0007), runs[id])
      modifies this`runs, this`runSchema
      ensures runSchema == RunSchemaAt(R0007) && runs == old(runs)
    {
      hide RunFits, RunSchemaAt, Replaced;
      SchemaParts(R0006);
      SchemaParts(R0007);
      var checks := ReplaceChecks(runSchema.checks, AGENT_RUN_CHECKS, true);
      RunChecksOf0007();
      AlterRuns(RunSchema(runSchema.decisionColumns, checks));
    }

    /** Upgrading to 0007 keeps every row. */
    method Upgrade0007()
      requires At(R0006)
      modifies this
      ensures At(R0007) && Stored() == old(Stored())
    {
      hide RunFits, CallFits, RunSchemaAt, CallSchemaAt, HoldsPolicy, CallHoldsPolicy, ListedColumns, ModelCallAccepted;
      Fits0006(runs, calls);
      SetAside();
      UpgradeCalls0007();
      UpgradeRuns0007();
      PutBack();
    }

    /** The guard's count: rows that revision 0006 has no place for. */
    function PolicyRows(): nat
      reads this
    {
      |set id | id in runs && HoldsPolicy(runs[id])| + |set id | id in calls && CallHoldsPolicy(calls[id].call)|
    }

    method DowngradeCalls0007()
      requires callSchema == CallSchemaAt(R0007)
      requires forall id | id in calls :: CallFits(CallSchemaAt(R0006), calls[id].call) && !CallHoldsPolicy(calls[id].call)
      modifies this`calls, this`callSchema
      ensures callSchema == CallSchemaAt(R0006) && calls == old(calls)
    {
      hide CallFits, CallSchemaAt, Replaced;
      SchemaParts(R0006);
      var checks := DropChecks(callSchema.checks, NEW_TOOL_CALL_CHECKS);
      checks := ReplaceChecks(checks, TOOL_CALL_CHECKS, false);
      CallChecksOf0007();
      AlterCalls(CallSchema(false, 16, checks));
    }

    method DowngradeRuns0007()
      requires sqlite ==> calls == map[] && models == map[]
      requires runSchema == RunSchemaAt(R0007)
      requires forall id | id in runs :: RunFits(RunSchemaAt(R0006), runs[id])
      modifies this`runs, this`runSchema
      ensures runSchema == RunSchemaAt(R0006) && runs == old(runs)
    {
      hide RunFits, RunSchemaAt, Replaced;
      SchemaParts(R0006);
      SchemaParts(R0007);
      var checks := ReplaceChecks(runSchema.checks, AGENT_RUN_CHECKS, false);
      RunChecksOf0007();
      AlterRuns(RunSchema(runSchema.decisionColumns, checks));
    }

    /** Downgrading from 0007 is refused exactly while some row holds policy
        data, and then changes nothing; otherwise it keeps every row. */
    method Downgrade0007() returns (refused: bool)
      requires At(R0007)
      modifies this
      ensures refused <==> (exists id :: id in old(runs) && HoldsPolicy(old(runs)[id]))
                           || (exists id :: id in old(calls) && CallHoldsPolicy(old(calls)[id].call))
      ensures Stored() == old(Stored()) && At(if refused then R0007 else R0006)
    {
      hide RunFits, CallFits, RunSchemaAt, CallSchemaAt, HoldsPolicy, CallHoldsPolicy, ListedColumns, ModelCallAccepted;
      GuardCounts(runs, calls);
      refused := PolicyRows() != 0;
      if refused {
        return;
      }
      Fits0007(runs, calls);
      SetAside();
      DowngradeCalls0007();
      DowngradeRuns0007();
      PutBack();
    }

    // --- 0005 ------------------------------------------------------------------------------

    /** Upgrading to 0005 keeps every row; the new columns start empty. */
    method Upgrade0005()
      requires At(R0004)
      modifies this
      ensures At(R0005) && Stored() == old(Stored())
    {
      hide RunFits, CallFits, RunSchemaAt, CallSchemaAt, HoldsDecision, ListedColumns, ModelCallAccepted, Replaced, Created;
      Fits0004(runs, calls);
      SchemaParts(R0005);
      SetAside();
      var checks := ReplaceChecks(runSchema.checks, STEP_LIMIT_CHECKS, true);
      checks := CreateChecks(checks, NEW_AGENT_RUN_CHECKS, R0005);
      RunChecksOf0005();
      AlterRuns(RunSchema(true, checks));
      PutBack();
    }

    /** Downgrading from 0005 is refused exactly while some run holds data of the
        decision stage, and then changes nothing; otherwise it keeps every row. */
    method Downgrade0005() returns (refused: bool)
      requires At(R0005)
      modifies this
      ensures refused <==> exists id :: id in old(runs) && HoldsDecision(old(runs)[id])
      ensures Stored() == old(Stored()) && At(if refused then R0005 else R0004)
    {
      hide RunFits, CallFits, RunSchemaAt, CallSchemaAt, HoldsDecision, ListedColumns, ModelCallAccepted, Replaced;
      var held := set id | id in runs && HoldsDecision(runs[id]);
      NoneHeld(held);
      refused := |held| != 0;
      if refused {
        return;
      }
      assert forall id | id in runs :: !HoldsDecision(runs[id]) by {
        assert forall id | id in runs && HoldsDecision(runs[id]) :: id in held;
      }
      Fits0005(runs, calls);
      SchemaParts(R0004);
      SetAside();
      var checks := DropChecks(runSchema.checks, NEW_AGENT_RUN_CHECKS);
      checks := ReplaceChecks(checks, STEP_LIMIT_CHECKS, false);
      RunChecksOf0005();
      AlterRuns(RunSchema(false, checks));
      PutBack();
    }

    // --- there and back ------------------------------------------------------------------------

    /** What 0007 adds can always be taken away again, and nothing is lost. */
    method UpThenDown0007() returns (refused: bool)
      requires At(R0006)
      modifies this
      ensures !refused && At(R0006) && Stored() == old(Stored())
    {
      hide RunFits, CallFits, RunSchemaAt, CallSchemaAt, HoldsPolicy, CallHoldsPolicy, ModelCallAccepted;
      Fits0006(runs, calls);
      Upgrade0007();
      refused := Downgrade0007();
    }

    /** What the downgrade's guard lets through, the upgrade restores exactly. */
    method DownThenUp0007() returns (refused: bool)
      requires At(R0007)
      modifies this
      ensures At(R0007) && Stored() == old(Stored())
      ensures refused <==> (exists id :: id in old(runs) && HoldsPolicy(old(runs)[id]))
                           || (exists id :: id in old(calls) && CallHoldsPolicy(old(calls)[id].call))
    {
      hide RunFits, CallFits, RunSchemaAt, CallSchemaAt, HoldsPolicy, CallHoldsPolicy, ModelCallAccepted;
      refused := Downgrade0007();
      if !refused {
        Upgrade0007();
      }
    }

    method UpThenDown0005() returns (refused: bool)
      requires At(R0004)
      modifies this
      ensures !refused && At(R0004) && Stored() == old(Stored())
    {
      hide RunFits, CallFits, RunSchemaAt, CallSchemaAt, HoldsDecision, ModelCallAccepted;
      assert forall id | id in runs :: !HoldsDecision(runs[id]) by {
        forall id | id in runs ensures !HoldsDecision(runs[id]) {
          RunBetween0004And0005(runs[id]);
        }
      }
      Upgrade0005();
      refused := Downgrade0005();
    }

    method DownThenUp0005() returns (refused: bool)
      requires At(R0005)
      modifies this
      ensures At(R0005) && Stored() == old(Stored())
      ensures refused <==> exists id :: id in old(runs) && HoldsDecision(old(runs)[id])
    {
      hide RunFits, CallFits, RunSchemaAt, CallSchemaAt, HoldsDecision, ModelCallAccepted;
      refused := Downgrade0005();
      if !refused {
        Upgrade0005();
      }
    }
  }
}
