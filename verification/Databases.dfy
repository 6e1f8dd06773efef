/** The database and its transactions: at most one is open, and what it writes
    is seen by no one before it commits. */
module Databases {
  import opened Basics
  import opened Text
  import opened Domain
  import opened AgentRows
  import opened SqlChecks
  import opened Services
  import opened Resolution
  import opened Tools
  import opened Machine
  import opened Invariant
  import opened Guarantees
  import opened Control

  /** What the tables accept of a run's rows at commit. */
  ghost predicate RowsAccepted(b: Store, rec: RunRec) {
    && RunAccepted(R0007, rec.run)
    && (forall i | 0 <= i < |rec.calls| :: CallAccepted(R0007, rec.calls[i]))
    && (forall i | 0 <= i < |rec.models| :: ModelCallAccepted(rec.models[i]))
    && RefsOk(b, rec.run)
  }

  function WithRefusal(d: Db, r: nat, call: ToolCall): Db
    requires r < |d.runs| && !d.runs[r].run.completed
  {
    var rec := d.runs[r];
    var limit := if call.tool.Mutates() then MutationCalls else ReadCalls;
    var refused := call.(status := CallFailed, error := Some(ToolError(CodeStepLimit)), completed := true);
    var ended := LimitEnd(rec.run, limit, MaxCalls(call.tool.Mutates()));
    d.(runs := d.runs[r := rec.(run := ended.value, calls := rec.calls + [refused])])
  }

  function WithDenial(d: Db, r: nat, call: ToolCall): Db
    requires r < |d.runs| && !d.runs[r].run.completed
  {
    var rec := d.runs[r];
    var denied := call.(status := CallFailed, error := Some(ToolError(CodePolicyDenied)), completed := true);
    var ended := End(rec.run, Blocked, PolicyDenied, CallDetail(RefOf(|rec.calls|, denied)));
    d.(runs := d.runs[r := rec.(run := ended.value, calls := rec.calls + [denied])])
  }

  function WithHold(d: Db, r: nat, call: ToolCall): Db
    requires r < |d.runs|
  {
    var rec := d.runs[r];
    d.(runs := d.runs[r := rec.(run := rec.run.(status := AwaitingApproval), calls := rec.calls + [call.(status := Held)])])
  }

  /** A database with one connection: at most one transaction is open, and its
      changes are seen by no one before it commits. */
  class Database {
    var committed: Db
    var work: Db
    var open: bool

    constructor (db: Db)
      ensures committed == db && !open
    {
      committed, work, open := db, db, false;
    }

    method Begin()
      requires !open
      modifies this
      ensures open && work == committed == old(committed)
    {
      work, open := committed, true;
    }

    /** Commits a log transaction on run `r`. The caller shows that every CHECK passes. */
    method CommitLog(r: nat)
      requires open && r < |work.runs| && RowsAccepted(work.store, work.runs[r])
      modifies this
      ensures !open && committed == old(work)
    {
      committed, open := work, false;
    }

    /** Commits a business transaction, or fails and rolls back. */
    method CommitBusiness(fault: bool)
      requires open
      modifies this
      ensures !open && committed == if fault then old(committed) else old(work)
    {
      if !fault {
        committed := work;
      }
      open := false;
    }

    method Rollback()
      requires open
      modifies this
      ensures !open && committed == old(committed)
    {
      open := false;
    }

    // The repositories' writes, inside the open transaction.

    method PutRun(r: nat, run: AgentRun)
      requires open && r < |work.runs|
      modifies this`work
      ensures work == old(work).(runs := old(work).runs[r := old(work).runs[r].(run := run)])
    {
      work := work.(runs := work.runs[r := work.runs[r].(run := run)]);
    }

    method NextSequenceNo(r: nat) returns (n: int)
      requires open && r < |work.runs|
      modifies this`work
      ensures n == old(work).runs[r].run.lastSeq + 1
      ensures work == old(work).(runs := old(work).runs[r := old(work).runs[r].(run := old(work).runs[r].run.(lastSeq := n))])
    {
      n := work.runs[r].run.lastSeq + 1;
      PutRun(r, work.runs[r].run.(lastSeq := n));
    }

    method AddCall(r: nat, call: ToolCall) returns (id: nat)
      requires open && r < |work.runs|
      modifies this`work
      ensures id == |old(work).runs[r].calls|
      ensures work == old(work).(runs := old(work).runs[r := old(work).runs[r].(calls := old(work).runs[r].calls + [call])])
    {
      id := |work.runs[r].calls|;
      work := work.(runs := work.runs[r := work.runs[r].(calls := work.runs[r].calls + [call])]);
    }

    method PutCall(r: nat, id: nat, call: ToolCall)
      requires open && r < |work.runs| && id < |work.runs[r].calls|
      modifies this`work
      ensures work == old(work).(runs := old(work).runs[r := old(work).runs[r].(calls := old(work).runs[r].calls[id := call])])
    {
      work := work.(runs := work.runs[r := work.runs[r].(calls := work.runs[r].calls[id := call])]);
    }

    method AddModelCall(r: nat, call: ModelCall)
      requires open && r < |work.runs|
      modifies this`work
      ensures work == old(work).(runs := old(work).runs[r := old(work).runs[r].(models := old(work).runs[r].models + [call])])
    {
      work := work.(runs := work.runs[r := work.runs[r].(models := work.runs[r].models + [call])]);
    }

    /** `_end`, or false when the run has ended already. */
    method EndRun(r: nat, status: RunStatus, reason: Reason, detail: Detail) returns (ended: bool)
      requires open && r < |work.runs|
      modifies this`work
      ensures ended <==> !old(work).runs[r].run.completed
      ensures work == if !ended then old(work) else
        old(work).(runs := old(work).runs[r := old(work).runs[r].(
          run := End(old(work).runs[r].run, status, reason, detail).value)])
    {
      var run := work.runs[r].run;
      if run.completed {
        return false;
      }
      PutRun(r, run.(status := status, reason := Some(reason), detail := Some(detail), completed := true));
      return true;
    }

    // The three ways a call is recorded without being run. Each is false, and
    // changes nothing, if the run has ended.

    /** `_refuse_over_limit` */
    method RefuseOverLimit(r: nat, call: ToolCall) returns (ok: bool)
      requires open && r < |work.runs|
      modifies this`work
      ensures ok <==> !old(work).runs[r].run.completed
      ensures work == if !ok then old(work) else WithRefusal(old(work), r, call)
    {
      var limit := if call.tool.Mutates() then MutationCalls else ReadCalls;
      ok := EndRun(r, RunStatus.Failed, StepLimit, LimitDetail(limit, MaxCalls(call.tool.Mutates())));
      if ok {
        var _ := AddCall(r, call.(status := CallFailed, error := Some(ToolError(CodeStepLimit)), completed := true));
      }
    }

    /** `_deny` */
    method Deny(r: nat, call: ToolCall) returns (ok: bool)
      requires open && r < |work.runs|
      modifies this`work
      ensures ok <==> !old(work).runs[r].run.completed
      ensures work == if !ok then old(work) else WithDenial(old(work), r, call)
    {
      var denied := call.(status := CallFailed, error := Some(ToolError(CodePolicyDenied)), completed := true);
      ok := EndRun(r, Blocked, PolicyDenied, CallDetail(RefOf(|work.runs[r].calls|, denied)));
      if ok {
        var _ := AddCall(r, denied);
      }
    }

    /** `_hold_for_approval` */
    method HoldForApproval(r: nat, call: ToolCall)
      requires open && r < |work.runs|
      modifies this`work
      ensures work == WithHold(old(work), r, call)
    {
      var _ := AddCall(r, call.(status := Held));
      PutRun(r, work.runs[r].run.(status := AwaitingApproval));
    }
  }
}
