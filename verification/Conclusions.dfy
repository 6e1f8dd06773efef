/** How a decision ends, exactly: when the model's conclusion is accepted, and
    what verification then makes of it, with people at work in between. */
module Conclusions {
  import opened Basics
  import opened Text
  import opened Domain
  import opened AgentRows
  import opened SqlChecks
  import opened Services
  import opened Resolution
  import opened Tools
  import opened Machine
  import opened Invariant
  import opened Guarantees
  import opened Control
  import opened Schedules
  import opened Calls
  import opened History

  // --- the conditions, of stored rows alone -----------------------------------------------

  /** The run's attempt was rejected by the blocking rule of this reason. */
  predicate AttemptBlockedBy(calls: seq<ToolCall>, why: Reason) {
    exists i :: 0 <= i < |calls| && calls[i].tool == AssignSeat && calls[i].status == CallFailed
             && calls[i].error == Some(ToolError(if why == NoSeats then CodeNoSeats else CodeUserInactive))
  }

  /** The run's own change was committed and recorded. */
  predicate ChangedSomething(calls: seq<ToolCall>) {
    exists i :: 0 <= i < |calls| && calls[i].tool == AssignSeat && calls[i].status == Succeeded
  }

  /** The condition that a claim names holds of the goal's rows. */
  predicate ClaimHolds(b: Store, goal: Goal, claim: CannotProceedReason) {
    match claim
    case ClaimNoSeats =>
      goal.licenceId in b.licences && SeatsTaken(b.assignments, goal.licenceId) >= b.licences[goal.licenceId].seatsTotal
    case ClaimUserInactive => goal.userId in b.users && b.users[goal.userId].status == Inactive
  }

  predicate GoalHolds(b: Store, goal: Goal) {
    exists i :: 0 <= i < |b.assignments| && b.assignments[i].ActiveFor(goal.userId, goal.licenceId)
  }

  predicate ClaimsRightly(b: Store, goal: Goal, p: Proposal) {
    p.CannotProceed? && ClaimHolds(b, goal, p.why)
  }

  predicate EndedAs(run: AgentRun, status: RunStatus, reason: Reason) {
    run.completed && run.status == status && run.reason == Some(reason)
  }

  /** The outcome, in this order: the goal holds; the attempt was blocked; the
      claim is right; or the conclusion was wrong. */
  predicate OutcomeIs(b: Store, goal: Goal, calls: seq<ToolCall>, p: Proposal, run: AgentRun) {
    var holds, rejected := GoalHolds(b, goal), AttemptBlockedBy(calls, NoSeats) || AttemptBlockedBy(calls, InactiveUser);
    && (EndedAs(run, Completed, GoalSatisfied) <==> holds && ChangedSomething(calls))
    && (EndedAs(run, Completed, AlreadySatisfied) <==> holds && !ChangedSomething(calls))
    && (EndedAs(run, Blocked, NoSeats) <==>
          !holds && if rejected then AttemptBlockedBy(calls, NoSeats)
                    else p == CannotProceed(ClaimNoSeats) && ClaimsRightly(b, goal, p))
    && (EndedAs(run, Blocked, InactiveUser) <==>
          !holds && if rejected then AttemptBlockedBy(calls, InactiveUser)
                    else p == CannotProceed(ClaimUserInactive) && ClaimsRightly(b, goal, p))
    && (EndedAs(run, RunStatus.Failed, VerificationFailed) <==> !holds && !rejected && !ClaimsRightly(b, goal, p))
  }

  /** The evidence recorded with the outcome is what was read: the goal's ids, the
      row that holds, and the check of a claim that the goal left open. */
  predicate EvidenceIs(b: Store, goal: Goal, p: Proposal, run: AgentRun) {
    var holds := GoalHolds(b, goal);
    && run.detail.Some? && run.detail.value.VerdictDetail?
    && var (verdict, check) := (run.detail.value.verdict, run.detail.value.blockCheck);
       && verdict.userId == goal.userId && verdict.licenceId == goal.licenceId
       && (verdict.satisfied <==> holds) && (verdict.found.Some? <==> holds)
       && (holds ==>
             var row := verdict.found.value;
             && row.id < |b.assignments| && b.assignments[row.id].ActiveFor(goal.userId, goal.licenceId)
             && row == AssignmentView(row.id, goal.userId, goal.licenceId, true, None))
       && (check.Some? <==> !holds && p.CannotProceed?)
       && (check.Some? ==> check.value.claim == p.why && (check.value.confirmed <==> ClaimHolds(b, goal, p.why)))
  }

  // --- accepting the conclusion ----------------------------------------------------------------

  /** A conclusion is accepted exactly from a run that executes and has no
      unfinished call, whatever it called before. It is recorded, and the run is
      to be verified. Any other run refuses it, and nothing is written. */
  lemma ConcludesExactlyWhenSettled(events: seq<Event>, r: nat, rec: RunRec, p: Proposal)
    requires RunIn(events, r, rec) && Known(events, r) && FrameOf(events, r).Deciding?
    ensures var later := events + [On(r, Conclude(p))];
      && Known(later, r) && StateAfter(later).db.store == StateAfter(events).db.store
      && if rec.run.status == Executing && NoneStarted(rec.calls) then
           && FrameOf(later, r).Concluded? && Answer(events, r, Conclude(p)) == Silent
           && FrameOf(later, r).proposal == p && Some(FrameOf(later, r).goal) == PersistedGoal(rec.run)
           && var kind := match p
                case GoalReached => KindGoalReached
                case NoActionNeeded => KindNoActionNeeded
                case CannotProceed(_) => KindCannotProceed;
              RecOf(later, r) == rec.(run := rec.run.(
                status := Verifying, proposal := Some(kind),
                claim := match p case CannotProceed(why) => Some(why) case _ => rec.run.claim))
         else RecOf(later, r) == rec && FrameOf(later, r).Idle? && Answer(events, r, Conclude(p)) == Refused
  {
    hide StateAfter, RunInv, SoundStore, PersistedGoal, AnyMutationSucceeded, BlockingRejection, RejectedCall;
    RunInHasInv(events, r, rec);
    Extend(events, On(r, Conclude(p)));
    if rec.run.status == Executing {
      ExecutingHasGoal(StateAfter(events).db.store, r, rec, FrameOf(events, r));
    }
  }

  // --- verifying it ------------------------------------------------------------------------------

  /** With one mutation at most, the latest is the only one. */
  lemma OnlyAttemptIsLatest(calls: seq<ToolCall>)
    requires CountCalls(calls, true) <= 1
    requires forall i | 0 <= i < |calls| && calls[i].tool.Mutates() && calls[i].status == CallFailed :: calls[i].error.Some?
    ensures BlockingRejection(calls) ==
      if AttemptBlockedBy(calls, NoSeats) then Some(NoSeats)
      else if AttemptBlockedBy(calls, InactiveUser) then Some(InactiveUser) else None
    ensures AnyMutationSucceeded(calls) <==> ChangedSomething(calls)
    ensures !(AttemptBlockedBy(calls, NoSeats) && AttemptBlockedBy(calls, InactiveUser))
  {
    hide CountCalls, MutationsIn;
    CountIsSize(calls);
    forall i, j | 0 <= i < |calls| && 0 <= j < |calls| && calls[i].tool == AssignSeat && calls[j].tool == AssignSeat
      ensures i == j
    {
      AtMostOne(calls, i, j);
    }
    var k := LatestMutation(calls);
    if k.Some? {
      assert calls[k.value].tool == AssignSeat;
    }
  }

  lemma AtMostOne(calls: seq<ToolCall>, i: nat, j: nat)
    requires |MutationsIn(calls)| <= 1
    requires i < |calls| && j < |calls| && calls[i].tool == AssignSeat && calls[j].tool == AssignSeat
    ensures i == j
  {
    if i != j {
      PairIsTwo(MutationsIn(calls), i, j);
    }
  }

  lemma PairIsTwo(s: set<nat>, i: nat, j: nat)
    requires i in s && j in s && i != j
    ensures |s| >= 2
  {
    var pair: set<nat> := {i, j};
    assert s == pair + (s - pair);
  }

  /** Reading committed state, then ending the run by what was read. */
  lemma EndsByWhatWasRead(
    b: Store, rec: RunRec, p: Proposal, goal: Goal, changed: bool, rejection: Option<Reason>, rejected: Option<CallRef>)
    requires !rec.run.completed && goal.userId in b.users && goal.licenceId in b.licences
    requires changed == ChangedSomething(rec.calls)
    requires rejection ==
      if AttemptBlockedBy(rec.calls, NoSeats) then Some(NoSeats)
      else if AttemptBlockedBy(rec.calls, InactiveUser) then Some(InactiveUser) else None
    requires !(AttemptBlockedBy(rec.calls, NoSeats) && AttemptBlockedBy(rec.calls, InactiveUser))
    ensures OutcomeIs(b, goal, rec.calls, p, FinishTx(rec, p, changed, rejection, rejected, VerifyRead(b, goal, p)).run)
  {
    hide AttemptBlockedBy, ChangedSomething, SeatsTaken, ActiveRow;
    assert Verify(b, goal).satisfied <==> GoalHolds(b, goal);
    if p.CannotProceed? {
      assert CheckBlock(b, goal, p.why).Ok? && (CheckBlock(b, goal, p.why).value.confirmed <==> ClaimHolds(b, goal, p.why));
    }
  }

  lemma RecordsWhatWasRead(
    b: Store, rec: RunRec, p: Proposal, goal: Goal, changed: bool, rejection: Option<Reason>, rejected: Option<CallRef>)
    requires !rec.run.completed && goal.userId in b.users && goal.licenceId in b.licences
    ensures EvidenceIs(b, goal, p, FinishTx(rec, p, changed, rejection, rejected, VerifyRead(b, goal, p)).run)
  {
    hide SeatsTaken, DecisionOutcome, ActiveRow;
    assert Verify(b, goal).satisfied <==> GoalHolds(b, goal);
    if p.CannotProceed? {
      assert CheckBlock(b, goal, p.why).Ok? && (CheckBlock(b, goal, p.why).value.confirmed <==> ClaimHolds(b, goal, p.why));
    }
  }

  /** The steps that follow an accepted conclusion, with people around the read. */
  function Verification(r: nat, before: seq<HumanStep>, fault: bool, after: seq<HumanStep>): seq<Event> {
    Humans(before) + [On(r, VerifyNow(fault))] + Humans(after) + [On(r, Machine.Finish)]
  }

  /** What is read is what `before` left, whatever happens between the read and the end. */
  lemma VerificationSteps(events: seq<Event>, r: nat, rec: RunRec, f: Frame,
                          before: seq<HumanStep>, fault: bool, after: seq<HumanStep>)
    requires Known(events, r) && RecOf(events, r) == rec && FrameOf(events, r) == f && f.Concluded?
    ensures Known(events + Humans(before), r) && Known(events + Verification(r, before, fault, after), r)
    ensures RecOf(events + Humans(before), r) == rec && FrameOf(events + Humans(before), r) == f
    ensures var b := StateAfter(events + Humans(before)).db.store;
      var checked := if fault then Err("OperationalError") else VerifyRead(b, f.goal, f.proposal);
      RecOf(events + Verification(r, before, fault, after), r)
        == FinishTx(rec, f.proposal, f.changed, f.rejection, f.rejected, checked)
  {
    hide StateAfter, VerifyRead, FinishTx;
    PeopleKeep(events, before, r);
    var read := events + Humans(before);
    Extend(read, On(r, VerifyNow(fault)));
    var verified := read + [On(r, VerifyNow(fault))];
    PeopleKeep(verified, after, r);
    Extend(verified + Humans(after), On(r, Machine.Finish));
    assert events + Verification(r, before, fault, after) == verified + Humans(after) + [On(r, Machine.Finish)];
  }

  /** What becomes of an accepted conclusion, exactly. With `b` the committed
      state that verification read, and whatever people did before and after:
      the run ends COMPLETED if and only if the goal's user held the goal's seat;
      BLOCKED if and only if not, and its attempt was rejected for want of a seat
      or an active user or the model claimed such a thing and it was so; and
      otherwise FAILED. */
  lemma OutcomeIsExact(
    events: seq<Event>, r: nat, rec: RunRec, p: Proposal, before: seq<HumanStep>, after: seq<HumanStep>)
    requires RunIn(events, r, rec) && Known(events, r) && FrameOf(events, r).Deciding?
    requires rec.run.status == Executing && NoneStarted(rec.calls)
    ensures var concluded := events + [On(r, Conclude(p))];
      && Known(concluded + Verification(r, before, false, after), r) && PersistedGoal(rec.run).Some?
      && var ended := RecOf(concluded + Verification(r, before, false, after), r);
         && ended.calls == rec.calls && ended.models == rec.models
         && OutcomeIs(StateAfter(concluded + Humans(before)).db.store, PersistedGoal(rec.run).value, rec.calls, p, ended.run)
         && EvidenceIs(StateAfter(concluded + Humans(before)).db.store, PersistedGoal(rec.run).value, p, ended.run)
  {
    hide StateAfter, RunInv, SoundStore, AnyMutationSucceeded, BlockingRejection, RejectedCall, OutcomeIs, VerifyRead;
    hide AttemptBlockedBy, ChangedSomething, EvidenceIs;
    var concluded := events + [On(r, Conclude(p))];
    ConcludesExactlyWhenSettled(events, r, rec, p);
    var (later, f) := (RecOf(concluded, r), FrameOf(concluded, r));
    StandsOn(concluded, r);
    ConcludedKnows(StateAfter(concluded).db.store, r, later, f);
    VerifiedAttemptIsSettled(concluded, r, later);
    OnlyAttemptIsLatest(rec.calls);
    VerificationSteps(concluded, r, later, f, before, false, after);
    var read := concluded + Humans(before);
    StandsOn(read, r);
    ConcludedKnows(StateAfter(read).db.store, r, later, f);
    RecordsWhatWasRead(StateAfter(read).db.store, later, p, f.goal, f.changed, f.rejection, f.rejected);
    EndsByWhatWasRead(StateAfter(read).db.store, later, p, f.goal, f.changed, f.rejection, f.rejected);
  }

  /** What the frame holds of the run's rows. */
  lemma ConcludedKnows(b: Store, r: nat, rec: RunRec, f: Frame)
    requires RunInv(b, r, rec, f) && f.Concluded?
    ensures PersistedGoal(rec.run) == Some(f.goal) && !rec.run.completed && rec.run.status == Verifying
    ensures f.goal.userId in b.users && f.goal.licenceId in b.licences
    ensures f.changed == AnyMutationSucceeded(rec.calls) && f.rejection == BlockingRejection(rec.calls)
  {
    hide TraceOk, BudgetOk, OneAttempt, AttributionOk, EventsOf, Grounded, CallsOk, EndingOk;
    hide AnyMutationSucceeded, BlockingRejection, RejectedCall;
  }

  /** If the read itself fails, the run ends FAILED, and no outcome is claimed. */
  lemma FailedReadEndsRun(
    events: seq<Event>, r: nat, rec: RunRec, p: Proposal, before: seq<HumanStep>, after: seq<HumanStep>)
    requires RunIn(events, r, rec) && Known(events, r) && FrameOf(events, r).Deciding?
    requires rec.run.status == Executing && NoneStarted(rec.calls)
    ensures var done := events + [On(r, Conclude(p))] + Verification(r, before, true, after);
      && Known(done, r) && EndedAs(RecOf(done, r).run, RunStatus.Failed, UnexpectedFailure)
      && RecOf(done, r).run.detail == Some(UnexpectedDetail("verification", "OperationalError"))
  {
    hide StateAfter, RunInv, SoundStore, AnyMutationSucceeded, BlockingRejection, RejectedCall, VerifyRead;
    var concluded := events + [On(r, Conclude(p))];
    ConcludesExactlyWhenSettled(events, r, rec, p);
    StandsOn(concluded, r);
    ConcludedKnows(StateAfter(concluded).db.store, r, RecOf(concluded, r), FrameOf(concluded, r));
    VerificationSteps(concluded, r, RecOf(concluded, r), FrameOf(concluded, r), before, true, after);
  }
}
