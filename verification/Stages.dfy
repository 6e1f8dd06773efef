/** What each stage before the decision does to a run, exactly: receiving it,
    extracting its goal, resolving that to rows, and starting its decision. */
module Stages {
  import opened Basics
  import opened Listings
  import opened Text
  import opened Domain
  import opened AgentRows
  import opened SqlChecks
  import opened Services
  import opened Resolution
  import opened Tools
  import opened Machine
  import opened Invariant
  import opened Guarantees
  import opened Control
  import opened Schedules
  import opened History
  import opened Conclusions

  // --- receive ---------------------------------------------------------------------------

  predicate Acceptable(instruction: string, actor: string) {
    && Fits(actor, 320) && !("agent:" <= Fold(Strip(actor)))
    && Strip(instruction) != [] && |instruction| <= 2000
  }

  /** A request is accepted exactly for an instruction that is not blank and not
      over 2000 characters, from an actor that fits and is no agent's. It becomes
      a new RECEIVED run, the instruction as given; otherwise nothing changes. */
  lemma ReceivesExactly(events: seq<Event>, instruction: string, actor: string)
    ensures var (s, t) := (StateAfter(events), StateAfter(events + [Receive(instruction, actor)]));
      if Acceptable(instruction, actor) then
        && t.db.store == s.db.store && |t.db.runs| == |s.db.runs| + 1 && t.db.runs[..|s.db.runs|] == s.db.runs
        && |t.frames| == |s.frames| + 1 && t.frames[..|s.frames|] == s.frames && t.frames[|s.frames|] == Idle
        && var rec := t.db.runs[|s.db.runs|];
           && rec.run.instruction == instruction && rec.run.requestingActor == Strip(actor) && rec.run.status == Received
           && rec.calls == [] && rec.models == [] && rec.run.lastSeq == 0 && !rec.run.completed
           && rec.run.email.None? && rec.run.product.None? && rec.run.userId.None? && rec.run.licenceId.None?
           && rec.run.reason.None? && rec.run.detail.None? && rec.run.context.None? && rec.run.proposal.None?
      else t == s
  {
    hide StateAfter;
    Extend(events, Receive(instruction, actor));
  }

  // --- extract ---------------------------------------------------------------------------

  /** Both texts stand in the instruction. */
  predicate Copied(email: string, product: string, instruction: string) {
    Grounded(email, instruction) && Grounded(product, instruction)
  }

  /** The run only ended, so: everything else in its row is as it was. */
  predicate OnlyEnded(before: AgentRun, after: AgentRun, status: RunStatus, reason: Reason, detail: Detail) {
    && after.completed && after.status == status && after.reason == Some(reason) && after.detail == Some(detail)
    && after.(completed := before.completed, status := before.status, reason := before.reason, detail := before.detail) == before
  }

  lemma MissingFields(email: string, product: string, instruction: string)
    ensures var fields := UngroundedFields(email, product, instruction);
      && (fields == [] <==> Copied(email, product, instruction))
      && (FieldUserEmail in fields <==> !Grounded(email, instruction))
      && (FieldProduct in fields <==> !Grounded(product, instruction))
  {
  }

  /** Extraction ends exactly as its planner did. Texts copied from the instruction
      become the goal; texts that were not, and a planner that failed, end the
      run FAILED with the reason; an unclear or unsupported instruction ends it
      NEEDS_CLARIFICATION, each under its own reason and with the planner's code. */
  lemma ExtractionIsExact(events: seq<Event>, r: nat, rec: RunRec, outcome: Intent)
    requires RunIn(events, r, rec) && Known(events, r) && FrameOf(events, r).Extracting?
    ensures var later := events + [On(r, EndExtract(outcome))];
      && Known(later, r) && FrameOf(later, r).Idle? && StateAfter(later).db.store == StateAfter(events).db.store
      && var (run, after) := (rec.run, RecOf(later, r));
         && after.calls == rec.calls && after.models == rec.models
         && match outcome
            case Ensure(email, product) =>
              if Copied(email, product, run.instruction) then
                after.run == run.(goalType := Some(EnsureAssignment), desiredState := Some(DesiredAssigned),
                                  email := Some(email), product := Some(product))
              else
                exists fields ::
                  && OnlyEnded(run, after.run, RunStatus.Failed, PlannerFailed,
                               PlannerDetail(Extraction, "ungrounded_output", None, fields))
                  && (FieldUserEmail in fields <==> !Grounded(email, run.instruction))
                  && (FieldProduct in fields <==> !Grounded(product, run.instruction))
            case Unclear(code) => OnlyEnded(run, after.run, NeedsClarification, InstructionUnclear, CodeDetail(code))
            case Unsupported(code) => OnlyEnded(run, after.run, NeedsClarification, UnsupportedRequest, CodeDetail(code))
            case Failing(code, errorType) =>
              OnlyEnded(run, after.run, RunStatus.Failed, PlannerFailed, PlannerDetail(Extraction, code, errorType, []))
            case Throwing(thrown) =>
              OnlyEnded(run, after.run, RunStatus.Failed, UnexpectedFailure, UnexpectedDetail("extraction", thrown))
  {
    hide StateAfter, RunInv, SoundStore, UngroundedFields, Grounded;
    RunInHasInv(events, r, rec);
    Extend(events, On(r, EndExtract(outcome)));
    ExtractingIsOpen(StateAfter(events).db.store, r, rec);
    if outcome.Ensure? {
      MissingFields(outcome.email, outcome.product, rec.run.instruction);
    }
  }

  lemma ExtractingIsOpen(b: Store, r: nat, rec: RunRec)
    requires RunInv(b, r, rec, Extracting)
    ensures AwaitingExtraction(rec.run) && !rec.run.completed
  {
    hide TraceOk, BudgetOk, OneAttempt, AttributionOk, EventsOf, Grounded, CallsOk, EndingOk;
  }

  // --- resolve ---------------------------------------------------------------------------

  /** The read of resolution, and its last transaction, with people in between. */
  function ResolutionEnd(r: nat, fault: bool, people: seq<HumanStep>): seq<Event> {
    [On(r, Lookup(fault))] + Humans(people) + [On(r, EndResolve)]
  }

  /** The names of exactly the matching licences, in id order. */
  ghost predicate ListsCandidates(b: Store, product: string, names: seq<string>) {
    exists listed: seq<int> ::
      && Ascending(listed) && |listed| == |names|
      && (forall l :: l in listed <==> l in b.licences && Fold(b.licences[l].product) == Fold(Strip(product)))
      && forall i | 0 <= i < |listed| :: listed[i] in b.licences && names[i] == b.licences[listed[i]].product
  }

  /** The detail that goes with each failure of resolution. */
  ghost predicate SaysWhyUnresolved(b: Store, email: string, product: string, code: Reason, detail: Detail) {
    match code
    case UnknownUser => detail == UserDetail(email)
    case UnknownLicence => detail == LicenceDetail(product)
    case LicenceAmbiguous =>
      detail.AmbiguousDetail? && detail.product == product && ListsCandidates(b, product, detail.candidates)
    case _ => detail == InputDetail
  }

  lemma UnresolvedSaysWhy(b: Store, email: string, product: string)
    requires Resolve(b, email, product).Ok? && Resolve(b, email, product).value.Unresolved?
    ensures var found := Resolve(b, email, product).value;
      SaysWhyUnresolved(b, email, product, found.code, found.detail)
  {
    hide ValidatedEmail, SortedIds;
    var found := Resolve(b, email, product).value;
    if found.code == LicenceAmbiguous {
      var listed := SortedIds(LicencesByFold(b, Fold(Strip(product))));
      assert found.detail == AmbiguousDetail(product, ProductsOf(b, listed));
      assert Ascending(listed);
    }
  }

  /** What resolution made of the run. */
  ghost predicate ResolvedAsRead(b: Store, before: AgentRun, email: string, product: string, after: AgentRun) {
    && (forall u, l ::
          after == before.(status := Resolved, userId := Some(u), licenceId := Some(l))
          <==> ValidTexts(email, product) && Names(b, email, product, u, l))
    && (forall code | code in {InvalidRequest, UnknownUser, UnknownLicence, LicenceAmbiguous} ::
          EndedAs(after, NeedsClarification, code) <==> FailsWith(b, email, product, code))
    && (after.completed ==>
          && after.reason.Some? && after.detail.Some?
          && OnlyEnded(before, after, NeedsClarification, after.reason.value, after.detail.value)
          && SaysWhyUnresolved(b, email, product, after.reason.value, after.detail.value))
    && (!after.completed ==> after.status == Resolved)
  }

  lemma ResolvesAsRead(b: Store, rec: RunRec, email: string, product: string)
    requires UniqueNames(b) && rec.run.status == Received && !rec.run.completed
    ensures Resolve(b, email, product).Ok?
    ensures ResolvedAsRead(b, rec.run, email, product, ResolveTx(rec, Ok(Resolve(b, email, product).value)).run)
  {
    hide ValidTexts, Names, UniqueNames, Resolve, SaysWhyUnresolved;
    FailureCodesInPriority(b, email, product);
    var found := Resolve(b, email, product).value;
    if found.Unresolved? {
      UnresolvedSaysWhy(b, email, product);
      UnresolvedHasCode(b, email, product);
    } else {
      ResolvedGoalHasTexts(b, email, product);
    }
    forall u, l
      ensures found == ResolvedTo(Goal(u, l, email, product)) <==> ValidTexts(email, product) && Names(b, email, product, u, l)
    {
      ResolvesExactlyWhenNamed(b, email, product, u, l);
    }
  }

  lemma ResolvedGoalHasTexts(b: Store, email: string, product: string)
    ensures Resolve(b, email, product).Ok? && Resolve(b, email, product).value.ResolvedTo? ==>
      var goal := Resolve(b, email, product).value.goal; goal == Goal(goal.userId, goal.licenceId, email, product)
  {
    hide FindUserByEmail, FindLicencesByProduct;
  }

  /** Resolution, exactly, by the committed state that it read and whatever people
      did before its last transaction: the run is RESOLVED to the rows that its
      two texts name if there are such and the licence is the only one; otherwise
      it ends NEEDS_CLARIFICATION under the first condition that fails. */
  lemma ResolutionIsExact(events: seq<Event>, r: nat, rec: RunRec, people: seq<HumanStep>)
    requires RunIn(events, r, rec) && Known(events, r) && FrameOf(events, r).Resolving?
    ensures var later := events + ResolutionEnd(r, false, people);
      && Known(later, r) && FrameOf(later, r).Idle?
      && rec.run.email.Some? && rec.run.product.Some?
      && RecOf(later, r).calls == rec.calls && RecOf(later, r).models == rec.models
      && ResolvedAsRead(StateAfter(events).db.store, rec.run, rec.run.email.value, rec.run.product.value, RecOf(later, r).run)
  {
    hide StateAfter, RunInv, SoundStore, Resolve, ResolvedAsRead, UniqueNames, ResolveTx;
    var f := FrameOf(events, r);
    RunInHasInv(events, r, rec);
    ResolvingIsOpen(StateAfter(events).db.store, r, rec, f);
    SoundHasUniqueNames(StateAfter(events).db.store);
    ResolvesAsRead(StateAfter(events).db.store, rec, f.email, f.product);
    ResolutionSteps(events, r, rec, f, false, people);
    KeepsTraces(rec, Ok(Resolve(StateAfter(events).db.store, f.email, f.product).value));
  }

  lemma KeepsTraces(rec: RunRec, found: Result<Resolution, string>)
    ensures ResolveTx(rec, found).calls == rec.calls && ResolveTx(rec, found).models == rec.models
  {
  }

  lemma ResolutionSteps(events: seq<Event>, r: nat, rec: RunRec, f: Frame, fault: bool, people: seq<HumanStep>)
    requires Known(events, r) && RecOf(events, r) == rec && FrameOf(events, r) == f && f.Resolving?
    ensures var later := events + ResolutionEnd(r, fault, people);
      var found := if fault then Err("OperationalError")
                   else match Resolve(StateAfter(events).db.store, f.email, f.product)
                     case Ok(resolution) => Ok(resolution)
                     case Err(_) => Err("MultipleResultsFound");
      Known(later, r) && FrameOf(later, r).Idle? && RecOf(later, r) == ResolveTx(rec, found)
  {
    hide StateAfter, Resolve, ResolveTx;
    Extend(events, On(r, Lookup(fault)));
    var read := events + [On(r, Lookup(fault))];
    PeopleKeep(read, people, r);
    Extend(read + Humans(people), On(r, EndResolve));
    assert events + ResolutionEnd(r, fault, people) == read + Humans(people) + [On(r, EndResolve)];
  }

  lemma ResolvingIsOpen(b: Store, r: nat, rec: RunRec, f: Frame)
    requires RunInv(b, r, rec, f) && f.Resolving?
    ensures rec.run.status == Received && !rec.run.completed
    ensures rec.run.email == Some(f.email) && rec.run.product == Some(f.product)
  {
    hide TraceOk, BudgetOk, OneAttempt, AttributionOk, EventsOf, Grounded, CallsOk, EndingOk;
  }

  /** If the read itself fails, the run ends FAILED. */
  lemma FailedLookupEndsRun(events: seq<Event>, r: nat, rec: RunRec, people: seq<HumanStep>)
    requires RunIn(events, r, rec) && Known(events, r) && FrameOf(events, r).Resolving?
    ensures var later := events + ResolutionEnd(r, true, people);
      && Known(later, r)
      && OnlyEnded(rec.run, RecOf(later, r).run, RunStatus.Failed, UnexpectedFailure,
                   UnexpectedDetail("resolution", "OperationalError"))
  {
    hide StateAfter, RunInv, SoundStore, Resolve;
    RunInHasInv(events, r, rec);
    ResolvingIsOpen(StateAfter(events).db.store, r, rec, FrameOf(events, r));
    ResolutionSteps(events, r, rec, FrameOf(events, r), true, people);
  }

  // --- the start of each stage ---------------------------------------------------------------

  /** Each stage starts exactly from a run that waits for it. Starting the decision
      records what the model will be told; the others write nothing. */
  lemma StagesStartExactly(events: seq<Event>, r: nat, rec: RunRec, e: RunEvent)
    requires RunIn(events, r, rec) && Known(events, r) && FrameOf(events, r).Idle?
    requires e.BeginExtract? || e.BeginResolve? || e.BeginDecide?
    ensures var later := events + [On(r, e)];
      var ready := if e.BeginExtract? then rec.run.status == Received && rec.run.email.None?
                   else if e.BeginResolve? then rec.run.status == Received && rec.run.email.Some? && rec.run.product.Some?
                   else rec.run.status == Resolved;
      && Known(later, r) && StateAfter(later).db.store == StateAfter(events).db.store
      && (!ready ==> RecOf(later, r) == rec && FrameOf(later, r) == Idle)
      && (ready && e.BeginExtract? ==> RecOf(later, r) == rec && FrameOf(later, r) == Extracting)
      && (ready && e.BeginResolve? ==>
            RecOf(later, r) == rec && FrameOf(later, r) == Resolving(rec.run.email.value, rec.run.product.value))
      && (ready && e.BeginDecide? ==>
            && rec.run.email.Some? && rec.run.product.Some? && FrameOf(later, r) == Deciding
            && RecOf(later, r) == rec.(run := rec.run.(
                 status := Executing, context := Some(Context(rec.run.email.value, rec.run.product.value)))))
  {
    hide StateAfter, RunInv, SoundStore;
    RunInHasInv(events, r, rec);
    WaitsFor(StateAfter(events).db.store, r, rec, FrameOf(events, r));
    Extend(events, On(r, e));
  }

  lemma WaitsFor(b: Store, r: nat, rec: RunRec, f: Frame)
    requires RunInv(b, r, rec, f)
    ensures rec.run.email.Some? <==> rec.run.product.Some?
    ensures rec.run.status == Resolved ==> PersistedGoal(rec.run).Some?
  {
    hide TraceOk, BudgetOk, OneAttempt, AttributionOk, EventsOf, Grounded, CallsOk, EndingOk, FrameOk;
  }

  // --- a decision that does not conclude ---------------------------------------------------------

  /** An exception of the planner ends an executing run FAILED, with what it was;
      an outcome that already stands is kept. */
  lemma AbortIsExact(events: seq<Event>, r: nat, rec: RunRec, why: Abort)
    requires RunIn(events, r, rec) && Known(events, r) && FrameOf(events, r).Deciding?
    ensures var later := events + [On(r, AbortDecision(why))];
      && Known(later, r) && FrameOf(later, r).Idle? && StateAfter(later).db.store == StateAfter(events).db.store
      && RecOf(later, r).calls == rec.calls && RecOf(later, r).models == rec.models
      && if rec.run.status != Executing then RecOf(later, r) == rec
         else match why
           case PlannerError(code, errorType) =>
             OnlyEnded(rec.run, RecOf(later, r).run, RunStatus.Failed, PlannerFailed, PlannerDetail(Decision, code, errorType, []))
           case Thrown(thrown) =>
             OnlyEnded(rec.run, RecOf(later, r).run, RunStatus.Failed, UnexpectedFailure, UnexpectedDetail("decision", thrown))
  {
    hide StateAfter, RunInv, SoundStore;
    RunInHasInv(events, r, rec);
    Extend(events, On(r, AbortDecision(why)));
    if rec.run.status == Executing {
      ExecutingHasGoal(StateAfter(events).db.store, r, rec, Deciding);
    }
  }
}
