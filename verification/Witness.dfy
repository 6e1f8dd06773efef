/** Concrete histories for documented claims that do not hold: a run that was
    paused for approval and then failed, a run that ended and then grew, and a run
    whose recorded output cannot be shown. And two histories that differ only by
    an exchange of row ids, and record different details. */
module Witness {
  import opened Basics
  import opened Listings
  import opened Text
  import opened Domain
  import opened AgentRows
  import opened SqlChecks
  import opened Services
  import opened Resolution
  import opened Tools
  import opened Machine
  import opened Invariant
  import opened Guarantees
  import opened Schedules
  import opened Outputs
  import opened Requests
  import opened Projection
  import opened Renaming
  import opened NonInterference

  const EMAIL := "a@b"
  const PRODUCT := "c"
  const PERSON := "h"
  const INSTRUCTION := "a@b c"
  const RECORD := ModelRecord("m", Some(1), Some(1), 0, Some(map["kind" := Text("goal_reached")]), None)

  const SETUP: seq<Event> := [
    Human(HumanCreateUser(0, EMAIL, "n", PERSON)),
    Human(HumanCreateLicence(0, PRODUCT, 1, RequireApproval, PERSON)),
    Receive(INSTRUCTION, PERSON)]

  const TO_DECISION: seq<Event> := [
    On(0, BeginExtract), On(0, EndExtract(Ensure(EMAIL, PRODUCT))), On(0, BeginResolve), On(0, Lookup(false)),
    On(0, EndResolve), On(0, BeginDecide), On(0, Admit(AssignSeat))]

  lemma Unchanged(s: string)
    requires Trimmed(s) && forall i | 0 <= i < |s| :: !('A' <= s[i] <= 'Z')
    ensures Strip(s) == s && Fold(s) == s
  {
    StripKeepsTrimmed(s);
    assert forall i | 0 <= i < |s| :: FoldChar(s[i]) == s[i];
  }

  lemma TextsAreValid()
    ensures ValidatedEmail(EMAIL) == Ok(EMAIL) && NormalizeEmail(EMAIL) == EMAIL
    ensures RequiredText(PRODUCT, PRODUCT_MAX_LENGTH) == Ok(PRODUCT) && Fold(PRODUCT) == PRODUCT == Strip(PRODUCT)
    ensures RequiredText("n", NAME_MAX_LENGTH) == Ok("n")
    ensures ValidatedActor(PERSON) == Ok(PERSON) && !Reserved(PERSON)
    ensures ValidatedRequest(INSTRUCTION, PERSON) == Some(PERSON)
  {
    Unchanged(EMAIL);
    Unchanged(PRODUCT);
    Unchanged("n");
    Unchanged(PERSON);
    Unchanged(INSTRUCTION);
    assert EMAIL[1] == '@';
  }

  lemma OccursAt(part: string, text: string, i: nat)
    requires i + |part| <= |text| && text[i..i + |part|] == part
    ensures Occurs(part, text)
  {
    assert StandsAt(part, text, i);
  }

  lemma TextsAreGrounded()
    ensures UngroundedFields(EMAIL, PRODUCT, INSTRUCTION) == []
  {
    hide Strip, Fold, Occurs;
    Unchanged(EMAIL);
    Unchanged(PRODUCT);
    Unchanged(INSTRUCTION);
    OccursAt(EMAIL, INSTRUCTION, 0);
    OccursAt(PRODUCT, INSTRUCTION, 4);
    assert Grounded(EMAIL, INSTRUCTION) && Grounded(PRODUCT, INSTRUCTION);
  }

  lemma AfterSetup()
    ensures var s := StateAfter(SETUP);
      && s.db.store.users == map[0 := User(EMAIL, "n", Active)]
      && s.db.store.licences == map[0 := Licence(PRODUCT, 1, RequireApproval)]
      && s.db.runs == [NewRun(INSTRUCTION, PERSON)] && s.frames == [Idle]
  {
    hide ValidatedEmail, RequiredText, ValidatedActor, Reserved, ValidatedRequest, RunStep, NewRun;
    TextsAreValid();
    var a, b := [SETUP[0]], [SETUP[0], SETUP[1]];
    assert SETUP == b + [SETUP[2]] && b == a + [SETUP[1]] && a == [] + [SETUP[0]];
    Extend([], SETUP[0]);
    Extend(a, SETUP[1]);
    Extend(b, SETUP[2]);
  }

  lemma Resolves(b: Store)
    requires b.users == map[0 := User(EMAIL, "n", Active)]
    requires b.licences == map[0 := Licence(PRODUCT, 1, RequireApproval)]
    ensures Resolve(b, EMAIL, PRODUCT) == Ok(ResolvedTo(Goal(0, 0, EMAIL, PRODUCT)))
  {
    hide ValidatedEmail, RequiredText, Fold;
    TextsAreValid();
    assert UsersByEmail(b, EMAIL) == {0};
    assert LicencesByFold(b, Fold(PRODUCT)) == {0};
    assert TheOnly({0}) in {0};
  }

  predicate SeededTables(b: Store) {
    && b.users == map[0 := User(EMAIL, "n", Active)]
    && b.licences == map[0 := Licence(PRODUCT, 1, RequireApproval)]
  }

  /** Where run 0 stands after the events. */
  predicate Stands(events: seq<Event>, rec: RunRec, f: Frame) {
    var s := StateAfter(events);
    SeededTables(s.db.store) && s.Has(0) && s.db.runs[0] == rec && s.frames[0] == f
  }

  lemma Next(events: seq<Event>, e: RunEvent, rec: RunRec, f: Frame, later: RunRec, g: Frame)
    requires Stands(events, rec, f)
    requires forall b | SeededTables(b) ::
      var after := RunStep(b, 0, rec, f, e); after.store == b && after.rec == later && after.frame == g
    ensures Stands(events + [On(0, e)], later, g)
  {
    hide StateAfter, RunStep;
    Extend(events, On(0, e));
  }

  function Received0(): AgentRun {
    NewRun(INSTRUCTION, PERSON).run
  }

  function Extracted0(): AgentRun {
    Received0().(goalType := Some(EnsureAssignment), desiredState := Some(DesiredAssigned),
                 email := Some(EMAIL), product := Some(PRODUCT))
  }

  const GOAL := Goal(0, 0, EMAIL, PRODUCT)

  function Executing0(): AgentRun {
    Extracted0().(userId := Some(0), licenceId := Some(0), context := Some(Context(EMAIL, PRODUCT)), status := Executing)
  }

  function Held0(): RunRec {
    RunRec(Executing0().(status := AwaitingApproval, lastSeq := 1),
           [ToolCall(1, AssignSeat, ArgumentsOf(AssignSeat, GOAL), Held, Some(RequireApproval), None, None, None, false)], [])
  }

  lemma Extracts()
    ensures Stands(SETUP + TO_DECISION[..2], RunRec(Extracted0(), [], []), Idle)
  {
    hide StateAfter, UngroundedFields;
    AfterSetup();
    TextsAreGrounded();
    var t, rec := TO_DECISION, NewRun(INSTRUCTION, PERSON);
    Next(SETUP, t[0].e, rec, Idle, rec, Extracting);
    Next(SETUP + [t[0]], t[1].e, rec, Extracting, RunRec(Extracted0(), [], []), Idle);
    assert SETUP + [t[0]] + [t[1]] == SETUP + t[..2];
  }

  lemma ResolvesRun()
    ensures Stands(SETUP + TO_DECISION[..5], RunRec(Executing0().(context := None, status := Resolved), [], []), Idle)
  {
    hide StateAfter, Resolve;
    Extracts();
    forall b | SeededTables(b) ensures Resolve(b, EMAIL, PRODUCT) == Ok(ResolvedTo(GOAL)) {
      Resolves(b);
    }
    var t, rec := TO_DECISION, RunRec(Extracted0(), [], []);
    var e := SETUP + t[..2];
    Next(e, t[2].e, rec, Idle, rec, Resolving(EMAIL, PRODUCT));
    Next(e + [t[2]], t[3].e, rec, Resolving(EMAIL, PRODUCT), rec, Looked(Ok(ResolvedTo(GOAL))));
    Next(e + [t[2]] + [t[3]], t[4].e, rec, Looked(Ok(ResolvedTo(GOAL))),
         RunRec(Executing0().(context := None, status := Resolved), [], []), Idle);
    assert e + [t[2]] + [t[3]] + [t[4]] == SETUP + t[..5];
  }

  lemma BeginsDeciding()
    ensures Stands(SETUP + TO_DECISION[..6], RunRec(Executing0(), [], []), Deciding)
  {
    hide StateAfter, Resolve;
    ResolvesRun();
    var t := TO_DECISION;
    Next(SETUP + t[..5], t[5].e, RunRec(Executing0().(context := None, status := Resolved), [], []), Idle,
         RunRec(Executing0(), [], []), Deciding);
    assert SETUP + t[..5] + [t[5]] == SETUP + t[..6];
  }

  lemma HoldsMutation()
    ensures Stands(SETUP + TO_DECISION, Held0(), Deciding)
  {
    hide StateAfter, Resolve;
    BeginsDeciding();
    var t := TO_DECISION;
    Next(SETUP + t[..6], t[6].e, RunRec(Executing0(), [], []), Deciding, Held0(), Deciding);
    assert SETUP + t[..6] + [t[6]] == SETUP + t;
  }

  /** The planner carries on after the hold, and makes this many more requests. */
  function Swallowed(requests: nat): seq<Event> {
    if requests == 0 then SETUP + TO_DECISION else Swallowed(requests - 1) + [On(0, Record(Decision, RECORD))]
  }

  predicate PausedAfter(events: seq<Event>, requests: nat) {
    var s := StateAfter(events);
    && s.Has(0) && s.frames[0].Deciding? && s.db.runs[0].run.context.Some?
    && s.db.runs[0].run.status == AwaitingApproval && !s.db.runs[0].run.completed && s.db.runs[0].run.lastSeq >= 0
    && CountStage(s.db.runs[0].models, Decision) == requests
  }

  lemma OneMore(events: seq<Event>, requests: nat)
    requires PausedAfter(events, requests)
    ensures PausedAfter(events + [On(0, Record(Decision, RECORD))], requests + 1)
  {
    hide StateAfter, CountStage;
    Extend(events, On(0, Record(Decision, RECORD)));
    var rec := StateAfter(events).db.runs[0];
    var call := ModelCall(rec.run.lastSeq + 1, Decision, true, RECORD);
    assert ModelCallAccepted(call);
    CountStageAppend(rec.models, call, Decision);
  }

  lemma {:induction false} StaysPaused(requests: nat)
    ensures PausedAfter(Swallowed(requests), requests)
  {
    hide StateAfter, PausedAfter;
    if requests == 0 {
      HoldsMutation();
      HeldIsPaused();
    } else {
      StaysPaused(requests - 1);
      OneMore(Swallowed(requests - 1), requests - 1);
    }
  }

  lemma HeldIsPaused()
    requires Stands(SETUP + TO_DECISION, Held0(), Deciding)
    ensures PausedAfter(SETUP + TO_DECISION, 0)
  {
    hide StateAfter;
  }

  /** This history pauses run 0, and its next step ends it FAILED (step_limit). */
  lemma PausedRunCanFail()
    ensures var events := Swallowed(MAX_DECISION_MODEL_REQUESTS);
      && PausedAfter(events, MAX_DECISION_MODEL_REQUESTS)
      && var later := StateAfter(events + [On(0, BeforeRequest)]);
         later.Has(0) && later.db.runs[0].run.status.Failed? && later.db.runs[0].run.reason == Some(StepLimit)
  {
    hide StateAfter, CountStage, Swallowed;
    var events := Swallowed(MAX_DECISION_MODEL_REQUESTS);
    StaysPaused(MAX_DECISION_MODEL_REQUESTS);
    Extend(events, On(0, BeforeRequest));
  }

  /** The planner makes this many requests, as its contract asks. */
  function Asked(requests: nat): seq<Event> {
    if requests == 0 then SETUP + TO_DECISION[..6]
    else Asked(requests - 1) + [On(0, BeforeRequest)] + [On(0, Record(Decision, RECORD))]
  }

  /** Its next call is held, and it lets the stop through. */
  function LeftPaused(): seq<Event> {
    Asked(MAX_DECISION_MODEL_REQUESTS) + [On(0, Admit(AssignSeat))] + [On(0, StopDecision)]
  }

  predicate DecidesAfter(events: seq<Event>, requests: nat) {
    var s := StateAfter(events);
    && s.Has(0) && s.frames[0].Deciding? && SeededTables(s.db.store) && CountStage(s.db.runs[0].models, Decision) == requests
    && s.db.runs[0].calls == [] && s.db.runs[0].run == Executing0().(lastSeq := requests)
  }

  lemma OneMoreAsked(events: seq<Event>, requests: nat)
    requires DecidesAfter(events, requests) && requests < MAX_DECISION_MODEL_REQUESTS
    ensures DecidesAfter(events + [On(0, BeforeRequest)] + [On(0, Record(Decision, RECORD))], requests + 1)
  {
    hide StateAfter, CountStage;
    var asked := events + [On(0, BeforeRequest)];
    Extend(events, On(0, BeforeRequest));
    Extend(asked, On(0, Record(Decision, RECORD)));
    var call := ModelCall(requests + 1, Decision, true, RECORD);
    assert ModelCallAccepted(call);
    CountStageAppend(StateAfter(events).db.runs[0].models, call, Decision);
  }

  lemma {:induction false} Decides(requests: nat)
    requires requests <= MAX_DECISION_MODEL_REQUESTS
    ensures DecidesAfter(Asked(requests), requests)
  {
    hide StateAfter, DecidesAfter;
    if requests == 0 {
      BeginsDeciding();
      NothingAsked();
    } else {
      Decides(requests - 1);
      OneMoreAsked(Asked(requests - 1), requests - 1);
    }
  }

  lemma NothingAsked()
    requires Stands(SETUP + TO_DECISION[..6], RunRec(Executing0(), [], []), Deciding)
    ensures DecidesAfter(SETUP + TO_DECISION[..6], 0)
  {
    hide StateAfter;
  }

  lemma HeldAfter(events: seq<Event>, requests: nat)
    requires DecidesAfter(events, requests)
    ensures PausedAfter(events + [On(0, Admit(AssignSeat))], requests)
  {
    hide StateAfter, CountStage;
    Extend(events, On(0, Admit(AssignSeat)));
  }

  /** This planner kept its contract, and run 0 is left paused. A request that is
      asked for later, with the recorder it was given, ends the run FAILED. */
  lemma KeptRecorderEndsPausedRun()
    ensures var s := StateAfter(LeftPaused());
      && s.Has(0) && s.frames[0].Idle? && s.db.runs[0].run.status == AwaitingApproval
      && var later := StateAfter(LeftPaused() + [On(0, BeforeRequest)]);
         later.Has(0) && later.db.runs[0].run.status.Failed? && later.db.runs[0].run.reason == Some(StepLimit)
  {
    hide StateAfter, CountStage, Asked;
    var asked := Asked(MAX_DECISION_MODEL_REQUESTS);
    Decides(MAX_DECISION_MODEL_REQUESTS);
    HeldAfter(asked, MAX_DECISION_MODEL_REQUESTS);
    Extend(asked + [On(0, Admit(AssignSeat))], On(0, StopDecision));
    Extend(LeftPaused(), On(0, BeforeRequest));
  }

  /** The run of the first history has ended, and a request its planner still records
      is stored all the same. */
  lemma EndedRunCanGrow()
    ensures var events := Swallowed(MAX_DECISION_MODEL_REQUESTS) + [On(0, BeforeRequest)];
      var later := events + [On(0, Record(Decision, RECORD))];
      && StateAfter(events).Has(0) && StateAfter(events).db.runs[0].run.completed
      && StateAfter(later).Has(0) && |StateAfter(later).db.runs[0].models| == |StateAfter(events).db.runs[0].models| + 1
  {
    hide StateAfter, CountStage, Swallowed;
    var events := Swallowed(MAX_DECISION_MODEL_REQUESTS);
    StaysPaused(MAX_DECISION_MODEL_REQUESTS);
    Extend(events, On(0, BeforeRequest));
    EndedGrows(events + [On(0, BeforeRequest)]);
  }

  lemma EndedGrows(events: seq<Event>)
    requires var s := StateAfter(events);
      s.Has(0) && s.frames[0].Deciding? && s.db.runs[0].run.context.Some? && s.db.runs[0].run.lastSeq >= 0
    ensures var later := StateAfter(events + [On(0, Record(Decision, RECORD))]);
      later.Has(0) && |later.db.runs[0].models| == |StateAfter(events).db.runs[0].models| + 1
  {
    hide StateAfter;
    Extend(events, On(0, Record(Decision, RECORD)));
    var call := ModelCall(StateAfter(events).db.runs[0].run.lastSeq + 1, Decision, true, RECORD);
    assert ModelCallAccepted(call);
  }

  /** Well formed, so the table stores it; but of no kind that the trace knows. */
  const FOREIGN := ModelRecord("m", Some(1), Some(1), 0, Some(map["kind" := Text("foreign")]), None)

  /** A planner may record any output, and this one cannot be shown. */
  lemma RecordedRunCannotBeShown()
    ensures var s := StateAfter(SETUP + TO_DECISION + [On(0, Record(Decision, FOREIGN))]);
      s.Has(0) && ReadOf(s.db.runs[0]) == Err(UnknownOutput)
  {
    hide StateAfter, ReadOf, Readable;
    var before := SETUP + TO_DECISION;
    var e := On(0, Record(Decision, FOREIGN));
    HoldsMutation();
    Extend(before, e);
    ForeignIsStored(StateAfter(before), e);
    var rec := StateAfter(before + [e]).db.runs[0];
    assert !Readable(FOREIGN) by { ForeignIsUnreadable(); }
    assert rec.models[0] in rec.models;
    ViewAccountsForOutcome(before + [e], 0, rec);
  }

  lemma ForeignIsStored(s: State, e: Event)
    requires s.Has(0) && s.db.runs[0] == Held0() && e == On(0, Record(Decision, FOREIGN))
    ensures Step(s, e).Has(0) && |Step(s, e).db.runs[0].models| == 1 && Step(s, e).db.runs[0].models[0].rec == FOREIGN
  {
    assert ModelCallAccepted(ModelCall(2, Decision, true, FOREIGN));
  }

  lemma ForeignIsUnreadable()
    ensures !Readable(FOREIGN)
  {
  }

  // --- ids that show ---------------------------------------------------------------------

  const UPPER := "App"
  const LOWER := "app"
  const BOTH := "a@b app"

  /** The ids of the two licences, exchanged. */
  const SWAP := Ids(u => u, l => if l == 1 then 2 else if l == 2 then 1 else l)

  const TWO_LICENCES: seq<Event> := [
    Human(HumanCreateUser(0, EMAIL, "n", PERSON)),
    Human(HumanCreateLicence(1, UPPER, 1, Allow, PERSON)),
    Human(HumanCreateLicence(2, LOWER, 1, Allow, PERSON)),
    Receive(BOTH, PERSON)]

  const SWAPPED: seq<Event> := [
    Human(HumanCreateUser(0, EMAIL, "n", PERSON)),
    Human(HumanCreateLicence(2, UPPER, 1, Allow, PERSON)),
    Human(HumanCreateLicence(1, LOWER, 1, Allow, PERSON)),
    Receive(BOTH, PERSON)]

  const TO_CLARIFICATION: seq<Event> := [
    On(0, BeginExtract), On(0, EndExtract(Ensure(EMAIL, LOWER))), On(0, BeginResolve), On(0, Lookup(false)), On(0, EndResolve)]

  lemma BothTexts()
    ensures RequiredText(UPPER, PRODUCT_MAX_LENGTH) == Ok(UPPER) && RequiredText(LOWER, PRODUCT_MAX_LENGTH) == Ok(LOWER)
    ensures Fold(UPPER) == LOWER && Fold(LOWER) == LOWER
    ensures ValidatedRequest(BOTH, PERSON) == Some(PERSON)
    ensures UngroundedFields(EMAIL, LOWER, BOTH) == []
  {
    TextsAreValid();
    Unchanged(LOWER);
    Unchanged(BOTH);
    Unchanged(EMAIL);
    StripKeepsTrimmed(UPPER);
    assert Fold(UPPER) == LOWER;
    GroundedInBoth();
  }

  lemma GroundedInBoth()
    ensures UngroundedFields(EMAIL, LOWER, BOTH) == []
  {
    hide Strip, Fold, Occurs;
    Unchanged(LOWER);
    Unchanged(BOTH);
    Unchanged(EMAIL);
    OccursAt(EMAIL, BOTH, 0);
    OccursAt(LOWER, BOTH, 4);
    assert Grounded(EMAIL, BOTH) && Grounded(LOWER, BOTH);
  }

  predicate TwoTables(b: Store, first: string, second: string) {
    && b.users == map[0 := User(EMAIL, "n", Active)]
    && b.licences == map[1 := Licence(first, 1, Allow), 2 := Licence(second, 1, Allow)]
  }

  lemma AddsLicence(b: Store, l: int, product: string)
    requires l !in b.licences && (forall m | m in b.licences :: b.licences[m].product != product)
    requires RequiredText(product, PRODUCT_MAX_LENGTH) == Ok(product)
    ensures var after := HumanTx(b, HumanCreateLicence(l, product, 1, Allow, PERSON));
      after.licences == b.licences[l := Licence(product, 1, Allow)] && after.users == b.users
  {
    hide RequiredText, ValidatedActor, Reserved, ValidatedRequest, ValidatedEmail;
    TextsAreValid();
  }

  lemma AddsUser()
    ensures var after := HumanTx(EMPTY_STORE, HumanCreateUser(0, EMAIL, "n", PERSON));
      after.users == map[0 := User(EMAIL, "n", Active)] && after.licences == map[]
  {
    hide RequiredText, ValidatedActor, Reserved, ValidatedRequest, ValidatedEmail;
    TextsAreValid();
  }

  lemma CreatesTwo(events: seq<Event>, l: int, m: int)
    requires l != m
    requires events == [Human(HumanCreateUser(0, EMAIL, "n", PERSON)), Human(HumanCreateLicence(l, UPPER, 1, Allow, PERSON)),
                        Human(HumanCreateLicence(m, LOWER, 1, Allow, PERSON)), Receive(BOTH, PERSON)]
    ensures var s := StateAfter(events);
      && s.db.store.users == map[0 := User(EMAIL, "n", Active)]
      && s.db.store.licences == map[l := Licence(UPPER, 1, Allow), m := Licence(LOWER, 1, Allow)]
      && s.db.runs == [NewRun(BOTH, PERSON)] && s.frames == [Idle]
  {
    hide RequiredText, ValidatedRequest, RunStep, NewRun, UngroundedFields, Fold, HumanTx;
    BothTexts();
    AddsUser();
    var a, b, c := events[..1], events[..2], events[..3];
    assert events == c + [events[3]] && c == b + [events[2]] && b == a + [events[1]] && a == [] + [events[0]];
    Extend([], events[0]);
    Extend(a, events[1]);
    AddsLicence(StateAfter(a).db.store, l, UPPER);
    Extend(b, events[2]);
    AddsLicence(StateAfter(b).db.store, m, LOWER);
    Extend(c, events[3]);
  }

  lemma ListsBoth(b: Store, first: string, second: string)
    requires TwoTables(b, first, second) && {first, second} == {UPPER, LOWER}
    ensures Resolve(b, EMAIL, LOWER) == Ok(Unresolved(LicenceAmbiguous, AmbiguousDetail(LOWER, [first, second])))
  {
    hide ValidatedEmail, RequiredText, Fold, SortedIds, LicencesByFold, UsersByEmail, InOrder;
    TextsAreValid();
    BothTexts();
    FindsUser(b);
    MatchBoth(b, first, second);
    OneAndTwo();
    assert ProductsOf(b, [1, 2]) == [first, second];
  }

  lemma FindsUser(b: Store)
    requires b.users == map[0 := User(EMAIL, "n", Active)]
    ensures UsersByEmail(b, EMAIL) == {0}
  {
  }

  lemma OneAndTwo()
    ensures SortedIds({1, 2}) == [1, 2]
  {
    hide SortedIds;
    assert InOrder([1, 2], {1, 2});
    InOrderIsUnique(SortedIds({1, 2}), [1, 2], {1, 2});
  }

  lemma MatchBoth(b: Store, first: string, second: string)
    requires TwoTables(b, first, second) && {first, second} == {UPPER, LOWER}
    ensures LicencesByFold(b, LOWER) == {1, 2}
  {
    hide Fold;
    BothTexts();
    assert first in {UPPER, LOWER} && second in {UPPER, LOWER};
  }

  predicate Standing(events: seq<Event>, b: Store, rec: RunRec, f: Frame) {
    var s := StateAfter(events);
    s.db.store == b && s.Has(0) && s.db.runs[0] == rec && s.frames[0] == f
  }

  lemma NextOn(events: seq<Event>, b: Store, e: RunEvent, rec: RunRec, f: Frame, later: RunRec, g: Frame)
    requires Standing(events, b, rec, f)
    requires var after := RunStep(b, 0, rec, f, e); after.store == b && after.rec == later && after.frame == g
    ensures Standing(events + [On(0, e)], b, later, g)
  {
    hide StateAfter, RunStep;
    Extend(events, On(0, e));
  }

  function Extracted1(): RunRec {
    var received := NewRun(BOTH, PERSON);
    received.(run := received.run.(goalType := Some(EnsureAssignment), desiredState := Some(DesiredAssigned),
                                   email := Some(EMAIL), product := Some(LOWER)))
  }

  lemma ExtractsBoth(events: seq<Event>, b: Store)
    requires Standing(events, b, NewRun(BOTH, PERSON), Idle)
    ensures Standing(events + TO_CLARIFICATION[..2], b, Extracted1(), Idle)
  {
    hide StateAfter, UngroundedFields, ValidatedRequest;
    BothTexts();
    var t, received := TO_CLARIFICATION, NewRun(BOTH, PERSON);
    NextOn(events, b, t[0].e, received, Idle, received, Extracting);
    NextOn(events + [t[0]], b, t[1].e, received, Extracting, Extracted1(), Idle);
    assert events + [t[0]] + [t[1]] == events + t[..2];
  }

  /** The run's own steps, from a database that holds both licences. */
  lemma EndsAmbiguous(events: seq<Event>, b: Store, first: string, second: string)
    requires Standing(events, b, NewRun(BOTH, PERSON), Idle)
    requires TwoTables(b, first, second) && {first, second} == {UPPER, LOWER}
    ensures var s := StateAfter(events + TO_CLARIFICATION);
      s.Has(0) && s.db.runs[0].run.detail == Some(AmbiguousDetail(LOWER, [first, second]))
  {
    hide StateAfter, Resolve;
    ExtractsBoth(events, b);
    ListsBoth(b, first, second);
    var t, extracted := TO_CLARIFICATION, Extracted1();
    var detail := AmbiguousDetail(LOWER, [first, second]);
    var found := Looked(Ok(Unresolved(LicenceAmbiguous, detail)));
    var ended := extracted.(run := extracted.run.(
      status := NeedsClarification, reason := Some(LicenceAmbiguous), detail := Some(detail), completed := true));
    var e := events + t[..2];
    NextOn(e, b, t[2].e, extracted, Idle, extracted, Resolving(EMAIL, LOWER));
    NextOn(e + [t[2]], b, t[3].e, extracted, Resolving(EMAIL, LOWER), extracted, found);
    NextOn(e + [t[2]] + [t[3]], b, t[4].e, extracted, found, ended, Idle);
    assert e + [t[2]] + [t[3]] + [t[4]] == events + t;
  }

  lemma SwapRenames()
    ensures SWAP.Injective()
    ensures OfEvents(SWAP, TWO_LICENCES + TO_CLARIFICATION) == SWAPPED + TO_CLARIFICATION
  {
    assert OfEvents(SWAP, TWO_LICENCES) == SWAPPED;
    assert OfEvents(SWAP, TO_CLARIFICATION) == TO_CLARIFICATION;
    assert OfEvents(SWAP, TWO_LICENCES + TO_CLARIFICATION) == OfEvents(SWAP, TWO_LICENCES) + OfEvents(SWAP, TO_CLARIFICATION);
  }

  /** Two histories that differ only by exchanging two licence ids, and leave a
      run with the same outcome but a different recorded detail. */
  lemma CandidateOrderShowsIds()
    ensures SWAP.Injective()
    ensures var (s, t) := (StateAfter(TWO_LICENCES + TO_CLARIFICATION),
                           StateAfter(OfEvents(SWAP, TWO_LICENCES + TO_CLARIFICATION)));
      && s.Has(0) && t.Has(0)
      && s.db.runs[0].run.detail == Some(AmbiguousDetail(LOWER, [UPPER, LOWER]))
      && t.db.runs[0].run.detail == Some(AmbiguousDetail(LOWER, [LOWER, UPPER]))
  {
    hide StateAfter, OfEvents;
    SwapRenames();
    CreatesTwo(TWO_LICENCES, 1, 2);
    CreatesTwo(SWAPPED, 2, 1);
    EndsAmbiguous(TWO_LICENCES, StateAfter(TWO_LICENCES).db.store, UPPER, LOWER);
    EndsAmbiguous(SWAPPED, StateAfter(SWAPPED).db.store, LOWER, UPPER);
  }
}
