/** What the invariant means for every history of the machine: any planner, any
    number of runs interleaved, people at work between transactions, and a
    crash after any of them. */
module Guarantees {
  import opened Basics
  import opened Text
  import opened Domain
  import opened AgentRows
  import opened SqlChecks
  import opened Services
  import opened Resolution
  import opened Tools
  import opened Machine
  import opened Invariant

  /** `rec` is run `r` as committed after the history. */
  predicate RunIn(events: seq<Event>, r: nat, rec: RunRec) {
    r < |StateAfter(events).db.runs| && StateAfter(events).db.runs[r] == rec
  }

  predicate StoreIn(events: seq<Event>, b: Store) {
    StateAfter(events).db.store == b
  }

  lemma RunInHasInv(events: seq<Event>, r: nat, rec: RunRec)
    requires RunIn(events, r, rec)
    ensures StateInv(StateAfter(events))
    ensures RunInv(StateAfter(events).db.store, r, rec, StateAfter(events).frames[r])
  {
    hide StateAfter, RunInv;
    Reachable(events);
  }

  // --- rows ------------------------------------------------------------------------

  /** No commit is ever refused: each committed row passes every CHECK, with
      NULLs as SQL treats them, and refers only to rows that exist. */
  lemma CommittedRowsAreAccepted(events: seq<Event>, r: nat, rec: RunRec)
    requires RunIn(events, r, rec)
    ensures RunAccepted(R0007, rec.run)
    ensures forall i | 0 <= i < |rec.calls| :: CallAccepted(R0007, rec.calls[i])
    ensures forall i | 0 <= i < |rec.models| :: ModelCallAccepted(rec.models[i])
    ensures RefsOk(StateAfter(events).db.store, rec.run)
  {
    hide StateAfter;
    RunInHasInv(events, r, rec);
    RunAcceptedIffShape(rec.run);
    forall i | 0 <= i < |rec.calls| ensures CallAccepted(R0007, rec.calls[i]) {
      assert CallOk(rec.run, rec.calls[i], i == |rec.calls| - 1);
      CallAcceptedIffShape(rec.calls[i]);
    }
  }

  /** At most one call is unfinished, and none once the run is paused, is being
      verified, or ended other than by failing. */
  lemma UnfinishedCallIsUnique(events: seq<Event>, r: nat, rec: RunRec)
    requires RunIn(events, r, rec)
    ensures forall i, j | 0 <= i < |rec.calls| && 0 <= j < |rec.calls| ::
              rec.calls[i].status == Started && rec.calls[j].status == Started ==> i == j
    ensures AnyStarted(rec.calls) ==> rec.run.status == Executing || rec.run.status.Failed?
  {
    hide StateAfter;
    RunInHasInv(events, r, rec);
    assert forall i | 0 <= i < |rec.calls| :: CallOk(rec.run, rec.calls[i], i == |rec.calls| - 1);
  }

  /** Over every history the audit log replays to exactly the assignments table,
      no licence is over-filled, no pair holds two active rows, and a licence's
      available seats are its total less those taken. */
  lemma TablesStaySound(events: seq<Event>, b: Store)
    requires StoreIn(events, b)
    ensures Replay(b.audit) == Some(b.assignments)
    ensures OneActiveRowPerPair(b.assignments)
    ensures forall l | l in b.licences ::
      && SeatsTaken(b.assignments, l) <= b.licences[l].seatsTotal
      && GetSeatUsage(b, l).Ok?
      && GetSeatUsage(b, l).value.Available() == b.licences[l].seatsTotal - SeatsTaken(b.assignments, l)
  {
    hide StateAfter, RunInv, Replay, SeatsTaken;
    Reachable(events);
  }

  // --- budget --------------------------------------------------------------------------

  lemma {:induction false} CountsCoverCalls(calls: seq<ToolCall>)
    ensures |calls| == CountCalls(calls, true) + CountCalls(calls, false)
  {
    if calls != [] {
      CountsCoverCalls(calls[..|calls| - 1]);
    }
  }

  /** Whatever the planner does: at most 6 reads and 1 mutation are admitted,
      at most one call is refused over a limit, and so at most 8 are recorded. */
  lemma CallsStayWithinBudget(events: seq<Event>, r: nat, rec: RunRec)
    requires RunIn(events, r, rec)
    ensures CountCalls(rec.calls, false) <= MAX_DECISION_READ_CALLS + Overrun(rec.calls, false)
    ensures CountCalls(rec.calls, true) <= MAX_DECISION_MUTATION_CALLS + Overrun(rec.calls, true)
    ensures forall i | 0 <= i < |rec.calls| && RefusedByLimit(rec.calls[i]) :: i == |rec.calls| - 1
    ensures |rec.calls| <= 8
  {
    hide StateAfter;
    RunInHasInv(events, r, rec);
    CountsCoverCalls(rec.calls);
    forall i | 0 <= i < |rec.calls| && RefusedByLimit(rec.calls[i]) ensures i == |rec.calls| - 1 {
      assert CallOk(rec.run, rec.calls[i], i == |rec.calls| - 1);
    }
  }

  // --- trace -----------------------------------------------------------------------------

  datatype TraceEntry = OfModel(model: ModelCall) | OfTool(call: ToolCall) {
    function SeqNo(): int { if OfModel? then model.seqNo else call.seqNo }
  }

  /** The run's rows of both tables, the later last row last. */
  function ListTrace(calls: seq<ToolCall>, models: seq<ModelCall>): seq<TraceEntry>
    decreases |calls| + |models|
  {
    if calls == [] && models == [] then []
    else if models == [] || (calls != [] && calls[|calls| - 1].seqNo > models[|models| - 1].seqNo)
    then ListTrace(calls[..|calls| - 1], models) + [OfTool(calls[|calls| - 1])]
    else ListTrace(calls, models[..|models| - 1]) + [OfModel(models[|models| - 1])]
  }

  predicate SortedByNumber(t: seq<TraceEntry>) {
    forall i, j | 0 <= i < j < |t| :: t[i].SeqNo() <= t[j].SeqNo()
  }

  /** The last of the sorted entries is the last number. */
  lemma SortedLast(numbered: seq<TraceEntry>, t: seq<TraceEntry>)
    requires numbered != [] && |t| == |numbered|
    requires forall i | 0 <= i < |numbered| :: numbered[i].SeqNo() == i + 1
    requires SortedByNumber(t) && multiset(t) == multiset(numbered)
    ensures t[|t| - 1] == numbered[|numbered| - 1]
  {
    var last := numbered[|numbered| - 1];
    assert last in multiset(numbered) && last in t;
    var j :| 0 <= j < |t| && t[j] == last;
    assert t[|t| - 1] in multiset(t) && t[|t| - 1] in numbered;
    assert t[j].SeqNo() <= t[|t| - 1].SeqNo();
  }

  lemma SameLengthIfSameElements<T>(s: seq<T>, t: seq<T>)
    requires multiset(s) == multiset(t)
    ensures |s| == |t|
  {
    assert |multiset(s)| == |multiset(t)|;
  }

  lemma SameElementsBeforeLast<T>(s: seq<T>, t: seq<T>)
    requires |s| == |t| > 0 && multiset(s) == multiset(t) && s[|s| - 1] == t[|t| - 1]
    ensures multiset(s[..|s| - 1]) == multiset(t[..|t| - 1])
  {
    var last := s[|s| - 1];
    assert s == s[..|s| - 1] + [last] && t == t[..|t| - 1] + [last];
    assert multiset(s[..|s| - 1]) == multiset(s) - multiset{last};
    assert multiset(t[..|t| - 1]) == multiset(t) - multiset{last};
  }

  /** Sorting numbered entries, in any way, puts each at its number. */
  lemma {:induction false} SortingNumbersIsUnique(numbered: seq<TraceEntry>, t: seq<TraceEntry>)
    requires forall i | 0 <= i < |numbered| :: numbered[i].SeqNo() == i + 1
    requires SortedByNumber(t) && multiset(t) == multiset(numbered)
    ensures t == numbered
  {
    SameLengthIfSameElements(numbered, t);
    var n := |numbered|;
    if n > 0 {
      SortedLast(numbered, t);
      SameElementsBeforeLast(numbered, t);
      SortingNumbersIsUnique(numbered[..n - 1], t[..n - 1]);
      assert t == t[..n - 1] + [t[n - 1]] && numbered == numbered[..n - 1] + [t[n - 1]];
    }
  }

  lemma {:induction false} InterleavedIsNumbered(calls: seq<ToolCall>, models: seq<ModelCall>, n: int)
    requires TraceOk(calls, models, n)
    ensures |ListTrace(calls, models)| == n == |calls| + |models|
    ensures forall i | 0 <= i < n :: ListTrace(calls, models)[i].SeqNo() == i + 1
    decreases |calls| + |models|
  {
    InterleavedBounds(CallNumbers(calls), ModelNumbers(models), n);
    var c, m := |calls| - 1, |models| - 1;
    if calls != [] {
      assert CallNumbers(calls)[..c] == CallNumbers(calls[..c]);
      assert CallNumbers(calls)[c] in CallNumbers(calls);
    }
    if models != [] {
      assert ModelNumbers(models)[..m] == ModelNumbers(models[..m]);
      assert ModelNumbers(models)[m] in ModelNumbers(models);
    }
    if calls != [] && calls[c].seqNo == n {
      InterleavedIsNumbered(calls[..c], models, n - 1);
      if models != [] {
        InterleavedBounds(CallNumbers(calls[..c]), ModelNumbers(models), n - 1);
      }
    } else if models != [] {
      InterleavedIsNumbered(calls, models[..m], n - 1);
    }
  }

  /** The entries as the two queries return them, before they are sorted. */
  function Entries(calls: seq<ToolCall>, models: seq<ModelCall>): seq<TraceEntry> {
    seq(|models|, i requires 0 <= i < |models| => OfModel(models[i]))
    + seq(|calls|, i requires 0 <= i < |calls| => OfTool(calls[i]))
  }

  lemma LastCallEntry(calls: seq<ToolCall>, models: seq<ModelCall>)
    requires calls != []
    ensures multiset(Entries(calls, models))
         == multiset(Entries(calls[..|calls| - 1], models)) + multiset{OfTool(calls[|calls| - 1])}
  {
    assert Entries(calls, models) == Entries(calls[..|calls| - 1], models) + [OfTool(calls[|calls| - 1])];
  }

  lemma LastModelEntry(calls: seq<ToolCall>, models: seq<ModelCall>)
    requires models != []
    ensures multiset(Entries(calls, models))
         == multiset(Entries(calls, models[..|models| - 1])) + multiset{OfModel(models[|models| - 1])}
  {
    var last := |models| - 1;
    var before, rest := seq(last, i requires 0 <= i < last => OfModel(models[i])), Entries(calls, []);
    assert Entries(calls, models) == before + [OfModel(models[last])] + rest;
    assert Entries(calls, models[..last]) == before + rest;
  }

  lemma {:induction false} ListTraceHoldsAll(calls: seq<ToolCall>, models: seq<ModelCall>)
    ensures multiset(ListTrace(calls, models)) == multiset(Entries(calls, models))
    decreases |calls| + |models|
  {
    hide Entries;
    if calls == [] && models == [] {
      NoEntries();
    } else if models == [] || (calls != [] && calls[|calls| - 1].seqNo > models[|models| - 1].seqNo) {
      LastCallEntry(calls, models);
      ListTraceHoldsAll(calls[..|calls| - 1], models);
    } else {
      LastModelEntry(calls, models);
      ListTraceHoldsAll(calls, models[..|models| - 1]);
    }
  }

  lemma NoEntries()
    ensures Entries([], []) == []
  {
  }

  /** A run's trace carries exactly the numbers 1 to `last_sequence_no`, each
      once, across both tables: however the two tables' rows are sorted by
      number, entry i is number i + 1, and there is one such order. */
  lemma TraceIsNumbered(events: seq<Event>, r: nat, rec: RunRec, t: seq<TraceEntry>)
    requires RunIn(events, r, rec)
    requires SortedByNumber(t) && multiset(t) == multiset(Entries(rec.calls, rec.models))
    ensures |t| == rec.run.lastSeq == |rec.calls| + |rec.models|
    ensures forall i | 0 <= i < |t| :: t[i].SeqNo() == i + 1
    ensures t == ListTrace(rec.calls, rec.models)
  {
    hide StateAfter, Entries, ListTrace;
    RunInHasInv(events, r, rec);
    InterleavedIsNumbered(rec.calls, rec.models, rec.run.lastSeq);
    ListTraceHoldsAll(rec.calls, rec.models);
    SortingNumbersIsUnique(ListTrace(rec.calls, rec.models), t);
  }

  // --- how a run may change ---------------------------------------------------------------

  /** The same call later: unchanged once it has an outcome, and never
      renumbered or redirected. */
  predicate CallLater(c: ToolCall, later: ToolCall) {
    && (c.status != Started ==> later == c)
    && (later.status == Started ==> later == c)
    && later.seqNo == c.seqNo && later.tool == c.tool && later.args == c.args && later.policy == c.policy
  }

  predicate TraceExtends(rec: RunRec, later: RunRec) {
    && |rec.calls| <= |later.calls|
    && (forall i | 0 <= i < |rec.calls| :: CallLater(rec.calls[i], later.calls[i]))
    && rec.models <= later.models
    && rec.run.lastSeq <= later.run.lastSeq
  }

  /** What was asked and what it was resolved to never change once written. */
  predicate IdentityKept(run: AgentRun, later: AgentRun) {
    && later.instruction == run.instruction && later.requestingActor == run.requestingActor
    && (run.email.Some? ==> later.email == run.email)
    && (run.product.Some? ==> later.product == run.product)
    && (run.userId.Some? ==> later.userId == run.userId)
    && (run.licenceId.Some? ==> later.licenceId == run.licenceId)
    && (run.context.Some? ==> later.context == run.context)
    && (run.proposal.Some? ==> later.proposal == run.proposal && later.claim == run.claim)
  }

  /** An ended run is frozen: only model calls and the trace counter may grow. */
  predicate FrozenIfEnded(rec: RunRec, later: RunRec) {
    rec.run.completed ==> later.run == rec.run.(lastSeq := later.run.lastSeq) && later.calls == rec.calls
  }

  predicate Evolves(rec: RunRec, later: RunRec) {
    TraceExtends(rec, later) && IdentityKept(rec.run, later.run) && FrozenIfEnded(rec, later)
  }

  /** The documented status machine, and the one move it does not document:
      a paused run that the request limit ends. */
  predicate StatusMove(status: RunStatus, later: RunStatus) {
    || later == status
    || match status
       case Received => later == Resolved || later == NeedsClarification || later.Failed?
       case Resolved => later == Executing
       case Executing => later == Verifying || later == AwaitingApproval || later == Blocked || later.Failed?
       case Verifying => later == Completed || later == Blocked || later.Failed?
       case AwaitingApproval => later.Failed?
       case _ => false
  }

  lemma RowStepEvolves(b: Store, r: nat, rec: RunRec, f: Frame, e: RunEvent)
    requires RunShape(rec.run) && StageOk(rec.run) && FrameOk(b, rec, f)
    requires !e.Record? && !e.Admit? && !e.Report?
    ensures var later := RunStep(b, r, rec, f, e).rec;
            Evolves(rec, later) && StatusMove(rec.run.status, later.run.status)
  {
    hide Resolve, VerifyRead, AnyMutationSucceeded, BlockingRejection, RejectedCall, BusinessTx, UngroundedFields;
    hide RecordTx, AdmitTx, ReportTx, CountStage, AnyStarted;
  }

  lemma RecordEvolves(rec: RunRec, stage: Stage, record: ModelRecord)
    ensures var later := RecordTx(rec, stage, record).0;
            Evolves(rec, later) && StatusMove(rec.run.status, later.run.status)
  {
    hide ModelCallAccepted;
  }

  lemma AdmitEvolves(b: Store, rec: RunRec, tool: Tool)
    requires RunShape(rec.run)
    ensures var later := AdmitTx(b, rec, tool).0;
            Evolves(rec, later) && StatusMove(rec.run.status, later.run.status)
  {
    hide CountCalls, AnyStarted, PersistedGoal;
  }

  lemma ReportEvolves(rec: RunRec, f: Frame)
    requires RunShape(rec.run) && f.Ran? && InCall(rec, f.call, f.tool, f.goal)
    ensures var later := ReportTx(rec, f.call, f.tool, f.goal, f.outcome).0;
            Evolves(rec, later) && StatusMove(rec.run.status, later.run.status)
  {
    hide Observe;
  }

  lemma CallStepEvolves(b: Store, r: nat, rec: RunRec, f: Frame, e: RunEvent)
    requires RunShape(rec.run) && FrameOk(b, rec, f)
    requires e.Record? || e.Admit? || e.Report?
    ensures var later := RunStep(b, r, rec, f, e).rec;
            Evolves(rec, later) && StatusMove(rec.run.status, later.run.status)
  {
    hide RecordTx, AdmitTx, ReportTx, Evolves, StatusMove, RunShape;
    EvolvesReflexive(rec);
    match e
    case Record(stage, record) => RecordEvolves(rec, stage, record);
    case Admit(tool) => AdmitEvolves(b, rec, tool);
    case Report => if f.Ran? { ReportEvolves(rec, f); }
  }

  lemma StepEvolves(s: State, e: Event, r: nat)
    requires StateInv(s) && r < |s.db.runs|
    ensures r < |Step(s, e).db.runs| && Evolves(s.db.runs[r], Step(s, e).db.runs[r])
    ensures StatusMove(s.db.runs[r].run.status, Step(s, e).db.runs[r].run.status)
  {
    hide RunStep, ValidatedRequest, HumanTx, SoundStore, StatusMove, TraceExtends, IdentityKept, FrozenIfEnded, FrameOk;
    var rec := s.db.runs[r];
    assert RunInv(s.db.store, r, rec, s.frames[r]);
    if e.On? && e.r == r {
      if e.e.Record? || e.e.Admit? || e.e.Report? {
        CallStepEvolves(s.db.store, r, rec, s.frames[r], e.e);
      } else {
        RowStepEvolves(s.db.store, r, rec, s.frames[r], e.e);
      }
    } else {
      assert Step(s, e).db.runs[r] == rec;
      EvolvesReflexive(rec);
    }
  }

  lemma EvolvesReflexive(rec: RunRec)
    ensures Evolves(rec, rec) && StatusMove(rec.run.status, rec.run.status)
  {
  }

  lemma EvolvesTransitive(rec: RunRec, mid: RunRec, later: RunRec)
    requires Evolves(rec, mid) && Evolves(mid, later)
    ensures Evolves(rec, later)
  {
    forall i | 0 <= i < |rec.calls| ensures CallLater(rec.calls[i], later.calls[i]) {
      assert CallLater(rec.calls[i], mid.calls[i]) && CallLater(mid.calls[i], later.calls[i]);
    }
  }

  /** Whatever happens next, a run's trace is only extended, its goal is kept,
      and once it has ended it is frozen. */
  lemma {:induction false} RunsEvolve(events: seq<Event>, more: seq<Event>, r: nat, rec: RunRec)
    requires RunIn(events, r, rec)
    ensures r < |StateAfter(events + more).db.runs|
    ensures Evolves(rec, StateAfter(events + more).db.runs[r])
  {
    hide Step, Evolves;
    if more == [] {
      assert events + more == events;
      EvolvesReflexive(rec);
    } else {
      var earlier := events + more[..|more| - 1];
      assert (events + more)[..|events + more| - 1] == earlier;
      RunsEvolve(events, more[..|more| - 1], r, rec);
      Reachable(earlier);
      StepEvolves(StateAfter(earlier), more[|more| - 1], r);
      EvolvesTransitive(rec, StateAfter(earlier).db.runs[r], StateAfter(events + more).db.runs[r]);
    }
  }

  // --- attribution ---------------------------------------------------------------------------

  /** The step is a business transaction of run `r` that commits a change. */
  predicate Commits(s: State, e: Event, r: nat) {
    && e.On? && e.r == r && e.e.Business? && s.Has(r) && s.frames[r].Admitted?
    && s.frames[r].tool.Mutates() && BusinessTx(s.db.store, r, s.frames[r].tool, s.frames[r].goal, e.e.fault).1.Ok?
  }

  function CommitCount(events: seq<Event>, r: nat): nat {
    if events == [] then 0
    else
      var last := |events| - 1;
      CommitCount(events[..last], r) + if Commits(StateAfter(events[..last]), events[last], r) then 1 else 0
  }

  lemma StepEvents(s: State, e: Event, r: nat)
    ensures |EventsOf(Step(s, e).db.store.audit, r)|
         == |EventsOf(s.db.store.audit, r)| + if Commits(s, e, r) then 1 else 0
  {
    hide EventsOf, AgentActor, BusinessTx, HumanTx, ValidatedRequest, ExtractTx, ResolveTx, RecordTx, BeforeRequestTx;
    hide AdmitTx, ReportTx, FinishTx, AbortTx, ConcludeTx, BeginDecideTx, Resolve, VerifyRead, RejectedCall, BlockingRejection;
    match e
    case Receive(_, _) =>
    case Human(step) => HumanWritesNoAgentEvent(s.db.store, step, r);
    case On(q, event) =>
      if s.Has(q) && event.Business? && s.frames[q].Admitted? {
        BusinessWritesOwnEvent(s.db.store, q, s.frames[q].tool, s.frames[q].goal, event.fault);
      }
  }

  /** The events under a run's actor are exactly its committed changes. */
  lemma {:induction false} EventsAreCommits(events: seq<Event>, r: nat)
    ensures |EventsOf(StateAfter(events).db.store.audit, r)| == CommitCount(events, r)
  {
    hide Step, Commits, EventsOf;
    if events == [] {
      assert EventsOf([], r) == [] by { EventsOfNothing(r); }
    } else {
      EventsAreCommits(events[..|events| - 1], r);
      StepEvents(StateAfter(events[..|events| - 1]), events[|events| - 1], r);
    }
  }

  lemma EventsOfNothing(r: nat)
    ensures EventsOf([], r) == []
  {
  }

  function SucceededMutations(calls: seq<ToolCall>): nat {
    if calls == [] then 0
    else
      var c := calls[|calls| - 1];
      SucceededMutations(calls[..|calls| - 1]) + if c.tool.Mutates() && c.status == Succeeded then 1 else 0
  }

  predicate StartedMutation(calls: seq<ToolCall>) {
    exists i :: 0 <= i < |calls| && calls[i].tool.Mutates() && calls[i].status == Started
  }

  lemma {:induction false} OneSucceededMutation(calls: seq<ToolCall>)
    requires OneAttempt(calls)
    requires forall i | 0 <= i < |calls| :: CallShape(calls[i])
    ensures SucceededMutations(calls) == if AnyMutationSucceeded(calls) then 1 else 0
  {
    if calls != [] {
      var last := |calls| - 1;
      OneSucceededMutation(calls[..last]);
      assert forall i | 0 <= i < last :: calls[..last][i] == calls[i];
    }
  }

  /** Exactly-once attribution. The events under a run's actor number its
      SUCCEEDED mutations, plus one if its STARTED mutation has committed; that
      is how often the run's changes committed, and at most once. Such an event
      assigns the run's resolved ids, for a call recorded with those arguments
      and admitted with policy ALLOW. */
  lemma ExactlyOnceAttribution(events: seq<Event>, r: nat, rec: RunRec)
    requires RunIn(events, r, rec)
    ensures var mine := EventsOf(StateAfter(events).db.store.audit, r);
      && |mine| == CommitCount(events, r) <= 1
      && |mine| == SucceededMutations(rec.calls) + (if StartedMutation(rec.calls) then CommitCount(events, r) else 0)
      && (mine != [] ==> AttributedTo(mine[0], rec))
  {
    hide StateAfter;
    RunInHasInv(events, r, rec);
    EventsAreCommits(events, r);
    CountsOfEvents(rec, StateAfter(events).frames[r], StateAfter(events).db.store, r);
  }

  predicate AttributedTo(e: AuditEvent, rec: RunRec) {
    && PersistedGoal(rec.run).Some?
    && GoalEvent(e, PersistedGoal(rec.run).value)
    && exists i :: 0 <= i < |rec.calls| && AllowedAssign(rec.calls[i], PersistedGoal(rec.run).value)
  }

  predicate AllowedAssign(c: ToolCall, goal: Goal) {
    c.tool.Mutates() && c.policy == Some(Allow) && MayHaveCommitted(c) && c.args == ArgumentsOf(AssignSeat, goal)
  }

  lemma CountsOfEvents(rec: RunRec, f: Frame, b: Store, r: nat)
    requires RunInv(b, r, rec, f)
    ensures var mine := EventsOf(b.audit, r);
      && |mine| <= 1
      && |mine| == SucceededMutations(rec.calls) + (if StartedMutation(rec.calls) then |mine| else 0)
      && forall e | e in mine :: AttributedTo(e, rec)
  {
    hide TraceOk, BudgetOk, EventsOf, Grounded, FrameOk, FrameAttributionOk, Observe, RunShape, WordsOk;
    var mine := EventsOf(b.audit, r);
    forall i | 0 <= i < |rec.calls| ensures CallOk(rec.run, rec.calls[i], i == |rec.calls| - 1) {
    }
    OneSucceededMutation(rec.calls);
    if mine != [] {
      var i :| 0 <= i < |rec.calls| && Attempt(rec.calls[i]) && MayHaveCommitted(rec.calls[i]);
      assert AllowedAssign(rec.calls[i], PersistedGoal(rec.run).value);
      OnlyAttempt(rec.calls, i);
    }
  }
}
