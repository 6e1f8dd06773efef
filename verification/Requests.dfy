/** The decision planner the application ships: a model's loop in which every
    request is checked against the limit and then recorded exactly once, and
    every tool the model asks for goes through the executor, one at a time. */
module Requests {
  import opened Basics
  import opened AgentRows
  import opened SqlChecks
  import opened Services
  import opened Resolution
  import opened Tools
  import opened Machine
  import opened Invariant
  import opened Control
  import opened Schedules
  import opened Executor
  import opened Outputs
  import opened Decisions

  /** What the provider makes of one request, and how its library reacts to an
      answer it cannot use. */
  datatype Turn =
    | Unanswered(model: string, elapsed: int, error: string, why: Abort)
    | Replied(model: string, elapsed: int, parts: seq<Part>, inputTokens: int, outputTokens: int, givesUp: bool)

  function OutputOf(asked: Asked): ModelOutput {
    match asked
    case Tools(tools) => ToolsOutput(tools)
    case Conclusion(proposal) => ProposalOutput(proposal)
  }

  /** One record of one request: its accepted output, or why there is none. */
  function RecordWith(turn: Turn, output: Option<ModelOutput>): ModelRecord {
    var latency := if turn.elapsed > 0 then turn.elapsed else 0;
    match turn
    case Unanswered(model, _, error, _) => ModelRecord(model, None, None, latency, None, Some(error))
    case Replied(model, _, _, inputTokens, outputTokens, _) =>
      match output
      case Some(accepted) => ModelRecord(model, Some(inputTokens), Some(outputTokens), latency, Some(Dump(accepted)), None)
      case None => ModelRecord(model, Some(inputTokens), Some(outputTokens), latency, None, Some("invalid_output"))
  }

  /** The decision stage's record of a request. */
  function RecordOf(turn: Turn): ModelRecord {
    RecordWith(turn, match turn
      case Unanswered(_, _, _, _) => None
      case Replied(_, _, parts, _, _, _) =>
        match ParseDecision(parts) case Ok(asked) => Some(OutputOf(asked)) case Err(_) => None)
  }

  /** The extraction stage's record of a request. */
  function IntentRecordOf(turn: Turn, instruction: string): ModelRecord {
    RecordWith(turn, match turn
      case Unanswered(_, _, _, _) => None
      case Replied(_, _, parts, _, _, _) =>
        match ParseIntent(parts, instruction) case Ok(output) => Some(output) case Err(_) => None)
  }

  /** The recorded output is a member of the union that the trace shows. */
  predicate Readable(record: ModelRecord) {
    record.output.Some? ==> ReadOutput(record.output.value).Some?
  }

  /** A request's record says what was asked and answered: who, how long, how many
      tokens, and the accepted output, which reads back as what the response
      parsed to; or why there is none. */
  lemma RecordSaysWhatWasAnswered(turn: Turn)
    ensures var record := RecordOf(turn);
      var accepted := turn.Replied? && ParseDecision(turn.parts).Ok?;
      && record.model == turn.model && record.latency == (if turn.elapsed > 0 then turn.elapsed else 0)
      && (turn.Replied? ==> record.inputTokens == Some(turn.inputTokens) && record.outputTokens == Some(turn.outputTokens))
      && (turn.Unanswered? ==> record.inputTokens.None? && record.outputTokens.None? && record.error == Some(turn.error))
      && (record.output.Some? <==> accepted) && (record.error.None? <==> accepted)
      && (turn.Replied? && !accepted ==> record.error == Some("invalid_output"))
      && (accepted ==>
            match ParseDecision(turn.parts).value
            case Tools(tools) => ReadOutput(record.output.value) == Some(ToolsOutput(tools))
            case Conclusion(p) => ReadOutput(record.output.value) == Some(ProposalOutput(p)))
  {
    hide ReadOutput, ParseDecision, Dump;
    if turn.Replied? && ParseDecision(turn.parts).Ok? {
      var said := OutputOf(ParseDecision(turn.parts).value);
      ReadsExactlyDumps(Dump(said), said);
    }
  }

  /** Whatever a provider answers, the shipped planners record only outputs that
      can be read back. */
  lemma ShippedRecordsAreReadable(turn: Turn, instruction: string)
    ensures Readable(RecordOf(turn)) && Readable(IntentRecordOf(turn, instruction))
  {
    hide ReadOutput, ParseDecision, Dump, CallsOf;
    if turn.Replied? {
      match ParseDecision(turn.parts)
      case Ok(asked) => ReadsExactlyDumps(Dump(OutputOf(asked)), OutputOf(asked));
      case Err(_) =>
    }
    if turn.Replied? && ParseIntent(turn.parts, instruction).Ok? {
      var output := ParseIntent(turn.parts, instruction).value;
      IntendsExactly(turn.parts, instruction, output);
      ReadsExactlyDumps(Dump(output), output);
    }
  }

  /** How one wrapped request comes back to the loop: with an output, with
      feedback for the model, or with an exception before the request, from it,
      or from recording it. */
  datatype Wrapped = Response(asked: Asked) | Retry | StopsLoop | NotAllowed | Unrecorded | Raises(why: Abort)

  const NOT_EXECUTABLE := Thrown("RunNotExecutable")
  const REFUSED_ROW := Thrown("IntegrityError")
  const CALL_RAISED := Thrown("Exception")
  const RETRIES_EXHAUSTED := PlannerError("output_retries_exhausted", Some("UnexpectedModelBehavior"))

  function Requested(events: seq<Event>, r: nat): nat
    requires Known(events, r)
  {
    CountStage(RecOf(events, r).models, Decision)
  }

  // --- what the loop's steps do to the count of requests ---------------------------------

  lemma RecordCounts(events: seq<Event>, r: nat, record: ModelRecord)
    requires Known(events, r) && FrameOf(events, r).Deciding?
    ensures Known(events + [On(r, Record(Decision, record))], r)
    ensures Answer(events, r, Record(Decision, record)) in {Recorded, Raised}
    ensures Requested(events + [On(r, Record(Decision, record))], r)
         == Requested(events, r) + if Answer(events, r, Record(Decision, record)) == Recorded then 1 else 0
  {
    hide StateAfter, CountStage, ModelCallAccepted, HasRecorder;
    DecidingHasRecorder(events, r);
    Extend(events, On(r, Record(Decision, record)));
    var models := RecOf(events, r).models;
    var call := ModelCall(RecOf(events, r).run.lastSeq + 1, Decision, record.error.None?, record);
    CountStageAppend(models, call, Decision);
  }

  lemma GrantedBelowLimit(events: seq<Event>, r: nat)
    requires Known(events, r) && FrameOf(events, r).Deciding?
    ensures Known(events + [On(r, BeforeRequest)], r)
    ensures Answer(events, r, BeforeRequest) in {Granted, Stopped, Refused}
    ensures Answer(events, r, BeforeRequest) == Granted <==> Requested(events, r) < MAX_DECISION_MODEL_REQUESTS
    ensures RecOf(events + [On(r, BeforeRequest)], r).models == RecOf(events, r).models
  {
    hide StateAfter, CountStage;
    Extend(events, On(r, BeforeRequest));
  }

  predicate Recording(e: Event, r: nat) {
    e.On? && e.r == r && e.e.Record?
  }

  lemma OneStepRequests(s: State, r: nat, e: Event)
    requires s.Has(r) && !Recording(e, r)
    ensures Step(s, e).Has(r) && Step(s, e).db.runs[r].models == s.db.runs[r].models
  {
    hide BusinessTx, Resolve, VerifyRead, HumanTx, ValidatedRequest, AnyMutationSucceeded, BlockingRejection, RejectedCall;
    hide CountStage, CountCalls, Observe, UngroundedFields, PersistedGoal, AnyStarted;
  }

  lemma {:induction false} OthersRequestNothing(events: seq<Event>, more: seq<Event>, r: nat)
    requires Known(events, r) && forall e | e in more :: !Recording(e, r)
    ensures Known(events + more, r) && RecOf(events + more, r).models == RecOf(events, r).models
  {
    hide StateAfter, Step;
    if more == [] {
      assert events + more == events;
    } else {
      var before, e := more[..|more| - 1], more[|more| - 1];
      OthersRequestNothing(events, before, r);
      assert events + more == (events + before) + [e];
      Extend(events + before, e);
      OneStepRequests(StateAfter(events + before), r, e);
    }
  }

  lemma CallRequestsNothing(events: seq<Event>, r: nat, tool: Tool, w: Weather)
    requires Known(events, r)
    ensures Known(events + CallEvents(events, r, tool, w), r)
    ensures Requested(events + CallEvents(events, r, tool, w), r) == Requested(events, r)
  {
    hide StateAfter, FrameOf, CountStage;
    OthersRequestNothing(events, CallEvents(events, r, tool, w), r);
  }

  lemma {:induction false} MovesAppend(events: seq<Event>, r: nat, a: seq<Move>, b: seq<Move>)
    ensures var first := MovesEvents(events, r, a);
      MovesEvents(events, r, a + b) == first + MovesEvents(events + first, r, b)
    decreases |a|
  {
    hide MoveEvents;
    if a == [] {
      assert a + b == b && events + [] == events;
    } else {
      var head := MoveEvents(events, r, a[0]);
      MovesAppend(events + head, r, a[1..], b);
      assert (a + b)[1..] == a[1..] + b;
      var tail := MovesEvents(events + head, r, a[1..]);
      assert (events + head) + tail == events + (head + tail);
    }
  }

  /** How many requests a planner's moves record. */
  function Tells(moves: seq<Move>): nat {
    if moves == [] then 0 else (if moves[0].Tell? then 1 else 0) + Tells(moves[1..])
  }

  lemma {:induction false} TellsAppend(a: seq<Move>, b: seq<Move>)
    ensures Tells(a + b) == Tells(a) + Tells(b)
  {
    if a == [] {
      assert a + b == b;
    } else {
      TellsAppend(a[1..], b);
      assert (a + b)[1..] == a[1..] + b;
    }
  }

  lemma NothingTold()
    ensures Tells([]) == 0
  {
  }

  lemma UseTellsNothing(tool: Tool, w: Weather)
    ensures Tells([Use(tool, w)]) == 0
  {
  }

  lemma OneRecord(record: ModelRecord)
    ensures Tells([AskLimit]) == 0 && Tells([AskLimit, Move.Tell(record)]) == 1
  {
    var one := [Move.Tell(record)];
    assert one[1..] == [];
    assert Tells(one) == 1;
    assert [AskLimit, Move.Tell(record)][1..] == one;
  }

  // --- one request ----------------------------------------------------------------------------

  /** What a recorded request gives the loop. */
  function Reaction(turn: Turn): Wrapped {
    match turn
    case Unanswered(_, _, _, why) => Raises(why)
    case Replied(_, _, parts, _, _, givesUp) =>
      match ParseDecision(parts)
      case Ok(asked) => Response(asked)
      case Err(_) => if givesUp then Raises(RETRIES_EXHAUSTED) else Retry
  }

  /** `wrap_model_request`: the check, the request if it is allowed, and then
      exactly one record of it, whatever came of it. */
  method WrapRequest(executor: AgentExecutor, r: nat, turn: Turn) returns (out: Wrapped, made: bool, ghost moves: seq<Move>)
    requires executor.Valid() && Known(executor.history, r) && FrameOf(executor.history, r).Deciding?
    modifies executor, executor.db
    ensures executor.Valid() && Known(executor.history, r) && FrameOf(executor.history, r).Deciding?
    ensures moves == if made then [AskLimit, Move.Tell(RecordOf(turn))] else [AskLimit]
    ensures Tells(moves) == if made then 1 else 0
    ensures executor.history == old(executor.history) + MovesEvents(old(executor.history), r, moves)
    ensures made <==> Requested(old(executor.history), r) < MAX_DECISION_MODEL_REQUESTS
    ensures made <==> !out.StopsLoop? && !out.NotAllowed?
    ensures Requested(executor.history, r) == Requested(old(executor.history), r) + if made && !out.Unrecorded? then 1 else 0
    ensures var asked := MoveAnswer(old(executor.history), r, AskLimit);
      (asked == Granted <==> made) && (asked == Stopped <==> out == StopsLoop) && (asked == Refused <==> out == NotAllowed)
    ensures made ==>
      var told := MoveAnswer(old(executor.history) + MovesEvents(old(executor.history), r, [AskLimit]), r, moves[1]);
      && (told == Recorded <==> out != Unrecorded) && (told == Raised <==> out == Unrecorded)
      && (told == Recorded ==> out == Reaction(turn))
    ensures out == StopsLoop ==> Halted(RecOf(executor.history, r).run)
  {
    hide StateAfter, Answer, ParseDecision, Halted, CountStage, RecordOf, Tells, LastAnswer;
    ghost var start := executor.history;
    OneRecord(RecordOf(turn));
    LastOfOne(start, r, BeforeRequest);
    moves := [AskLimit];
    GrantedBelowLimit(start, r);
    var allowed := executor.BeforeModelRequest(r);
    made := allowed == Granted;
    ghost var checked := executor.history;
    assert checked == start + MovesEvents(start, r, [AskLimit]);
    if !made {
      out := if allowed == Stopped then StopsLoop else NotAllowed;
      return;
    }
    RecordCounts(checked, r, RecordOf(turn));
    LastOfOne(checked, r, Record(Decision, RecordOf(turn)));
    DecidingHasRecorder(checked, r);
    MovesAppend(start, r, [AskLimit], [Move.Tell(RecordOf(turn))]);
    moves := [AskLimit] + [Move.Tell(RecordOf(turn))];
    var stored := executor.RecordCall(r, Decision, RecordOf(turn));
    if stored != Recorded {
      return Unrecorded, made, moves;
    }
    match turn {
      case Unanswered(_, _, _, why) =>
        out := Raises(why);
      case Replied(_, _, parts, _, _, givesUp) =>
        var parsed := ParseDecision(parts);
        out := if parsed.Ok? then Response(parsed.value) else if givesUp then Raises(RETRIES_EXHAUSTED) else Retry;
    }
    assert moves[1] == Move.Tell(RecordOf(turn));
  }

  // --- the loop ------------------------------------------------------------------------------------

  /** What the loop still has to do: requests it may make, then tools it was asked for. */
  function RequestsLeft(events: seq<Event>, r: nat): nat
    requires Known(events, r)
  {
    if Requested(events, r) < MAX_DECISION_MODEL_REQUESTS then MAX_DECISION_MODEL_REQUESTS - Requested(events, r) else 0
  }

  /** The turn's response is accepted, and is this conclusion. */
  predicate ConcludesWith(turn: Turn, proposal: Proposal) {
    turn.Replied? && ParseDecision(turn.parts) == Ok(Conclusion(proposal))
  }

  lemma NoMoves(events: seq<Event>, r: nat)
    ensures events + MovesEvents(events, r, []) == events
  {
  }

  // What the loop does, said of its moves alone: each request is followed by the
  // tools that its response asked for, in order.

  /** The tools that the turn's response asks for, if it is accepted and asks for any. */
  function ToolsAsked(turn: Turn): seq<Tool> {
    if turn.Replied? && ParseDecision(turn.parts).Ok? && ParseDecision(turn.parts).value.Tools?
    then ParseDecision(turn.parts).value.tools
    else []
  }

  function CallsAsked(provider: nat -> Turn, turns: nat): nat {
    if turns == 0 then 0 else CallsAsked(provider, turns - 1) + |ToolsAsked(provider(turns - 1))|
  }

  function Uses(tools: seq<Tool>, world: nat -> Weather, first: nat): (moves: seq<Move>)
    ensures |moves| == |tools| && forall i | 0 <= i < |tools| :: moves[i] == Use(tools[i], world(first + i))
  {
    seq(|tools|, i requires 0 <= i < |tools| => Use(tools[i], world(first + i)))
  }

  /** A request and its record, and then the tools of its response. */
  function RoundOf(turn: Turn, world: nat -> Weather, first: nat): seq<Move> {
    [AskLimit, Move.Tell(RecordOf(turn))] + Uses(ToolsAsked(turn), world, first)
  }

  function Rounds(provider: nat -> Turn, world: nat -> Weather, turns: nat): seq<Move> {
    if turns == 0 then []
    else Rounds(provider, world, turns - 1) + RoundOf(provider(turns - 1), world, CallsAsked(provider, turns - 1))
  }

  /** What a move was answered, made after those before it. */
  function AnswerAt(events: seq<Event>, r: nat, moves: seq<Move>, i: nat): Reply
    requires i < |moves|
  {
    MoveAnswer(events + MovesEvents(events, r, moves[..i]), r, moves[i])
  }

  /** The provider's turn that a move belongs to, or comes before. */
  function TurnAt(provider: nat -> Turn, moves: seq<Move>, i: nat): Turn
    requires i < |moves|
  {
    provider(Tells(moves[..i]))
  }

  /** The loop goes on after the move: the request was granted, or recorded with a
      response that does not conclude and is not given up on, or the model was
      shown what the tool found. */
  predicate GoesOn(turn: Turn, move: Move, answer: Reply) {
    match move
    case AskLimit => answer == Granted
    case Tell(_) =>
      && answer == Recorded && turn.Replied?
      && (match ParseDecision(turn.parts) case Ok(asked) => asked.Tools? case Err(_) => !turn.givesUp)
    case Use(_, _) => answer.Shown?
  }

  /** How the loop ended, at the move where it ended. */
  ghost predicate EndsBy(turn: Turn, move: Move, answer: Reply, ending: Ending, finish: Weather) {
    && (ending.LetThrough? <==> answer == Stopped)
    && (ending.Propose? <==> move.Tell? && answer == Recorded && exists p :: ConcludesWith(turn, p))
    && (ending.Propose? ==> ConcludesWith(turn, ending.proposal) && ending.w == finish)
    && (ending.Abandon? ==>
          ending.why == match move
            case AskLimit => NOT_EXECUTABLE
            case Tell(_) =>
              if answer != Recorded then REFUSED_ROW else if turn.Unanswered? then turn.why else RETRIES_EXHAUSTED
            case Use(_, _) => if answer == Refused then NOT_EXECUTABLE else CALL_RAISED)
  }

  ghost predicate AllGoOn(events: seq<Event>, r: nat, provider: nat -> Turn, moves: seq<Move>) {
    forall i: nat | i < |moves| :: GoesOn(TurnAt(provider, moves, i), moves[i], AnswerAt(events, r, moves, i))
  }

  /** The moves are whole rounds, up to where the loop ended: at a limit check, at
      a request, or at a call. It went on after every move but the last. */
  ghost predicate Plays(
    events: seq<Event>, r: nat, provider: nat -> Turn, world: nat -> Weather, finish: Weather,
    made: nat, moves: seq<Move>, ending: Ending)
  {
    && moves != [] && made == Tells(moves) && moves <= Rounds(provider, world, made) + [AskLimit]
    && var last := |moves| - 1;
       && AllGoOn(events, r, provider, moves[..last])
       && !GoesOn(TurnAt(provider, moves, last), moves[last], AnswerAt(events, r, moves, last))
       && EndsBy(TurnAt(provider, moves, last), moves[last], AnswerAt(events, r, moves, last), ending, finish)
  }

  lemma GoesOnFurther(events: seq<Event>, r: nat, provider: nat -> Turn, moves: seq<Move>, move: Move)
    requires AllGoOn(events, r, provider, moves)
    requires GoesOn(provider(Tells(moves)), move, MoveAnswer(events + MovesEvents(events, r, moves), r, move))
    ensures AllGoOn(events, r, provider, moves + [move])
  {
    hide GoesOn, MoveAnswer, MovesEvents, Tells;
    var more := moves + [move];
    forall i: nat | i < |more| ensures GoesOn(TurnAt(provider, more, i), more[i], AnswerAt(events, r, more, i)) {
      if i < |moves| {
        assert more[..i] == moves[..i];
        assert GoesOn(TurnAt(provider, moves, i), moves[i], AnswerAt(events, r, moves, i));
      } else {
        assert more[..i] == moves;
      }
    }
  }

  lemma PlaysTo(
    events: seq<Event>, r: nat, provider: nat -> Turn, world: nat -> Weather, finish: Weather,
    made: nat, moves: seq<Move>, move: Move, ending: Ending)
    requires AllGoOn(events, r, provider, moves) && made == Tells(moves + [move])
    requires moves + [move] <= Rounds(provider, world, made) + [AskLimit]
    requires var answer := MoveAnswer(events + MovesEvents(events, r, moves), r, move);
      !GoesOn(provider(Tells(moves)), move, answer) && EndsBy(provider(Tells(moves)), move, answer, ending, finish)
    ensures Plays(events, r, provider, world, finish, made, moves + [move], ending)
  {
    hide GoesOn, EndsBy, MoveAnswer, MovesEvents, Tells, Rounds, AllGoOn;
    var more := moves + [move];
    assert more[..|more| - 1] == moves;
  }

  lemma UsesFirst(tools: seq<Tool>, world: nat -> Weather, first: nat)
    requires tools != []
    ensures Uses(tools, world, first) == [Use(tools[0], world(first))] + Uses(tools[1..], world, first + 1)
  {
  }

  lemma Regroup(before: seq<Move>, x: Move, y: Move, after: seq<Move>)
    ensures before + [x] + [y] + after == before + ([x, y] + after)
  {
  }

  lemma NextRound(provider: nat -> Turn, world: nat -> Weather, made: nat, first: nat)
    requires first == CallsAsked(provider, made)
    ensures Rounds(provider, world, made) + [AskLimit] + [Move.Tell(RecordOf(provider(made)))]
            + Uses(ToolsAsked(provider(made)), world, first) == Rounds(provider, world, made + 1)
    ensures CallsAsked(provider, made + 1) == first + |ToolsAsked(provider(made))|
  {
    hide RecordOf, ToolsAsked, Uses;
    Regroup(Rounds(provider, world, made), AskLimit, Move.Tell(RecordOf(provider(made))),
            Uses(ToolsAsked(provider(made)), world, first));
  }

  /** Where the round of turn `k` starts: after a check and a record for each turn
      before it, and the calls that those asked for. */
  function RoundStart(provider: nat -> Turn, k: nat): nat {
    2 * k + CallsAsked(provider, k)
  }

  lemma {:induction false} RoundsStand(provider: nat -> Turn, world: nat -> Weather, turns: nat, k: nat)
    requires k < turns
    ensures |Rounds(provider, world, turns)| == RoundStart(provider, turns)
    ensures RoundStart(provider, k) <= RoundStart(provider, k + 1) <= RoundStart(provider, turns)
    ensures Rounds(provider, world, turns)[RoundStart(provider, k)..RoundStart(provider, k + 1)]
         == RoundOf(provider(k), world, CallsAsked(provider, k))
    decreases turns
  {
    hide ToolsAsked, RecordOf, Uses, Rounds, RoundOf, RoundStart, CallsAsked;
    RoundsLength(provider, world, turns - 1);
    RoundsLength(provider, world, turns);
    var before, round := Rounds(provider, world, turns - 1), RoundOf(provider(turns - 1), world, CallsAsked(provider, turns - 1));
    LastRound(provider, world, turns);
    NextStart(provider, k);
    NextStart(provider, turns - 1);
    if k < turns - 1 {
      RoundsStand(provider, world, turns - 1, k);
      SliceOfFirst(before, round, RoundStart(provider, k), RoundStart(provider, k + 1));
    } else {
      assert (before + round)[|before|..] == round;
    }
  }

  lemma LastRound(provider: nat -> Turn, world: nat -> Weather, turns: nat)
    requires turns > 0
    ensures Rounds(provider, world, turns)
      == Rounds(provider, world, turns - 1) + RoundOf(provider(turns - 1), world, CallsAsked(provider, turns - 1))
  {
  }

  lemma {:induction false} RoundsLength(provider: nat -> Turn, world: nat -> Weather, turns: nat)
    ensures |Rounds(provider, world, turns)| == RoundStart(provider, turns)
  {
    hide ToolsAsked, RecordOf;
    if turns > 0 {
      RoundsLength(provider, world, turns - 1);
    }
  }

  lemma SliceOfFirst(a: seq<Move>, b: seq<Move>, i: nat, j: nat)
    requires i <= j <= |a|
    ensures (a + b)[i..j] == a[i..j]
  {
  }

  lemma {:induction false} RoundsTell(provider: nat -> Turn, world: nat -> Weather, turns: nat)
    ensures Tells(Rounds(provider, world, turns)) == turns
  {
    hide ToolsAsked, RecordOf, Tells;
    if turns == 0 {
      NothingTold();
    } else {
      RoundsTell(provider, world, turns - 1);
      var turn, first := provider(turns - 1), CallsAsked(provider, turns - 1);
      TellsAppend(Rounds(provider, world, turns - 1), RoundOf(turn, world, first));
      TellsAppend([AskLimit, Move.Tell(RecordOf(turn))], Uses(ToolsAsked(turn), world, first));
      OneRecord(RecordOf(turn));
      UsesTellNothing(ToolsAsked(turn), world, first);
    }
  }

  lemma {:induction false} UsesTellNothing(tools: seq<Tool>, world: nat -> Weather, first: nat)
    ensures Tells(Uses(tools, world, first)) == 0
  {
    if tools != [] {
      UsesFirst(tools, world, first);
      UsesTellNothing(tools[1..], world, first + 1);
      assert Uses(tools, world, first)[1..] == Uses(tools[1..], world, first + 1);
    }
  }

  /** The moves hold this turn's check and record, and then its tools in order, as
      far as they go. */
  predicate HoldsRound(provider: nat -> Turn, world: nat -> Weather, moves: seq<Move>, k: nat) {
    var (first, tools) := (RoundStart(provider, k), ToolsAsked(provider(k)));
    && first + 2 <= |moves| && moves[first] == AskLimit && moves[first + 1] == Move.Tell(RecordOf(provider(k)))
    && forall j: nat | j < |tools| && first + 2 + j < |moves| ::
         moves[first + 2 + j] == Use(tools[j], world(CallsAsked(provider, k) + j))
  }

  /** So every response but the last had all of its tools run, in order, before
      the next check; the last had those that the moves still hold. */
  lemma ToolsRunAsAsked(
    events: seq<Event>, r: nat, provider: nat -> Turn, world: nat -> Weather, finish: Weather,
    made: nat, moves: seq<Move>, ending: Ending, k: nat)
    requires Plays(events, r, provider, world, finish, made, moves, ending) && k < made
    ensures HoldsRound(provider, world, moves, k)
    ensures k + 1 < made ==> RoundStart(provider, k) + 2 + |ToolsAsked(provider(k))| < |moves|
  {
    hide AllGoOn, EndsBy, GoesOn, Rounds, HoldsRound, RoundStart;
    RoundIsHeld(provider, world, made, moves, k);
  }

  lemma RoundIsHeld(provider: nat -> Turn, world: nat -> Weather, made: nat, moves: seq<Move>, k: nat)
    requires k < made && moves <= Rounds(provider, world, made) + [AskLimit] && Tells(moves) == made
    ensures HoldsRound(provider, world, moves, k)
    ensures k + 1 < made ==> RoundStart(provider, k) + 2 + |ToolsAsked(provider(k))| < |moves|
  {
    hide ToolsAsked, RecordOf, Tells, Rounds, CallsAsked, RoundStart;
    TellsReach(provider, world, made, moves);
    StartsAscend(provider, k, made - 1);
    MoveOfRound(provider, world, made, moves, k, 0);
    MoveOfRound(provider, world, made, moves, k, 1);
    forall j: nat | j < |ToolsAsked(provider(k))| && RoundStart(provider, k) + 2 + j < |moves|
      ensures moves[RoundStart(provider, k) + 2 + j] == Use(ToolsAsked(provider(k))[j], world(CallsAsked(provider, k) + j))
    {
      MoveOfRound(provider, world, made, moves, k, 2 + j);
    }
    if k + 1 < made {
      StartsAscend(provider, k + 1, made - 1);
      NextStart(provider, k);
    }
  }

  lemma NextStart(provider: nat -> Turn, k: nat)
    ensures RoundStart(provider, k + 1) == RoundStart(provider, k) + 2 + |ToolsAsked(provider(k))|
  {
    hide ToolsAsked;
  }

  lemma MoveOfRound(provider: nat -> Turn, world: nat -> Weather, turns: nat, moves: seq<Move>, k: nat, j: nat)
    requires k < turns && j < 2 + |ToolsAsked(provider(k))| && moves <= Rounds(provider, world, turns) + [AskLimit]
    ensures var at := RoundStart(provider, k) + j;
      at < |moves| ==>
        moves[at] == if j == 0 then AskLimit else if j == 1 then Move.Tell(RecordOf(provider(k)))
                     else Use(ToolsAsked(provider(k))[j - 2], world(CallsAsked(provider, k) + j - 2))
  {
    hide ToolsAsked, RecordOf, Rounds, CallsAsked, RoundStart;
    RoundHas(provider, world, turns, k, j);
  }

  lemma RoundHas(provider: nat -> Turn, world: nat -> Weather, turns: nat, k: nat, j: nat)
    requires k < turns && j < 2 + |ToolsAsked(provider(k))|
    ensures var at := RoundStart(provider, k) + j;
      && at < |Rounds(provider, world, turns)|
      && Rounds(provider, world, turns)[at]
         == if j == 0 then AskLimit else if j == 1 then Move.Tell(RecordOf(provider(k)))
            else Use(ToolsAsked(provider(k))[j - 2], world(CallsAsked(provider, k) + j - 2))
  {
    hide ToolsAsked, RecordOf, Rounds, CallsAsked, RoundStart;
    RoundsStand(provider, world, turns, k);
    var rounds := Rounds(provider, world, turns);
    var round := RoundOf(provider(k), world, CallsAsked(provider, k));
    assert rounds[RoundStart(provider, k)..RoundStart(provider, k + 1)][j] == round[j];
  }

  lemma {:induction false} StartsAscend(provider: nat -> Turn, j: nat, k: nat)
    requires j <= k
    ensures RoundStart(provider, j) <= RoundStart(provider, k)
    decreases k
  {
    hide ToolsAsked;
    if j < k {
      StartsAscend(provider, j, k - 1);
    }
  }

  /** Moves that record every turn's request reach into the last turn's round. */
  lemma TellsReach(provider: nat -> Turn, world: nat -> Weather, made: nat, moves: seq<Move>)
    requires made > 0 && moves <= Rounds(provider, world, made) + [AskLimit] && Tells(moves) == made
    ensures |moves| >= RoundStart(provider, made - 1) + 2
  {
    hide Tells, ToolsAsked, RecordOf, CallsAsked, Rounds, RoundStart;
    var whole := Rounds(provider, world, made - 1);
    var asked := whole + [AskLimit];
    RoundsTell(provider, world, made - 1);
    TellsAppend(whole, [AskLimit]);
    AskTellsNothing();
    CheckComesNext(provider, world, made - 1);
    if made > 1 {
      RoundsStand(provider, world, made - 1, made - 2);
    } else {
      NoRoundsYet(provider, world);
    }
    if |moves| <= |asked| {
      assert moves == (Rounds(provider, world, made) + [AskLimit])[..|moves|] == asked[..|moves|];
      TellsOfPrefix(moves, asked);
    }
  }

  lemma TellsOfPrefix(a: seq<Move>, b: seq<Move>)
    requires a <= b
    ensures Tells(a) <= Tells(b)
  {
    hide Tells;
    TellsAppend(a, b[|a|..]);
    assert b == a + b[|a|..];
  }

  lemma CheckComesNext(provider: nat -> Turn, world: nat -> Weather, turns: nat)
    ensures Rounds(provider, world, turns) + [AskLimit] <= Rounds(provider, world, turns + 1) + [AskLimit]
  {
    hide ToolsAsked, RecordOf, CallsAsked;
  }

  lemma NoRoundsYet(provider: nat -> Turn, world: nat -> Weather)
    ensures Rounds(provider, world, 0) == [] && RoundStart(provider, 0) == 0
  {
  }

  /** The loop so far: whole rounds, but for the tools still pending. */
  ghost predicate Playing(
    events: seq<Event>, r: nat, provider: nat -> Turn, world: nat -> Weather,
    made: nat, calls: nat, pending: seq<Tool>, moves: seq<Move>)
  {
    && made == Tells(moves) && AllGoOn(events, r, provider, moves)
    && moves + Uses(pending, world, calls) == Rounds(provider, world, made)
    && calls + |pending| == CallsAsked(provider, made)
  }

  lemma StartsPlaying(events: seq<Event>, r: nat, provider: nat -> Turn, world: nat -> Weather)
    ensures Playing(events, r, provider, world, 0, 0, [], [])
  {
  }

  lemma OneFurther(a: seq<Move>, x: Move, rest: seq<Move>, all: seq<Move>, tail: seq<Move>)
    requires a + ([x] + rest) == all
    ensures a + [x] + rest == all && a + [x] <= all + tail
  {
    assert a + [x] + rest == a + ([x] + rest);
  }

  lemma UseGoesOnIfShown(turn: Turn, use: Move, answer: Reply, out: Option<Ending>, finish: Weather)
    requires use.Use?
    requires out == if answer.Shown? then None
                    else Some(if answer == Stopped then LetThrough
                              else Ending.Abandon(if answer == Refused then NOT_EXECUTABLE else CALL_RAISED))
    ensures match out
            case None => GoesOn(turn, use, answer)
            case Some(ending) => !GoesOn(turn, use, answer) && EndsBy(turn, use, answer, ending, finish)
  {
    hide ParseDecision, ConcludesWith;
  }

  lemma PlaysUse(
    events: seq<Event>, r: nat, provider: nat -> Turn, world: nat -> Weather, finish: Weather,
    made: nat, calls: nat, pending: seq<Tool>, moves: seq<Move>, out: Option<Ending>)
    requires pending != [] && Playing(events, r, provider, world, made, calls, pending, moves)
    requires var answer := MoveAnswer(events + MovesEvents(events, r, moves), r, Use(pending[0], world(calls)));
      out == if answer.Shown? then None
             else Some(if answer == Stopped then LetThrough
                       else Ending.Abandon(if answer == Refused then NOT_EXECUTABLE else CALL_RAISED))
    ensures var more := moves + [Use(pending[0], world(calls))];
      match out
      case None => Playing(events, r, provider, world, made, calls + 1, pending[1..], more)
      case Some(ending) => Plays(events, r, provider, world, finish, made, more, ending)
  {
    hide MoveAnswer, MovesEvents, Tells, Rounds, CallsAsked, AllGoOn, Plays, ToolsAsked, GoesOn, EndsBy;
    var use := Use(pending[0], world(calls));
    UseGoesOnIfShown(provider(Tells(moves)), use, MoveAnswer(events + MovesEvents(events, r, moves), r, use), out, finish);
    TellsAppend(moves, [use]);
    UseTellsNothing(pending[0], world(calls));
    UsesFirst(pending, world, calls);
    OneFurther(moves, use, Uses(pending[1..], world, calls + 1), Rounds(provider, world, made), [AskLimit]);
    if out.Some? {
      PlaysTo(events, r, provider, world, finish, made, moves, use, out.value);
    } else {
      GoesOnFurther(events, r, provider, moves, use);
    }
  }

  lemma PlaysRefusal(
    events: seq<Event>, r: nat, provider: nat -> Turn, world: nat -> Weather, finish: Weather,
    made: nat, calls: nat, moves: seq<Move>, ending: Ending)
    requires Playing(events, r, provider, world, made, calls, [], moves)
    requires var answer := MoveAnswer(events + MovesEvents(events, r, moves), r, AskLimit);
      answer != Granted && ending == if answer == Stopped then LetThrough else Ending.Abandon(NOT_EXECUTABLE)
    ensures Plays(events, r, provider, world, finish, made, moves + [AskLimit], ending)
  {
    hide MoveAnswer, MovesEvents, Tells, Rounds, CallsAsked, AllGoOn, Plays, ToolsAsked;
    TellsAppend(moves, [AskLimit]);
    AskTellsNothing();
    PlaysTo(events, r, provider, world, finish, made, moves, AskLimit, ending);
  }

  lemma AskTellsNothing()
    ensures Tells([AskLimit]) == 0
  {
  }

  /** How the loop ends once a request came back so, or None if it goes on. */
  function EndingOf(out: Wrapped, finish: Weather): Option<Ending> {
    match out
    case Response(Tools(_)) => None
    case Response(Conclusion(proposal)) => Some(Ending.Propose(proposal, finish))
    case Retry => None
    case StopsLoop => Some(LetThrough)
    case NotAllowed => Some(Ending.Abandon(NOT_EXECUTABLE))
    case Unrecorded => Some(Ending.Abandon(REFUSED_ROW))
    case Raises(why) => Some(Ending.Abandon(why))
  }

  lemma PlaysRequest(
    events: seq<Event>, r: nat, provider: nat -> Turn, world: nat -> Weather, finish: Weather,
    made: nat, calls: nat, moves: seq<Move>, out: Wrapped)
    requires Playing(events, r, provider, world, made, calls, [], moves)
    requires MoveAnswer(events + MovesEvents(events, r, moves), r, AskLimit) == Granted
    requires var asked := moves + [AskLimit];
      var told := MoveAnswer(events + MovesEvents(events, r, asked), r, Move.Tell(RecordOf(provider(made))));
      told in {Recorded, Raised} && out == if told == Recorded then Reaction(provider(made)) else Unrecorded
    ensures var more := moves + [AskLimit] + [Move.Tell(RecordOf(provider(made)))];
      match EndingOf(out, finish)
      case None => Playing(events, r, provider, world, made + 1, calls, if out.Response? then out.asked.tools else [], more)
      case Some(ending) => Plays(events, r, provider, world, finish, made + 1, more, ending)
    ensures out.Response? && out.asked.Conclusion? ==> ConcludesWith(provider(made), out.asked.proposal)
  {
    hide MoveAnswer, MovesEvents, Tells, Rounds, CallsAsked, AllGoOn, Plays, ParseDecision, RecordOf;
    var turn := provider(made);
    var asked, tell := moves + [AskLimit], Move.Tell(RecordOf(turn));
    TellsAppend(moves, [AskLimit]);
    AskTellsNothing();
    TellsAppend(asked, [tell]);
    OneTold(RecordOf(turn));
    NextRound(provider, world, made, calls);
    GoesOnFurther(events, r, provider, moves, AskLimit);
    if EndingOf(out, finish).None? {
      GoesOnFurther(events, r, provider, asked, tell);
    } else {
      assert out.Response? ==> ConcludesWith(turn, out.asked.proposal);
      PlaysTo(events, r, provider, world, finish, made + 1, asked, tell, EndingOf(out, finish).value);
    }
  }

  lemma OneTold(record: ModelRecord)
    ensures Tells([Move.Tell(record)]) == 1
  {
    var one := [Move.Tell(record)];
    assert one[1..] == [];
  }

  /** One tool the model asked for. */
  method RunTool(executor: AgentExecutor, r: nat, tool: Tool, w: Weather) returns (out: Option<Ending>, stopped: bool)
    requires executor.Valid() && Known(executor.history, r) && FrameOf(executor.history, r).Deciding?
    modifies executor, executor.db
    ensures executor.Valid() && Known(executor.history, r) && FrameOf(executor.history, r).Deciding?
    ensures executor.history == old(executor.history) + MovesEvents(old(executor.history), r, [Use(tool, w)])
    ensures Requested(executor.history, r) == Requested(old(executor.history), r)
    ensures match MoveAnswer(old(executor.history), r, Use(tool, w))
            case Shown(_) => out == None
            case Stopped => out == Some(LetThrough)
            case Refused => out == Some(Ending.Abandon(NOT_EXECUTABLE))
            case _ => out == Some(Ending.Abandon(CALL_RAISED))
    ensures out == Some(LetThrough) ==> Halted(RecOf(executor.history, r).run)
  {
    hide StateAfter, Halted, CountStage, CallEvents, LastAnswer;
    CallRequestsNothing(executor.history, r, tool, w);
    var reply := executor.CallTool(r, tool, w);
    stopped := reply == Stopped;
    out := match reply
      case Shown(_) => None
      case Stopped => Some(LetThrough)
      case Refused => Some(Ending.Abandon(NOT_EXECUTABLE))
      case _ => Some(Ending.Abandon(CALL_RAISED));
  }

  /** The model's loop, for any provider and any world. It ends: each turn uses
      up a request, or runs one of the tools that the last response asked for.
      It makes no more requests than are left, and each is recorded; after each
      it runs the tools of its response, all of them and in order, unless it
      ends at one. */
  method DriveModel(executor: AgentExecutor, r: nat, provider: nat -> Turn, world: nat -> Weather, finish: Weather)
    returns (ending: Ending, made: nat, unrecorded: bool, ghost moves: seq<Move>)
    requires executor.Valid() && Known(executor.history, r) && FrameOf(executor.history, r).Deciding?
    modifies executor, executor.db
    ensures executor.Valid() && Known(executor.history, r) && FrameOf(executor.history, r).Deciding?
    ensures executor.history == old(executor.history) + MovesEvents(old(executor.history), r, moves)
    ensures Plays(old(executor.history), r, provider, world, finish, made, moves, ending)
    ensures made <= RequestsLeft(old(executor.history), r)
    ensures Requested(executor.history, r) == Requested(old(executor.history), r) + made - if unrecorded then 1 else 0
    ensures unrecorded ==> made > 0 && ending == Ending.Abandon(REFUSED_ROW)
    ensures ending.LetThrough? ==> Halted(RecOf(executor.history, r).run)
    ensures ending.Propose? ==> made > 0 && ConcludesWith(provider(made - 1), ending.proposal)
  {
    hide StateAfter, Halted, CountStage, ParseDecision, MovesEvents, RecordOf, Requested, MoveAnswer, Plays, Playing, Reaction;
    ghost var start := executor.history;
    var pending: seq<Tool> := [];
    var calls := 0;
    made, unrecorded, moves := 0, false, [];
    NoMoves(start, r);
    StartsPlaying(start, r, provider, world);
    while true
      invariant executor.Valid() && Known(executor.history, r) && FrameOf(executor.history, r).Deciding?
      invariant executor.history == start + MovesEvents(start, r, moves)
      invariant made + RequestsLeft(executor.history, r) == RequestsLeft(start, r)
      invariant Requested(executor.history, r) == Requested(start, r) + made
      invariant Playing(start, r, provider, world, made, calls, pending, moves)
      decreases RequestsLeft(executor.history, r), |pending|
    {
      if pending != [] {
        ghost var use := Use(pending[0], world(calls));
        MovesAppend(start, r, moves, [use]);
        var out, stopped := RunTool(executor, r, pending[0], world(calls));
        PlaysUse(start, r, provider, world, finish, made, calls, pending, moves, out);
        moves := moves + [use];
        if out.Some? {
          return out.value, made, false, moves;
        }
        calls, pending := calls + 1, pending[1..];
      } else {
        ghost var now := executor.history;
        ghost var step;
        var out, sent;
        out, sent, step := WrapRequest(executor, r, provider(made));
        MovesAppend(start, r, moves, step);
        var ends := EndingOf(out, finish);
        if !sent {
          PlaysRefusal(start, r, provider, world, finish, made, calls, moves, ends.value);
          return ends.value, made, false, moves + step;
        }
        MovesAppend(start, r, moves, [AskLimit]);
        assert now + MovesEvents(now, r, [AskLimit]) == start + MovesEvents(start, r, moves + [AskLimit]);
        PlaysRequest(start, r, provider, world, finish, made, calls, moves, out);
        assert moves + step == moves + [AskLimit] + [step[1]];
        made, moves := made + 1, moves + step;
        if ends.Some? {
          return ends.value, made, out == Unrecorded, moves;
        }
        pending := if out.Response? then out.asked.tools else [];
      }
    }
  }

  lemma EndingRequestsNothing(events: seq<Event>, r: nat, ending: Ending)
    requires Known(events, r)
    ensures Known(events + EndingEvents(events, r, ending), r)
    ensures Requested(events + EndingEvents(events, r, ending), r) == Requested(events, r)
  {
    hide StateAfter, FrameOf, CountStage;
    OthersRequestNothing(events, EndingEvents(events, r, ending), r);
  }

  lemma BeginRequestsNothing(events: seq<Event>, r: nat)
    requires Known(events, r)
    ensures Known(events + [On(r, BeginDecide)], r)
    ensures Requested(events + [On(r, BeginDecide)], r) == Requested(events, r)
  {
    hide StateAfter, CountStage;
    OthersRequestNothing(events, [On(r, BeginDecide)], r);
  }

  /** `decide` with the application's own planner. Whatever the provider answers
      and whatever happens meanwhile, it makes at most the requests that are
      left, 6 in all, each of them recorded unless the table refused the row,
      and when it returns normally the run has ended or is paused. */
  method DecideWithModel(executor: AgentExecutor, r: nat, provider: nat -> Turn, world: nat -> Weather, finish: Weather)
    returns (normal: bool, made: nat, unrecorded: bool, ghost moves: seq<Move>, ghost ending: Ending)
    requires executor.Valid() && Known(executor.history, r) && FrameOf(executor.history, r).Idle?
    modifies executor, executor.db
    ensures executor.Valid() && Known(executor.history, r)
    ensures executor.history == old(executor.history) + DecideEvents(old(executor.history), r, moves, ending)
    ensures made == Tells(moves) && made <= RequestsLeft(old(executor.history), r) <= MAX_DECISION_MODEL_REQUESTS
    ensures if MayDecide(RecOf(old(executor.history), r).run)
            then Plays(old(executor.history) + [On(r, BeginDecide)], r, provider, world, finish, made, moves, ending)
            else !normal && moves == []
    ensures Requested(executor.history, r) == Requested(old(executor.history), r) + made - if unrecorded then 1 else 0
    ensures unrecorded ==> made > 0 && ending == Ending.Abandon(REFUSED_ROW)
    ensures ending.Propose? ==> made > 0 && ConcludesWith(provider(made - 1), ending.proposal)
    ensures normal ==> Halted(RecOf(executor.history, r).run)
    ensures !normal ==> !MayDecide(RecOf(old(executor.history), r).run) || ending.Propose?
  {
    hide StateAfter, Halted, MovesEvents, EndingEvents, Requested, MayDecide, ConcludesWith, Tells;
    hide TurnAt, AnswerAt, GoesOn, EndsBy, AllGoOn, Rounds;
    ghost var start := executor.history;
    NothingTold();
    made, unrecorded, moves, ending := 0, false, [], LetThrough;
    BeginRequestsNothing(start, r);
    normal := executor.BeginDecision(r);
    if !normal {
      return;
    }
    var chosen;
    chosen, made, unrecorded, moves := DriveModel(executor, r, provider, world, finish);
    ending := chosen;
    ghost var done := executor.history;
    EndingRequestsNothing(done, r, ending);
    normal := executor.EndLoop(r, chosen);
    DecisionSplits(start, r, moves, ending);
  }
}
