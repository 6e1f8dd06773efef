/** What a model's response may say. Every response is judged whole, before
    anything in it is done: in the decision stage it asks for tools or
    concludes, in extraction it gives one result. */
module Decisions {
  import opened Basics
  import opened AgentRows
  import opened Resolution
  import opened Outputs

  /** A tool call's arguments, as the model wrote them. */
  datatype CallArgs = NotAnObject | Object(fields: map<string, Json>)

  datatype Part = CallPart(name: string, args: CallArgs) | OtherPart

  datatype Asked = Tools(tools: seq<Tool>) | Conclusion(proposal: Proposal)

  datatype InvalidOutput =
    | NoToolCall
    | NotAlone(calls: nat)
    | BadArguments(name: string)
    | InvalidFields(name: string)
    | NotATool(name: string)
    | TakesNoArguments(name: string)

  predicate Concludes(name: string) {
    name == "goal_reached" || name == "no_action_needed" || name == "cannot_proceed"
  }

  /** The response's tool calls, in order. */
  function CallsOf(parts: seq<Part>): seq<Part> {
    if parts == [] then []
    else if parts[0].CallPart? then [parts[0]] + CallsOf(parts[1..])
    else CallsOf(parts[1..])
  }

  function ParseConclusion(call: Part): Result<Asked, InvalidOutput>
    requires call.CallPart? && Concludes(call.name)
  {
    match call.args
    case NotAnObject => Err(BadArguments(call.name))
    case Object(fields) =>
      match ReadAs(call.name, fields)
      case Some(ProposalOutput(p)) => Ok(Conclusion(p))
      case _ => Err(InvalidFields(call.name))
  }

  /** The calls' tools, or the first call that is not a bare call of one. */
  function ParseTools(calls: seq<Part>): Result<seq<Tool>, InvalidOutput>
    requires forall i | 0 <= i < |calls| :: calls[i].CallPart?
  {
    if calls == [] then Ok([])
    else if ToolNamed(calls[0].name).None? then Err(NotATool(calls[0].name))
    else if calls[0].args.NotAnObject? then Err(BadArguments(calls[0].name))
    else if calls[0].args.fields.Keys != {} then Err(TakesNoArguments(calls[0].name))
    else match ParseTools(calls[1..])
      case Err(e) => Err(e)
      case Ok(rest) => Ok([ToolNamed(calls[0].name).value] + rest)
  }

  lemma {:induction false} CallsAreCalls(parts: seq<Part>)
    ensures forall i | 0 <= i < |CallsOf(parts)| :: CallsOf(parts)[i].CallPart?
    ensures CallsOf(parts) == [] <==> forall i | 0 <= i < |parts| :: parts[i].OtherPart?
  {
    if parts != [] {
      CallsAreCalls(parts[1..]);
    }
  }

  /** `parse_decision` */
  function ParseDecision(parts: seq<Part>): Result<Asked, InvalidOutput> {
    CallsAreCalls(parts);
    var calls := CallsOf(parts);
    if calls == [] then Err(NoToolCall)
    else if exists i :: 0 <= i < |calls| && Concludes(calls[i].name) then
      if |calls| != 1 then Err(NotAlone(|calls|)) else ParseConclusion(calls[0])
    else match ParseTools(calls)
      case Err(e) => Err(e)
      case Ok(tools) => Ok(Tools(tools))
  }

  // --- what is accepted -------------------------------------------------------------

  predicate BareCall(call: Part, tool: Tool) {
    call.CallPart? && ToolNamed(call.name) == Some(tool) && call.args == Object(map[])
  }

  /** A call that concludes with exactly this proposal, and says nothing else. */
  predicate Says(call: Part, p: Proposal) {
    && call.CallPart? && call.args.Object?
    && KindFits(call.name, call.args.fields)
    && match p
       case GoalReached => call.name == "goal_reached" && HasOnly(call.args.fields, {})
       case NoActionNeeded => call.name == "no_action_needed" && HasOnly(call.args.fields, {})
       case CannotProceed(why) =>
         && call.name == "cannot_proceed" && HasOnly(call.args.fields, {"reason_code"})
         && call.args.fields["reason_code"] == Text(ClaimText(why))
  }

  lemma {:induction false} ParsesBareCalls(calls: seq<Part>, tools: seq<Tool>)
    requires forall i | 0 <= i < |calls| :: calls[i].CallPart?
    ensures ParseTools(calls) == Ok(tools)
      <==> |calls| == |tools| && forall i | 0 <= i < |calls| :: BareCall(calls[i], tools[i])
  {
    if calls != [] {
      if tools == [] {
        assert ParseTools(calls) != Ok(tools);
      } else {
        ParsesBareCalls(calls[1..], tools[1..]);
        var bare := |calls| == |tools| && forall i | 0 <= i < |calls| :: BareCall(calls[i], tools[i]);
        assert bare <==> |calls| == |tools| && BareCall(calls[0], tools[0])
                         && forall i | 0 <= i < |calls[1..]| :: BareCall(calls[1..][i], tools[1..][i]);
        assert [tools[0]] + tools[1..] == tools;
      }
    }
  }

  /** A response may run tools exactly when it has tool calls and all of them are
      bare calls of known tools; and they are run in its order. */
  lemma RunsToolsExactly(parts: seq<Part>, tools: seq<Tool>)
    ensures ParseDecision(parts) == Ok(Tools(tools)) <==>
      && |CallsOf(parts)| == |tools| > 0
      && forall i | 0 <= i < |tools| :: BareCall(CallsOf(parts)[i], tools[i])
  {
    hide ParseTools, CallsOf, ParseConclusion;
    CallsAreCalls(parts);
    var calls := CallsOf(parts);
    ParsesBareCalls(calls, tools);
    if |calls| == |tools| > 0 && forall i | 0 <= i < |tools| :: BareCall(calls[i], tools[i]) {
      assert forall i | 0 <= i < |calls| :: BareCall(calls[i], tools[i]) && !Concludes(calls[i].name);
    }
    if |calls| == 1 && Concludes(calls[0].name) {
      ConclusionsAreNoTools(calls[0]);
    }
  }

  lemma ConclusionsAreNoTools(call: Part)
    requires call.CallPart? && Concludes(call.name)
    ensures ParseConclusion(call).Ok? ==> ParseConclusion(call).value.Conclusion?
    ensures ToolNamed(call.name).None?
  {
  }

  /** A response concludes exactly when its one tool call is a proposal that says
      nothing else. */
  lemma ConcludesExactly(parts: seq<Part>, p: Proposal)
    ensures ParseDecision(parts) == Ok(Conclusion(p)) <==> |CallsOf(parts)| == 1 && Says(CallsOf(parts)[0], p)
  {
    hide ParseTools, CallsOf;
    CallsAreCalls(parts);
    var calls := CallsOf(parts);
    if |calls| == 1 && Says(calls[0], p) {
      assert Concludes(calls[0].name);
    }
  }

  // --- extraction ---------------------------------------------------------------------

  datatype InvalidIntent =
    | NotOneCall(calls: nat)
    | NotAResult(name: string)
    | BadIntentArguments
    | InvalidIntentFields
    | NotCopied(fields: seq<Field>)

  predicate ResultTool(name: string) {
    name == "ensure_assignment" || name == "needs_clarification" || name == "unsupported"
  }

  /** `parse_output` of the extraction planner */
  function ParseIntent(parts: seq<Part>, instruction: string): Result<ModelOutput, InvalidIntent> {
    CallsAreCalls(parts);
    var calls := CallsOf(parts);
    if |calls| != 1 then Err(NotOneCall(|calls|))
    else if !ResultTool(calls[0].name) then Err(NotAResult(calls[0].name))
    else match calls[0].args
      case NotAnObject => Err(BadIntentArguments)
      case Object(fields) =>
        match ReadAs(calls[0].name, fields)
        case None => Err(InvalidIntentFields)
        case Some(IntentOutput(email, product)) =>
          var missing := UngroundedFields(email, product, instruction);
          if missing != [] then Err(NotCopied(missing)) else Ok(IntentOutput(email, product))
        case Some(output) => Ok(output)
  }

  /** The call's fields are the output's, with or without `kind`. */
  predicate SaysOutput(call: Part, o: ModelOutput) {
    && call.CallPart? && call.args.Object? && KindFits(call.name, call.args.fields)
    && Text(call.name) == Dump(o)["kind"]
    && call.args.fields["kind" := Text(call.name)] == Dump(o)
  }

  predicate Intends(o: ModelOutput, instruction: string) {
    match o
    case IntentOutput(email, product) => Grounded(email, instruction) && Grounded(product, instruction)
    case UnclearOutput(_) => true
    case UnsupportedOutput(_) => true
    case _ => false
  }

  lemma ReadAsReadsOutput(kind: string, fields: map<string, Json>)
    requires KindFits(kind, fields)
    ensures ReadAs(kind, fields) == ReadOutput(fields["kind" := Text(kind)])
  {
    var whole := fields["kind" := Text(kind)];
    assert whole.Keys - {"kind"} == fields.Keys - {"kind"};
  }

  /** An extraction's result is accepted exactly when it is the response's only
      tool call, says an allowed result and nothing else, and any text it gives
      stands in the instruction. */
  lemma IntendsExactly(parts: seq<Part>, instruction: string, o: ModelOutput)
    ensures ParseIntent(parts, instruction) == Ok(o) <==>
      && |CallsOf(parts)| == 1 && SaysOutput(CallsOf(parts)[0], o) && Allowed(o) && Intends(o, instruction)
  {
    hide ReadAs, ReadOutput, CallsOf, Grounded, Dump, Allowed;
    CallsAreCalls(parts);
    var calls := CallsOf(parts);
    if |calls| == 1 && calls[0].args.Object? {
      var name, fields := calls[0].name, calls[0].args.fields;
      if KindFits(name, fields) {
        ReadAsReadsOutput(name, fields);
        ReadsExactlyDumps(fields["kind" := Text(name)], o);
      } else {
        MisfitIsNoOutput(name, fields);
      }
      KindOfResult(name, o);
    }
  }

  lemma MisfitIsNoOutput(kind: string, fields: map<string, Json>)
    requires !KindFits(kind, fields)
    ensures ReadAs(kind, fields).None?
  {
  }

  lemma KindOfResult(name: string, o: ModelOutput)
    ensures "kind" in Dump(o)
    ensures Text(name) == Dump(o)["kind"] ==>
      (ResultTool(name) <==> o.IntentOutput? || o.UnclearOutput? || o.UnsupportedOutput?)
  {
  }
}
