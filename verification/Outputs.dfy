/** What a model request's accepted output may be, as it is recorded and as the
    public trace reads it back: one closed union, told apart by its `kind`. */
module Outputs {
  import opened Basics
  import opened AgentRows

  const EXTRACTED_TEXT_MAX_LENGTH := 1000

  datatype ModelOutput =
    | IntentOutput(email: string, product: string)
    | UnclearOutput(code: string)
    | UnsupportedOutput(code: string)
    | ToolsOutput(tools: seq<Tool>)
    | ProposalOutput(proposal: Proposal)

  predicate UnclearCode(code: string) {
    || code == "missing_user_email" || code == "missing_product" || code == "multiple_users"
    || code == "multiple_products" || code == "conflicting_request"
  }

  predicate UnsupportedCode(code: string) {
    code == "unsupported_action" || code == "additional_request" || code == "not_a_request"
  }

  function ToolNamed(name: string): Option<Tool> {
    if name == "get_target_user" then Some(GetUser)
    else if name == "get_target_licence_capacity" then Some(GetCapacity)
    else if name == "list_target_user_assignments" then Some(ListAssignments)
    else if name == "assign_target_licence" then Some(AssignSeat)
    else None
  }

  function NameOf(tool: Tool): (name: string)
    ensures ToolNamed(name) == Some(tool)
  {
    match tool
    case GetUser => "get_target_user"
    case GetCapacity => "get_target_licence_capacity"
    case ListAssignments => "list_target_user_assignments"
    case AssignSeat => "assign_target_licence"
  }

  function ClaimNamed(j: Json): Option<CannotProceedReason> {
    if j == Text("no_seats_available") then Some(ClaimNoSeats)
    else if j == Text("user_inactive") then Some(ClaimUserInactive)
    else None
  }

  function ClaimText(claim: CannotProceedReason): (text: string)
    ensures ClaimNamed(Text(text)) == Some(claim)
  {
    match claim case ClaimNoSeats => "no_seats_available" case ClaimUserInactive => "user_inactive"
  }

  function ToolsNamed(names: seq<string>): Option<seq<Tool>> {
    if names == [] then Some([])
    else match (ToolNamed(names[0]), ToolsNamed(names[1..]))
      case (Some(tool), Some(rest)) => Some([tool] + rest)
      case _ => None
  }

  function NamesOf(tools: seq<Tool>): (names: seq<string>)
    ensures |names| == |tools| && forall i | 0 <= i < |tools| :: names[i] == NameOf(tools[i])
  {
    seq(|tools|, i requires 0 <= i < |tools| => NameOf(tools[i]))
  }

  /** `kind` may be left out where the class is known, but cannot be something else. */
  predicate KindFits(name: string, fields: map<string, Json>) {
    "kind" in fields ==> fields["kind"] == Text(name)
  }

  /** The fields besides `kind` are exactly these. */
  predicate HasOnly(fields: map<string, Json>, keys: set<string>) {
    fields.Keys - {"kind"} == keys
  }

  predicate ShortText(j: Json) {
    j.Text? && |j.text| <= EXTRACTED_TEXT_MAX_LENGTH
  }

  /** The fields validated as the class with this `kind`, undeclared ones rejected. */
  function ReadAs(kind: string, fields: map<string, Json>): Option<ModelOutput> {
    if !KindFits(kind, fields) then None
    else if kind == "ensure_assignment" then
      if HasOnly(fields, {"user_email", "product"}) && ShortText(fields["user_email"]) && ShortText(fields["product"])
      then Some(IntentOutput(fields["user_email"].text, fields["product"].text)) else None
    else if kind == "needs_clarification" then
      if HasOnly(fields, {"reason_code"}) && fields["reason_code"].Text? && UnclearCode(fields["reason_code"].text)
      then Some(UnclearOutput(fields["reason_code"].text)) else None
    else if kind == "unsupported" then
      if HasOnly(fields, {"reason_code"}) && fields["reason_code"].Text? && UnsupportedCode(fields["reason_code"].text)
      then Some(UnsupportedOutput(fields["reason_code"].text)) else None
    else if kind == "tool_calls" then
      if HasOnly(fields, {"tool_names"}) && fields["tool_names"].Texts? && ToolsNamed(fields["tool_names"].list).Some?
      then Some(ToolsOutput(ToolsNamed(fields["tool_names"].list).value)) else None
    else if kind == "goal_reached" then
      if HasOnly(fields, {}) then Some(ProposalOutput(GoalReached)) else None
    else if kind == "no_action_needed" then
      if HasOnly(fields, {}) then Some(ProposalOutput(NoActionNeeded)) else None
    else if kind == "cannot_proceed" then
      if HasOnly(fields, {"reason_code"}) && ClaimNamed(fields["reason_code"]).Some?
      then Some(ProposalOutput(CannotProceed(ClaimNamed(fields["reason_code"]).value))) else None
    else None
  }

  /** The union's validation: the member is chosen by `kind`, which must be there. */
  function ReadOutput(fields: map<string, Json>): Option<ModelOutput> {
    if "kind" in fields && fields["kind"].Text? then ReadAs(fields["kind"].text, fields) else None
  }

  /** What the classes themselves allow. */
  predicate Allowed(o: ModelOutput) {
    match o
    case IntentOutput(email, product) => |email| <= EXTRACTED_TEXT_MAX_LENGTH && |product| <= EXTRACTED_TEXT_MAX_LENGTH
    case UnclearOutput(code) => UnclearCode(code)
    case UnsupportedOutput(code) => UnsupportedCode(code)
    case _ => true
  }

  /** `model_dump`: the fields that are recorded, `kind` always among them. */
  function Dump(o: ModelOutput): map<string, Json> {
    match o
    case IntentOutput(email, product) =>
      map["kind" := Text("ensure_assignment"), "user_email" := Text(email), "product" := Text(product)]
    case UnclearOutput(code) => map["kind" := Text("needs_clarification"), "reason_code" := Text(code)]
    case UnsupportedOutput(code) => map["kind" := Text("unsupported"), "reason_code" := Text(code)]
    case ToolsOutput(tools) => map["kind" := Text("tool_calls"), "tool_names" := Texts(NamesOf(tools))]
    case ProposalOutput(GoalReached) => map["kind" := Text("goal_reached")]
    case ProposalOutput(NoActionNeeded) => map["kind" := Text("no_action_needed")]
    case ProposalOutput(CannotProceed(why)) =>
      map["kind" := Text("cannot_proceed"), "reason_code" := Text(ClaimText(why))]
  }

  lemma {:induction false} NamesRead(tools: seq<Tool>)
    ensures ToolsNamed(NamesOf(tools)) == Some(tools)
  {
    if tools != [] {
      NamesRead(tools[1..]);
      assert NamesOf(tools)[1..] == NamesOf(tools[1..]);
      assert [tools[0]] + tools[1..] == tools;
    }
  }

  lemma {:induction false} ReadNamesAreNames(names: seq<string>)
    requires ToolsNamed(names).Some?
    ensures NamesOf(ToolsNamed(names).value) == names
  {
    if names != [] {
      ReadNamesAreNames(names[1..]);
      var tools := ToolsNamed(names).value;
      assert tools[1..] == ToolsNamed(names[1..]).value;
      assert NamesOf(tools)[1..] == NamesOf(tools[1..]);
      assert NamesOf(tools) == [NameOf(tools[0])] + NamesOf(tools)[1..];
    }
  }

  /** Recorded fields are read back as an output if and only if they are what
      that output is recorded as. */
  lemma ReadsExactlyDumps(fields: map<string, Json>, o: ModelOutput)
    ensures ReadOutput(fields) == Some(o) <==> Allowed(o) && fields == Dump(o)
  {
    if Allowed(o) && fields == Dump(o) {
      DumpReads(o);
    }
    if ReadOutput(fields) == Some(o) {
      ReadIsDump(fields, o);
    }
  }

  lemma DumpReads(o: ModelOutput)
    requires Allowed(o)
    ensures ReadOutput(Dump(o)) == Some(o)
  {
    var fields := Dump(o);
    match o
    case IntentOutput(_, _) => assert HasOnly(fields, {"user_email", "product"});
    case UnclearOutput(_) => assert HasOnly(fields, {"reason_code"});
    case UnsupportedOutput(_) => assert HasOnly(fields, {"reason_code"});
    case ToolsOutput(tools) =>
      NamesRead(tools);
      assert HasOnly(fields, {"tool_names"});
    case ProposalOutput(p) =>
      assert p.CannotProceed? ==> HasOnly(fields, {"reason_code"});
      assert !p.CannotProceed? ==> HasOnly(fields, {});
  }

  lemma KeysOf(fields: map<string, Json>, keys: set<string>)
    requires HasOnly(fields, keys) && "kind" in fields
    ensures fields.Keys == keys + {"kind"}
  {
  }

  lemma ReadIsDump(fields: map<string, Json>, o: ModelOutput)
    requires ReadOutput(fields) == Some(o)
    ensures Allowed(o) && fields == Dump(o)
  {
    match o
    case IntentOutput(_, _) => KeysOf(fields, {"user_email", "product"});
    case UnclearOutput(_) => KeysOf(fields, {"reason_code"});
    case UnsupportedOutput(_) => KeysOf(fields, {"reason_code"});
    case ToolsOutput(_) =>
      KeysOf(fields, {"tool_names"});
      ReadNamesAreNames(fields["tool_names"].list);
    case ProposalOutput(CannotProceed(_)) => KeysOf(fields, {"reason_code"});
    case ProposalOutput(_) => KeysOf(fields, {});
  }
}
