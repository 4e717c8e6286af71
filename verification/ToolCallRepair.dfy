/**
 Parsing a provider's tool call against a tool set, and repairing one that
 fails: in the process through a callback, or by a host that reads the invalid
 call and replies later. JSON parsing, rendering and schema validation are
 parameters.
 */
module ToolCallRepair {
  import opened Wrappers
  import opened Content

  /** `parse` reads argument text, `render` writes a value. */
  datatype Codec = Codec(parse: string -> Option<Json>, render: Json -> string)

  /** `check` is the reason why a value does not meet the input schema, if any. */
  datatype ToolDef = FunctionTool(name: string, check: Json -> Option<string>) | ProviderTool(name: string)

  datatype Context = Context(call: RawToolCall, tools: seq<ToolDef>, error: AiError)

  type Callback = Context -> Result<Option<RawToolCall>, AiError>

  datatype Outcome = Repaired(call: RawToolCall) | Unchanged | RepairFailed(error: AiError)

  /** What a host replies. */
  datatype Reply = ReplyRepaired(call: RawToolCall) | ReplyUnchanged | ReplyFailed(message: string)

  // ----- Input

  /** The Unicode property White_Space. */
  predicate IsSpace(c: char) {
    '\t' <= c <= '\r' || c == ' ' || c == '\U{85}' || c == '\U{A0}' || c == '\U{1680}' || '\U{2000}' <= c <= '\U{200A}'
    || c == '\U{2028}' || c == '\U{2029}' || c == '\U{202F}' || c == '\U{205F}' || c == '\U{3000}'
  }

  predicate IsBlank(text: string) { forall i :: 0 <= i < |text| ==> IsSpace(text[i]) }

  predicate IsForbidden(fields: map<string, Json>) {
    || "__proto__" in fields
    || ("constructor" in fields && fields["constructor"].Obj? && "prototype" in fields["constructor"].fields)
  }

  predicate ContainsForbidden(v: Json) {
    match v
    case Obj(fields) => IsForbidden(fields) || exists k :: k in fields && ContainsForbidden(fields[k])
    case Arr(items) => exists i :: 0 <= i < |items| && ContainsForbidden(items[i])
    case _ => false
  }

  function ParseInput(codec: Codec, raw: RawToolCall): Result<Json, AiError> {
    if IsBlank(raw.input) then Ok(Obj(map[]))
    else
      match codec.parse(raw.input)
      case None => Err(InvalidToolInput(raw.name, raw.input, "JSON parsing failed"))
      case Some(v) =>
        if ContainsForbidden(v)
        then Err(InvalidToolInput(raw.name, raw.input, "Object contains forbidden prototype property"))
        else Ok(v)
  }

  function FindTool(tools: seq<ToolDef>, name: string): Option<ToolDef> {
    if tools == [] then None
    else if tools[0].name == name then Some(tools[0])
    else FindTool(tools[1..], name)
  }

  predicate IsProviderDynamic(raw: RawToolCall) { IsTrue(raw.providerExecuted) && IsTrue(raw.dynamic) }

  /** The input, and whether the call is dynamic. */
  function ParseAndValidate(codec: Codec, raw: RawToolCall, tools: seq<ToolDef>): Result<(Json, Option<bool>), AiError> {
    match FindTool(tools, raw.name)
    case None =>
      if IsProviderDynamic(raw) then
        match ParseInput(codec, raw)
        case Ok(input) => Ok((input, Some(true)))
        case Err(e) => Err(e)
      else Err(NoSuchTool(raw.name, Some(raw.input), Some(seq(|tools|, i requires 0 <= i < |tools| => tools[i].name))))
    case Some(tool) =>
      match ParseInput(codec, raw)
      case Err(e) => Err(e)
      case Ok(input) =>
        if tool.ProviderTool? then Ok((input, None))
        else
          match tool.check(input)
          case Some(reason) => Err(InvalidToolInput(raw.name, raw.input, reason))
          case None => Ok((input, None))
  }

  function ParsedCall(raw: RawToolCall, input: Json, dynamic: Option<bool>): ToolCall {
    ToolCall(raw.id, raw.name, input, raw.providerExecuted, dynamic, raw.metadata, None, None)
  }

  /** The value of the text when it is clean JSON, else the text. */
  function BackFill(codec: Codec, text: string): Json {
    var v := codec.parse(text);
    if v.Some? && !ContainsForbidden(v.value) then v.value else Str(text)
  }

  function InvalidCall(codec: Codec, raw: RawToolCall, error: AiError): ToolCall {
    ParsedCall(raw, BackFill(codec, raw.input), Some(true)).(invalid := Some(true), error := Some(error))
  }

  // ----- Repair in the process

  function ApplyOutcome(codec: Codec, raw: RawToolCall, error: AiError, tools: seq<ToolDef>, outcome: Outcome): ToolCall {
    match outcome
    case Repaired(repaired) =>
      (match ParseAndValidate(codec, repaired, tools)
       case Ok((input, dynamic)) => ParsedCall(repaired, input, dynamic)
       case Err(e) => InvalidCall(codec, raw, e))
    case Unchanged => InvalidCall(codec, raw, error)
    case RepairFailed(cause) => InvalidCall(codec, raw, AiError.ToolCallRepair(error, cause))
  }

  function OutcomeOf(reply: Result<Option<RawToolCall>, AiError>): Outcome {
    match reply
    case Ok(Some(repaired)) => Repaired(repaired)
    case Ok(None) => Unchanged
    case Err(e) => RepairFailed(e)
  }

  function ParseToolCall(codec: Codec, raw: RawToolCall, tools: Option<seq<ToolDef>>, repair: Option<Callback>): ToolCall {
    match tools
    case None =>
      var parsed := if IsProviderDynamic(raw) then ParseInput(codec, raw) else Err(NoSuchTool(raw.name, Some(raw.input), None));
      (match parsed
       case Ok(input) => ParsedCall(raw, input, Some(true))
       case Err(e) => InvalidCall(codec, raw, e))
    case Some(ts) =>
      match ParseAndValidate(codec, raw, ts)
      case Ok((input, dynamic)) => ParsedCall(raw, input, dynamic)
      case Err(e) =>
        if repair.None? then InvalidCall(codec, raw, e)
        else ApplyOutcome(codec, raw, e, ts, OutcomeOf(repair.value(Context(raw, ts, e))))
  }

  // ----- Repair by a host

  function ErrorInput(e: AiError): Option<string> {
    match e
    case InvalidToolInput(_, input, _) => Some(input)
    case NoSuchTool(_, input, _) => input
    case ToolCallRepair(original, _) => ErrorInput(original)
    case _ => None
  }

  /** The provider's text, when the error kept it: the text of another call's
      error counts only when it gives the same input. */
  function OriginalText(codec: Codec, input: Json, e: AiError): Option<string> {
    var text := ErrorInput(e);
    if text.Some? && BackFill(codec, text.value) == input then text else None
  }

  /** The text of an input whose own text is lost. */
  function Rewritten(codec: Codec, input: Json): string { if input.Str? then input.text else codec.render(input) }

  function RawFromInvalid(codec: Codec, call: ToolCall): Result<(RawToolCall, AiError), AiError> {
    if !IsTrue(call.invalid) then Err(InvalidArgument("tool call '" + call.id + "' is not invalid; nothing to repair"))
    else if call.error.None? then Err(InvalidArgument("invalid tool call '" + call.id + "' carries no error"))
    else
      var text := OriginalText(codec, call.input, call.error.value);
      var input := if text.Some? then text.value else Rewritten(codec, call.input);
      Ok((RawToolCall(call.id, call.name, input, call.providerExecuted, call.dynamic, call.metadata), call.error.value))
  }

  function ReplyOutcome(reply: Reply): Outcome {
    match reply
    case ReplyRepaired(call) => Repaired(call)
    case ReplyUnchanged => Unchanged
    case ReplyFailed(message) => RepairFailed(OtherError(message))
  }

  const NO_TOOLS: AiError := InvalidArgument("tool calls made without a tool set are not repairable")

  function ApplyRepair(codec: Codec, call: ToolCall, tools: Option<seq<ToolDef>>, reply: Reply): Result<ToolCall, AiError> {
    if tools.None? then Err(NO_TOOLS)
    else
      match RawFromInvalid(codec, call)
      case Err(e) => Err(e)
      case Ok((raw, error)) => Ok(ApplyOutcome(codec, raw, error, tools.value, ReplyOutcome(reply)))
  }

  // ----- What is accepted

  /** A step into a value: a field of an object or an item of an array. */
  datatype Step = Field(name: string) | Item(index: nat)

  function At(v: Json, path: seq<Step>): Option<Json>
    decreases path
  {
    if path == [] then Some(v)
    else
      match (v, path[0])
      case (Obj(fields), Field(name)) => if name in fields then At(fields[name], path[1..]) else None
      case (Arr(items), Item(i)) => if i < |items| then At(items[i], path[1..]) else None
      case _ => None
  }

  /** The path leads to an object with a forbidden key. */
  predicate LeadsToForbidden(v: Json, path: seq<Step>) {
    var w := At(v, path);
    w.Some? && w.value.Obj? && IsForbidden(w.value.fields)
  }

  /** The search finds a forbidden key exactly when there is one, at any depth. */
  lemma {:induction false} ForbiddenAnywhere(v: Json)
    ensures ContainsForbidden(v) <==> exists path :: LeadsToForbidden(v, path)
  {
    if ContainsForbidden(v) { var _ := PathToForbidden(v); }
    forall path | LeadsToForbidden(v, path) ensures ContainsForbidden(v) { ForbiddenIsFound(v, path); }
  }

  lemma {:induction false} PathToForbidden(v: Json) returns (path: seq<Step>)
    requires ContainsForbidden(v)
    ensures LeadsToForbidden(v, path)
  {
    match v
    case Obj(fields) =>
      if IsForbidden(fields) {
        path := [];
      } else {
        var k :| k in fields && ContainsForbidden(fields[k]);
        var rest := PathToForbidden(fields[k]);
        path := [Field(k)] + rest;
        assert path[1..] == rest;
      }
    case Arr(items) =>
      var i :| 0 <= i < |items| && ContainsForbidden(items[i]);
      var rest := PathToForbidden(items[i]);
      path := [Item(i)] + rest;
      assert path[1..] == rest;
  }

  lemma {:induction false} ForbiddenIsFound(v: Json, path: seq<Step>)
    requires LeadsToForbidden(v, path)
    ensures ContainsForbidden(v)
    decreases path
  {
    if path != [] {
      match path[0]
      case Field(name) => ForbiddenIsFound(v.fields[name], path[1..]);
      case Item(i) => ForbiddenIsFound(v.items[i], path[1..]);
    }
  }

  predicate IsValid(call: ToolCall) { call.invalid.None? }

  /** The text of a call is clean JSON (or blank) for its input. */
  predicate Reads(codec: Codec, text: string, input: Json) {
    if IsBlank(text) then input == Obj(map[]) else codec.parse(text) == Some(input) && !ContainsForbidden(input)
  }

  /** The call meets the schema of the first tool of its name. */
  predicate MeetsSchema(call: ToolCall, tools: seq<ToolDef>) {
    var tool := FindTool(tools, call.name);
    if tool.None? then IsTrue(call.providerExecuted)
    else tool.value.FunctionTool? ==> tool.value.check(call.input).None?
  }

  /** However it was repaired, a call that is not marked invalid was read from
      the raw text of the provider or of the reply, holds no forbidden key and
      meets its tool's schema; a call still invalid has its error and is
      otherwise the provider's. */
  lemma {:induction false} RepairedIsValid(codec: Codec, raw: RawToolCall, e: AiError, tools: seq<ToolDef>, outcome: Outcome)
    ensures var call := ApplyOutcome(codec, raw, e, tools, outcome);
            if IsValid(call) then
              && outcome.Repaired? && outcome.call == RawToolCall(call.id, call.name, outcome.call.input,
                                                 call.providerExecuted, outcome.call.dynamic, call.metadata)
              && Reads(codec, outcome.call.input, call.input) && MeetsSchema(call, tools)
              && call.error.None?
            else
              && call.invalid == Some(true) && call.error.Some? && call.dynamic == Some(true)
              && call.id == raw.id && call.name == raw.name && call.providerExecuted == raw.providerExecuted
              && call.metadata == raw.metadata && call.input == BackFill(codec, raw.input)
  {
  }

  // ----- Exactly which calls are accepted

  /** The tool at `k` is the first of the name. */
  ghost predicate IsFirst(tools: seq<ToolDef>, name: string, k: nat) {
    k < |tools| && tools[k].name == name && forall j :: 0 <= j < k ==> tools[j].name != name
  }

  ghost predicate NoneNamed(tools: seq<ToolDef>, name: string) { forall j :: 0 <= j < |tools| ==> tools[j].name != name }

  lemma {:induction false} FoundIsFirst(tools: seq<ToolDef>, name: string) returns (k: nat)
    ensures FindTool(tools, name).Some? ==> IsFirst(tools, name, k) && FindTool(tools, name) == Some(tools[k])
    ensures FindTool(tools, name).None? ==> NoneNamed(tools, name)
  {
    k := 0;
    if tools != [] && tools[0].name != name {
      var j := FoundIsFirst(tools[1..], name);
      k := j + 1;
      assert forall j :: 0 < j < |tools| ==> tools[j] == tools[1..][j - 1];
    }
  }

  /** The text reads as `input`, and the first tool of the name takes it: a
      provider's any, a function its schema's. Without such a tool the call must
      be the provider's own and dynamic, and stays so. */
  ghost predicate Accepts(codec: Codec, raw: RawToolCall, tools: seq<ToolDef>, input: Json, dynamic: Option<bool>) {
    && Reads(codec, raw.input, input)
    && if NoneNamed(tools, raw.name)
       then raw.providerExecuted == Some(true) && raw.dynamic == Some(true) && dynamic == Some(true)
       else dynamic == None && forall k: nat :: IsFirst(tools, raw.name, k) && tools[k].FunctionTool? ==> tools[k].check(input).None?
  }

  /** Why a call is not accepted: there is no tool for it; its text does not
      read; or its tool's schema is not met, for the reason that the check gives. */
  ghost predicate Explains(codec: Codec, raw: RawToolCall, tools: seq<ToolDef>, e: AiError) {
    if NoneNamed(tools, raw.name) && !(raw.providerExecuted == Some(true) && raw.dynamic == Some(true)) then
      e.NoSuchTool? && e.toolName == raw.name && e.toolInput == Some(raw.input) && e.availableTools.Some?
      && |e.availableTools.value| == |tools| && forall k :: 0 <= k < |tools| ==> e.availableTools.value[k] == tools[k].name
    else
      && e.InvalidToolInput? && e.toolName == raw.name && e.input == raw.input
      && ((forall input :: !Reads(codec, raw.input, input))
          || exists k: nat, input :: IsFirst(tools, raw.name, k) && Reads(codec, raw.input, input) && FailsCheck(tools[k], input, e.reason))
  }

  predicate FailsCheck(tool: ToolDef, input: Json, reason: string) { tool.FunctionTool? && tool.check(input) == Some(reason) }

  lemma {:induction false} ReadsExactly(codec: Codec, raw: RawToolCall, input: Json)
    ensures ParseInput(codec, raw) == Ok(input) <==> Reads(codec, raw.input, input)
    ensures ParseInput(codec, raw).Err? ==>
              ParseInput(codec, raw).error.InvalidToolInput? && ParseInput(codec, raw).error.toolName == raw.name
              && ParseInput(codec, raw).error.input == raw.input
  {
  }

  /** Parsing gives an input and a `dynamic` exactly when the call is accepted
      with them. */
  lemma {:induction false} ParsesExactly(codec: Codec, raw: RawToolCall, tools: seq<ToolDef>, input: Json, dynamic: Option<bool>)
    ensures ParseAndValidate(codec, raw, tools) == Ok((input, dynamic)) <==> Accepts(codec, raw, tools, input, dynamic)
  {
    var k := FoundIsFirst(tools, raw.name);
    ReadsExactly(codec, raw, input);
    hide Reads, ParseInput, FindTool;
    if FindTool(tools, raw.name).Some? {
      assert IsFirst(tools, raw.name, k) && !NoneNamed(tools, raw.name);
      assert forall j: nat :: IsFirst(tools, raw.name, j) ==> j == k;
    }
  }

  /** Otherwise the error says which condition failed. */
  lemma {:induction false} FailureIsExplained(codec: Codec, raw: RawToolCall, tools: seq<ToolDef>)
    requires ParseAndValidate(codec, raw, tools).Err?
    ensures Explains(codec, raw, tools, ParseAndValidate(codec, raw, tools).error)
  {
    var k := FoundIsFirst(tools, raw.name);
    var parsed := ParseInput(codec, raw);
    forall input ensures parsed == Ok(input) <==> Reads(codec, raw.input, input) { ReadsExactly(codec, raw, input); }
    ReadsExactly(codec, raw, Null);
    hide Reads, ParseInput, FindTool;
    if parsed.Ok? && !NoneNamed(tools, raw.name) {
      assert FailsCheck(tools[k], parsed.value, ParseAndValidate(codec, raw, tools).error.reason);
    }
  }

  /** The call that is made of an accepted one. */
  predicate IsAcceptedCall(call: ToolCall, raw: RawToolCall, input: Json, dynamic: Option<bool>) {
    && call.id == raw.id && call.name == raw.name && call.input == input && call.dynamic == dynamic
    && call.providerExecuted == raw.providerExecuted && call.metadata == raw.metadata
    && call.invalid.None? && call.error.None?
  }

  /** The call that is made of one that is not: the provider's, with the error. */
  predicate IsRejectedCall(codec: Codec, call: ToolCall, raw: RawToolCall, e: AiError) {
    && call.id == raw.id && call.name == raw.name && call.dynamic == Some(true)
    && call.providerExecuted == raw.providerExecuted && call.metadata == raw.metadata
    && call.invalid == Some(true) && call.error == Some(e)
    && (if codec.parse(raw.input).Some? && !ContainsForbidden(codec.parse(raw.input).value)
        then codec.parse(raw.input) == Some(call.input) else call.input == Str(raw.input))
  }

  /** With a tool set: an accepted call comes back valid, whatever the callback;
      any other comes back invalid without one, and with one as its reply makes it. */
  lemma {:induction false} CallWithTools(codec: Codec, raw: RawToolCall, tools: seq<ToolDef>, repair: Option<Callback>)
    ensures var call := ParseToolCall(codec, raw, Some(tools), repair);
            var parsed := ParseAndValidate(codec, raw, tools);
            if parsed.Ok? then IsAcceptedCall(call, raw, parsed.value.0, parsed.value.1)
            else if repair.None? then IsRejectedCall(codec, call, raw, parsed.error)
            else call == ApplyOutcome(codec, raw, parsed.error, tools, OutcomeOf(repair.value(Context(raw, tools, parsed.error))))
    ensures forall input, dynamic :: Accepts(codec, raw, tools, input, dynamic) ==>
              IsAcceptedCall(ParseToolCall(codec, raw, Some(tools), repair), raw, input, dynamic)
  {
    hide ParseAndValidate, ApplyOutcome, Accepts;
    forall input, dynamic | Accepts(codec, raw, tools, input, dynamic)
      ensures IsAcceptedCall(ParseToolCall(codec, raw, Some(tools), repair), raw, input, dynamic)
    {
      ParsesExactly(codec, raw, tools, input, dynamic);
    }
  }

  /** Without a tool set no callback is asked: the provider's own dynamic calls
      come back valid when their text reads, and all others invalid. */
  lemma {:induction false} CallWithoutTools(codec: Codec, raw: RawToolCall, repair: Option<Callback>)
    ensures var call := ParseToolCall(codec, raw, None, repair);
            if raw.providerExecuted == Some(true) && raw.dynamic == Some(true) then
              if exists input :: Reads(codec, raw.input, input)
              then Reads(codec, raw.input, call.input) && IsAcceptedCall(call, raw, call.input, Some(true))
              else call.error.Some? && call.error.value.InvalidToolInput? && IsRejectedCall(codec, call, raw, call.error.value)
            else IsRejectedCall(codec, call, raw, NoSuchTool(raw.name, Some(raw.input), None))
  {
    var parsed := ParseInput(codec, raw);
    forall input ensures parsed == Ok(input) <==> Reads(codec, raw.input, input) { ReadsExactly(codec, raw, input); }
    ReadsExactly(codec, raw, Null);
    hide Reads, ParseInput, ContainsForbidden;
  }

  /** What a reply makes of a call that failed: an accepted replacement is taken;
      a rejected one leaves the provider's call with the replacement's error; no
      reply leaves it with its own, and a failed one with both errors. */
  lemma {:induction false} ReplyIsTaken(codec: Codec, raw: RawToolCall, e: AiError, tools: seq<ToolDef>, outcome: Outcome)
    ensures var call := ApplyOutcome(codec, raw, e, tools, outcome);
            match outcome
            case Unchanged => IsRejectedCall(codec, call, raw, e)
            case RepairFailed(cause) => IsRejectedCall(codec, call, raw, AiError.ToolCallRepair(e, cause))
            case Repaired(replacement) =>
              if exists input, dynamic :: Accepts(codec, replacement, tools, input, dynamic)
              then Accepts(codec, replacement, tools, call.input, call.dynamic)
                   && IsAcceptedCall(call, replacement, call.input, call.dynamic)
              else call.error.Some? && Explains(codec, replacement, tools, call.error.value)
                   && IsRejectedCall(codec, call, raw, call.error.value)
  {
    match outcome
    case Unchanged =>
    case RepairFailed(_) =>
    case Repaired(replacement) =>
      var parsed := ParseAndValidate(codec, replacement, tools);
      forall input, dynamic ensures parsed == Ok((input, dynamic)) <==> Accepts(codec, replacement, tools, input, dynamic) {
        ParsesExactly(codec, replacement, tools, input, dynamic);
      }
      if parsed.Err? { FailureIsExplained(codec, replacement, tools); }
      hide ParseAndValidate, Accepts, Explains;
      if parsed.Ok? { assert Accepts(codec, replacement, tools, parsed.value.0, parsed.value.1); }
  }

  // ----- The host's repair is the callback's

  function AsCallback(reply: Reply): Result<Option<RawToolCall>, AiError> {
    match reply
    case ReplyRepaired(call) => Ok(Some(call))
    case ReplyUnchanged => Ok(None)
    case ReplyFailed(message) => Err(OtherError(message))
  }

  /** Every failure keeps the text of the call that failed. */
  lemma {:induction false} FailureKeepsText(codec: Codec, raw: RawToolCall, tools: seq<ToolDef>)
    requires ParseAndValidate(codec, raw, tools).Err?
    ensures ErrorInput(ParseAndValidate(codec, raw, tools).error) == Some(raw.input)
  {
  }

  /** The host sees the provider's call; only `dynamic` is not recovered. */
  lemma {:induction false} HostSeesTheCall(codec: Codec, raw: RawToolCall, e: AiError)
    requires ErrorInput(e) == Some(raw.input)
    ensures RawFromInvalid(codec, InvalidCall(codec, raw, e)) == Ok((raw.(dynamic := Some(true)), e))
  {
  }

  /** A reply of the host to the unrepaired call gives the very call that a
      callback with the same answer gives. */
  lemma {:induction false} HostRepairIsCallbackRepair(codec: Codec, raw: RawToolCall, tools: seq<ToolDef>, reply: Reply, repair: Callback)
    requires ParseAndValidate(codec, raw, tools).Err?
    requires repair(Context(raw, tools, ParseAndValidate(codec, raw, tools).error)) == AsCallback(reply)
    ensures ApplyRepair(codec, ParseToolCall(codec, raw, Some(tools), None), Some(tools), reply)
         == Ok(ParseToolCall(codec, raw, Some(tools), Some(repair)))
  {
    var e := ParseAndValidate(codec, raw, tools).error;
    FailureKeepsText(codec, raw, tools);
    HostSeesTheCall(codec, raw, e);
    hide ParseAndValidate, BackFill, RawFromInvalid;
  }

  // ----- Replies that repair nothing

  /** The replies of a host to one call, in turn; each is to be answered. */
  function ApplyReplies(codec: Codec, call: ToolCall, tools: seq<ToolDef>, replies: seq<Reply>): Result<ToolCall, AiError> {
    if replies == [] then Ok(call)
    else
      match ApplyReplies(codec, call, tools, replies[..|replies| - 1])
      case Err(e) => Err(e)
      case Ok(next) => ApplyRepair(codec, next, Some(tools), replies[|replies| - 1])
  }

  /** Failures are wrapped one around the other. */
  function Wrapped(e: AiError, replies: seq<Reply>): AiError {
    if replies == [] then e
    else
      var before, last := Wrapped(e, replies[..|replies| - 1]), replies[|replies| - 1];
      if last.ReplyFailed? then AiError.ToolCallRepair(before, OtherError(last.message)) else before
  }

  ghost predicate RepairNothing(replies: seq<Reply>) { forall i :: 0 <= i < |replies| ==> !replies[i].ReplyRepaired? }

  lemma {:induction false} WrappedKeepsText(e: AiError, replies: seq<Reply>)
    ensures ErrorInput(Wrapped(e, replies)) == ErrorInput(e)
  {
    if replies != [] { WrappedKeepsText(e, replies[..|replies| - 1]); }
  }

  lemma {:induction false} RepliesThatRepairNothing(codec: Codec, raw: RawToolCall, e: AiError, tools: seq<ToolDef>, replies: seq<Reply>)
    requires ErrorInput(e) == Some(raw.input) && RepairNothing(replies)
    ensures ApplyReplies(codec, InvalidCall(codec, raw, e), tools, replies) == Ok(InvalidCall(codec, raw, Wrapped(e, replies)))
  {
    if replies != [] {
      var before := replies[..|replies| - 1];
      RepliesThatRepairNothing(codec, raw, e, tools, before);
      WrappedKeepsText(e, before);
      HostSeesTheCall(codec, raw, Wrapped(e, before));
      hide BackFill, RawFromInvalid, ErrorInput;
    }
  }

  /** After any run of unchanged and failed replies the host still sees the
      provider's call and exact text, and a replacement is then taken as if it
      were the first reply. */
  lemma {:induction false} TextStaysRecoverable(codec: Codec, raw: RawToolCall, tools: seq<ToolDef>, replies: seq<Reply>, call: RawToolCall)
    requires ParseAndValidate(codec, raw, tools).Err? && RepairNothing(replies)
    ensures var e := ParseAndValidate(codec, raw, tools).error;
            var first := ParseToolCall(codec, raw, Some(tools), None);
            var last := ApplyReplies(codec, first, tools, replies);
            && last.Ok?
            && RawFromInvalid(codec, last.value) == Ok((raw.(dynamic := Some(true)), Wrapped(e, replies)))
            && ApplyRepair(codec, last.value, Some(tools), ReplyRepaired(call))
            == ApplyRepair(codec, first, Some(tools), ReplyRepaired(call))
  {
    var e := ParseAndValidate(codec, raw, tools).error;
    FailureKeepsText(codec, raw, tools);
    RepliesThatRepairNothing(codec, raw, e, tools, replies);
    WrappedKeepsText(e, replies);
    HostSeesTheCall(codec, raw, e);
    HostSeesTheCall(codec, raw, Wrapped(e, replies));
    hide BackFill, RawFromInvalid, ErrorInput;
  }

  // ----- Replies that are rejected

  /** A rejected replacement leaves its own text in the error: the host gets the
      provider's text back exactly when the replacement has the same text, or
      reads as another input and the provider's text is what its input is
      rewritten as. */
  lemma {:induction false} RejectedReplyKeepsTextExactly(codec: Codec, raw: RawToolCall, tools: seq<ToolDef>, call: RawToolCall)
    requires ParseAndValidate(codec, raw, tools).Err? && ParseAndValidate(codec, call, tools).Err?
    ensures var next := ApplyRepair(codec, ParseToolCall(codec, raw, Some(tools), None), Some(tools), ReplyRepaired(call));
            && next.Ok? && RawFromInvalid(codec, next.value).Ok?
            && (RawFromInvalid(codec, next.value).value.0.input == raw.input <==>
                 || call.input == raw.input
                 || (BackFill(codec, call.input) != BackFill(codec, raw.input)
                     && Rewritten(codec, BackFill(codec, raw.input)) == raw.input))
  {
    FailureKeepsText(codec, raw, tools);
    FailureKeepsText(codec, call, tools);
    HostSeesTheCall(codec, raw, ParseAndValidate(codec, raw, tools).error);
  }

  /** Text that is no JSON survives any rejected reply, except one that quotes it. */
  lemma {:induction false} PlainTextSurvives(codec: Codec, raw: RawToolCall, tools: seq<ToolDef>, call: RawToolCall)
    requires ParseAndValidate(codec, raw, tools).Err? && ParseAndValidate(codec, call, tools).Err?
    requires codec.parse(raw.input).None?
    ensures var next := ApplyRepair(codec, ParseToolCall(codec, raw, Some(tools), None), Some(tools), ReplyRepaired(call));
            && next.Ok? && RawFromInvalid(codec, next.value).Ok?
            && (RawFromInvalid(codec, next.value).value.0.input == raw.input <==>
                  call.input == raw.input || codec.parse(call.input) != Some(Str(raw.input)))
  {
    RejectedReplyKeepsTextExactly(codec, raw, tools, call);
    hide ParseAndValidate, ApplyRepair, RawFromInvalid;
  }

  /** A reader and a writer of the number 1, which the text may precede by a space. */
  const SPACED_ONE: Codec := Codec(t => if t == " 1" then Some(Number("1")) else None, v => "1")

  function Unknown(input: string): RawToolCall { RawToolCall("c", "unknown", input, None, None, None) }

  /** After a rejected replacement the host gets `1` back for the provider's ` 1`. */
  lemma {:induction false} RejectedReplyLosesSpace()
    ensures var first := ParseToolCall(SPACED_ONE, Unknown(" 1"), Some([]), None);
            var next := ApplyRepair(SPACED_ONE, first, Some([]), ReplyRepaired(Unknown("x")));
            && RawFromInvalid(SPACED_ONE, first) == Ok((Unknown(" 1").(dynamic := Some(true)), first.error.value))
            && next.Ok?
            && RawFromInvalid(SPACED_ONE, next.value) == Ok((Unknown("1").(dynamic := Some(true)), next.value.error.value))
  {
    assert BackFill(SPACED_ONE, " 1") == Number("1") && BackFill(SPACED_ONE, "x") == Str("x");
  }
}
