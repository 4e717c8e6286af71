/**
 Conversion of a message history into the prompt a provider is given: parts
 that are not sent are left out, runs of tool messages become one message, the
 history is checked, and empty tool messages are dropped.
 */
module PromptConversion {
  import opened Wrappers
  import opened Content
  import opened ResponseMessages
  import opened OptionsMerge
  import History = PromptHistory

  datatype HistoryMessage =
    | SystemTurn(text: string, options: Metadata)
    | UserTurn(content: string, options: Metadata)
    | AssistantText(text: string, options: Metadata)
    | AssistantTurn(parts: seq<AssistantPart>, options: Metadata)
    | ToolTurn(answers: seq<ToolPart>, options: Metadata)

  datatype Answer =
    | ToolAnswer(callId: string, name: string, output: Output, options: Metadata)
    | ApprovalReply(approvalId: string, approved: bool, reason: Option<string>, options: Metadata)

  datatype PromptMessage =
    | SystemMessage(text: string, options: Metadata)
    | UserMessage(content: string, options: Metadata)
    | AssistantMessage(parts: seq<AssistantPart>, options: Metadata)
    | ToolMessage(answers: seq<Answer>, options: Metadata)

  /** How user content and the data and media type of files are converted. */
  datatype Files = Files(user: string -> Result<string, AiError>, file: (string, string) -> Result<(string, string), AiError>)

  // ----- One message

  /** The name of a result's tool: its own, or that of the call it answers. */
  function ResultName(names: map<string, string>, r: ResultItem): Result<string, AiError> {
    if r.name.Some? then Ok(r.name.value)
    else if r.callId in names then Ok(names[r.callId])
    else Err(InvalidPrompt("tool result " + r.callId + " has no tool name or preceding tool call"))
  }

  function ConvertPart(files: Files, names: map<string, string>, p: AssistantPart): Result<seq<AssistantPart>, AiError> {
    match p
    case TextPart(text, options) => Ok(if text == "" && options.None? then [] else [p])
    case ApprovalRequestPart(_, _, _, _, _, _) => Ok([])
    case FileItem(data, mediaType, options) =>
      (match files.file(data, mediaType)
       case Ok((d, m)) => Ok([FileItem(d, m, options)])
       case Err(e) => Err(e))
    case ReasoningFileItem(data, mediaType, options) =>
      (match files.file(data, mediaType)
       case Ok((d, m)) => Ok([ReasoningFileItem(d, m, options)])
       case Err(e) => Err(e))
    case ProviderResult(r) =>
      (match ResultName(names, r)
       case Ok(name) => Ok([ProviderResult(r.(name := Some(name)))])
       case Err(e) => Err(e))
    case _ => Ok([p])
  }

  function ConvertParts(files: Files, names: map<string, string>, parts: seq<AssistantPart>): Result<seq<AssistantPart>, AiError> {
    if parts == [] then Ok([])
    else
      match ConvertParts(files, names, parts[..|parts| - 1])
      case Err(e) => Err(e)
      case Ok(before) =>
        match ConvertPart(files, names, parts[|parts| - 1])
        case Err(e) => Err(e)
        case Ok(last) => Ok(before + last)
  }

  /** Only the approval of a tool the provider executes is sent. */
  function ConvertAnswer(names: map<string, string>, p: ToolPart): Result<seq<Answer>, AiError> {
    match p
    case ClientResult(r) =>
      (match ResultName(names, r)
       case Ok(name) => Ok([ToolAnswer(r.callId, name, r.output, r.options)])
       case Err(e) => Err(e))
    case ApprovalAnswer(approvalId, approved, reason, providerExecuted) =>
      Ok(if IsTrue(providerExecuted) then [ApprovalReply(approvalId, approved, reason, None)] else [])
  }

  function ConvertAnswers(names: map<string, string>, answers: seq<ToolPart>): Result<seq<Answer>, AiError> {
    if answers == [] then Ok([])
    else
      match ConvertAnswers(names, answers[..|answers| - 1])
      case Err(e) => Err(e)
      case Ok(before) =>
        match ConvertAnswer(names, answers[|answers| - 1])
        case Err(e) => Err(e)
        case Ok(last) => Ok(before + last)
  }

  function ConvertMessage(files: Files, names: map<string, string>, m: HistoryMessage): Result<PromptMessage, AiError> {
    match m
    case SystemTurn(text, options) => Ok(SystemMessage(text, options))
    case UserTurn(content, options) =>
      (match files.user(content)
       case Ok(c) => Ok(UserMessage(c, options))
       case Err(e) => Err(e))
    case AssistantText(text, options) => Ok(AssistantMessage([TextPart(text, None)], options))
    case AssistantTurn(parts, options) =>
      (match ConvertParts(files, names, parts)
       case Ok(ps) => Ok(AssistantMessage(ps, options))
       case Err(e) => Err(e))
    case ToolTurn(answers, options) =>
      (match ConvertAnswers(names, answers)
       case Ok(content) => Ok(ToolMessage(content, options))
       case Err(e) => Err(e))
  }

  function NamesOf(names: map<string, string>, parts: seq<AssistantPart>): map<string, string> {
    if parts == [] then names
    else
      var before, last := NamesOf(names, parts[..|parts| - 1]), parts[|parts| - 1];
      if last.CallPart? then before[last.callId := last.name] else before
  }

  function Names(messages: seq<HistoryMessage>): map<string, string> {
    if messages == [] then map[]
    else
      var before, last := Names(messages[..|messages| - 1]), messages[|messages| - 1];
      if last.AssistantTurn? then NamesOf(before, last.parts) else before
  }

  /** Every message converted, with the names of the calls up to it. */
  function ConvertAll(files: Files, messages: seq<HistoryMessage>): Result<seq<PromptMessage>, AiError> {
    if messages == [] then Ok([])
    else
      match ConvertAll(files, messages[..|messages| - 1])
      case Err(e) => Err(e)
      case Ok(before) =>
        match ConvertMessage(files, Names(messages), messages[|messages| - 1])
        case Err(e) => Err(e)
        case Ok(last) => Ok(before + [last])
  }

  // ----- Combining tool messages

  /** The answers with the options of their message merged into the last one's. */
  function Sealed(answers: seq<Answer>, options: Metadata): seq<Answer> {
    if answers == [] || options.None? then answers
    else
      var n := |answers| - 1;
      answers[n := answers[n].(options := MergeOptions(options, answers[n].options))]
  }

  function PushCombining(messages: seq<PromptMessage>, m: PromptMessage): seq<PromptMessage> {
    var n := |messages| - 1;
    if n >= 0 && messages[n].ToolMessage? && m.ToolMessage?
    then messages[n := ToolMessage(Sealed(messages[n].answers, messages[n].options) + m.answers, m.options)]
    else messages + [m]
  }

  function Combine(messages: seq<PromptMessage>): seq<PromptMessage> {
    if messages == [] then [] else PushCombining(Combine(messages[..|messages| - 1]), messages[|messages| - 1])
  }

  predicate IsEmpty(m: PromptMessage) { m.ToolMessage? && m.answers == [] }

  function DropEmpty(messages: seq<PromptMessage>): seq<PromptMessage> {
    if messages == [] then []
    else
      var last := messages[|messages| - 1];
      DropEmpty(messages[..|messages| - 1]) + if IsEmpty(last) then [] else [last]
  }

  // ----- What the check sees

  function PartEvents(parts: seq<AssistantPart>): seq<History.Event> {
    if parts == [] then []
    else
      var last := parts[|parts| - 1];
      PartEvents(parts[..|parts| - 1]) +
      if last.CallPart? && !IsTrue(last.providerExecuted) then [History.CallMade(last.callId)] else []
  }

  function AnswerEvents(answers: seq<Answer>): seq<History.Event> {
    if answers == [] then []
    else
      var last := answers[|answers| - 1];
      AnswerEvents(answers[..|answers| - 1]) + if last.ToolAnswer? then [History.ResultGiven(last.callId)] else []
  }

  function MessageEvents(m: PromptMessage): seq<History.Event> {
    match m
    case AssistantMessage(parts, _) => PartEvents(parts)
    case ToolMessage(answers, _) => AnswerEvents(answers)
    case _ => [History.Turn]
  }

  function Events(messages: seq<PromptMessage>): seq<History.Event> {
    if messages == [] then [] else Events(messages[..|messages| - 1]) + MessageEvents(messages[|messages| - 1])
  }

  // ----- Approvals

  function RequestsOf(requests: map<string, string>, parts: seq<AssistantPart>): map<string, string> {
    if parts == [] then requests
    else
      var before, last := RequestsOf(requests, parts[..|parts| - 1]), parts[|parts| - 1];
      if last.ApprovalRequestPart? then before[last.approvalId := last.callId] else before
  }

  /** The call each approval id was last requested for. */
  function Requests(messages: seq<HistoryMessage>): map<string, string> {
    if messages == [] then map[]
    else
      var before, last := Requests(messages[..|messages| - 1]), messages[|messages| - 1];
      if last.AssistantTurn? then RequestsOf(before, last.parts) else before
  }

  predicate Responds(m: HistoryMessage, approvalId: string) {
    m.ToolTurn? && exists i :: 0 <= i < |m.answers| && m.answers[i].ApprovalAnswer? && m.answers[i].approvalId == approvalId
  }

  predicate HasResponse(messages: seq<HistoryMessage>, approvalId: string) {
    exists i :: 0 <= i < |messages| && Responds(messages[i], approvalId)
  }

  /** The calls whose approval request has a response, approved or not. */
  function Approved(messages: seq<HistoryMessage>): set<string> {
    var requests := Requests(messages);
    set a | a in requests && HasResponse(messages, a) :: requests[a]
  }

  // ----- The prompt

  function Leading(instructions: Option<string>): seq<PromptMessage> {
    if instructions.Some? then [SystemMessage(instructions.value, None)] else []
  }

  function Prompt(files: Files, messages: seq<HistoryMessage>, instructions: Option<string>): Result<seq<PromptMessage>, AiError> {
    match ConvertAll(files, messages)
    case Err(e) => Err(e)
    case Ok(converted) =>
      var combined := Combine(Leading(instructions) + converted);
      match History.CheckEvents(Events(combined), Approved(messages))
      case Err(e) => Err(e)
      case Ok(_) => Ok(DropEmpty(combined))
  }

  // ----- Nothing is lost or reordered

  /** A piece of the prompt: an answer, its options aside, or another message. */
  datatype Piece = AnswerPiece(answer: Answer) | MessagePiece(message: PromptMessage)

  function Bare(a: Answer): Answer { a.(options := None) }

  function AnswerPieces(answers: seq<Answer>): seq<Piece> {
    seq(|answers|, i requires 0 <= i < |answers| => AnswerPiece(Bare(answers[i])))
  }

  function MessagePieces(m: PromptMessage): seq<Piece> {
    if m.ToolMessage? then AnswerPieces(m.answers) else [MessagePiece(m)]
  }

  /** The prompt as a row of pieces: where one tool message ends is not seen. */
  function Pieces(messages: seq<PromptMessage>): seq<Piece> {
    if messages == [] then [] else Pieces(messages[..|messages| - 1]) + MessagePieces(messages[|messages| - 1])
  }

  ghost predicate NoAdjacentTools(messages: seq<PromptMessage>) {
    forall i :: 0 < i < |messages| ==> !(messages[i - 1].ToolMessage? && messages[i].ToolMessage?)
  }

  lemma {:induction false} PiecesSnoc(messages: seq<PromptMessage>, m: PromptMessage)
    ensures Pieces(messages + [m]) == Pieces(messages) + MessagePieces(m)
  {
    assert (messages + [m])[..|messages|] == messages;
  }

  lemma {:induction false} SealedPieces(answers: seq<Answer>, options: Metadata, more: seq<Answer>)
    ensures AnswerPieces(Sealed(answers, options) + more) == AnswerPieces(answers) + AnswerPieces(more)
  {
    hide MergeOptions;
  }

  lemma {:induction false} PushKeepsPieces(messages: seq<PromptMessage>, m: PromptMessage)
    ensures Pieces(PushCombining(messages, m)) == Pieces(messages) + MessagePieces(m)
  {
    hide Pieces, Sealed, AnswerPieces;
    var n := |messages| - 1;
    if n >= 0 && messages[n].ToolMessage? && m.ToolMessage? {
      var rest, last := messages[..n], messages[n];
      var both := ToolMessage(Sealed(last.answers, last.options) + m.answers, m.options);
      assert messages == rest + [last] && PushCombining(messages, m) == rest + [both];
      PiecesSnoc(rest, last);
      PiecesSnoc(rest, both);
      SealedPieces(last.answers, last.options, m.answers);
    } else {
      PiecesSnoc(messages, m);
    }
  }

  lemma {:induction false} CombineKeepsPieces(messages: seq<PromptMessage>)
    ensures Pieces(Combine(messages)) == Pieces(messages)
    ensures NoAdjacentTools(Combine(messages))
  {
    if messages != [] {
      CombineKeepsPieces(messages[..|messages| - 1]);
      PushKeepsPieces(Combine(messages[..|messages| - 1]), messages[|messages| - 1]);
    }
  }

  /** What stays when empty tool messages are dropped. */
  ghost predicate Tidied(messages: seq<PromptMessage>, kept: seq<PromptMessage>) {
    && Pieces(kept) == Pieces(messages) && NoAdjacentTools(kept)
    && (forall i :: 0 <= i < |kept| ==> !IsEmpty(kept[i]))
    && (messages != [] && !messages[|messages| - 1].ToolMessage? ==> kept != [] && !kept[|kept| - 1].ToolMessage?)
    && (messages == [] ==> kept == [])
  }

  lemma {:induction false} DropEmptyKeeps(messages: seq<PromptMessage>)
    requires NoAdjacentTools(messages)
    ensures Tidied(messages, DropEmpty(messages))
  {
    if messages != [] {
      var rest, last := messages[..|messages| - 1], messages[|messages| - 1];
      assert messages == rest + [last];
      DropEmptyKeeps(rest);
      TidyNext(rest, last, DropEmpty(rest));
      hide Tidied;
      assert DropEmpty(rest) + [] == DropEmpty(rest);
    }
  }

  lemma {:induction false} TidyNext(rest: seq<PromptMessage>, last: PromptMessage, kept: seq<PromptMessage>)
    requires NoAdjacentTools(rest + [last]) && Tidied(rest, kept)
    ensures Tidied(rest + [last], if IsEmpty(last) then kept else kept + [last])
  {
    PiecesSnoc(rest, last);
    PiecesSnoc(kept, last);
    hide Pieces;
    var messages := rest + [last];
    if IsEmpty(last) {
      assert |MessagePieces(last)| == 0;
      assert Pieces(rest) + MessagePieces(last) == Pieces(rest);
    } else if rest != [] && last.ToolMessage? {
      assert messages[|rest|] == last && messages[|rest| - 1] == rest[|rest| - 1];
      assert !rest[|rest| - 1].ToolMessage?;
    }
  }

  /** The prompt has each run of tool messages as one and no empty one, and its
      messages and answers are the converted ones, in order. */
  lemma {:induction false} PromptIsGrouped(files: Files, messages: seq<HistoryMessage>, instructions: Option<string>)
    requires Prompt(files, messages, instructions).Ok?
    ensures var prompt, converted := Prompt(files, messages, instructions).value, ConvertAll(files, messages);
            && converted.Ok?
            && NoAdjacentTools(prompt)
            && (forall i :: 0 <= i < |prompt| ==> !IsEmpty(prompt[i]))
            && Pieces(prompt) == Pieces(Leading(instructions) + converted.value)
  {
    var all := Leading(instructions) + ConvertAll(files, messages).value;
    CombineKeepsPieces(all);
    DropEmptyKeeps(Combine(all));
    hide Combine, DropEmpty, Pieces;
  }

  // ----- Runs of tool messages

  ghost predicate AllTools(run: seq<PromptMessage>) { forall i :: 0 <= i < |run| ==> run[i].ToolMessage? }

  /** The answers of the first messages of a run. */
  function RunAnswers(run: seq<PromptMessage>, n: nat): seq<Answer>
    requires n <= |run| && AllTools(run)
  {
    if n == 0 then [] else RunAnswers(run, n - 1) + run[n - 1].answers
  }

  /** The options of the answer at `i`: under its own, those of each of the
      first messages of the run that has the answer as its last so far. */
  function Inherited(run: seq<PromptMessage>, n: nat, i: nat, own: Metadata): Metadata
    requires n <= |run| && AllTools(run)
  {
    if n == 0 then own
    else
      var before := Inherited(run, n - 1, i, own);
      if |RunAnswers(run, n)| == i + 1 && run[n - 1].options.Some? then MergeOptions(run[n - 1].options, before) else before
  }

  ghost predicate IsCombined(run: seq<PromptMessage>, n: nat, answers: seq<Answer>)
    requires 0 < n <= |run| && AllTools(run)
  {
    var plain := RunAnswers(run, n);
    && |answers| == |plain|
    && forall i :: 0 <= i < |plain| ==> answers[i] == plain[i].(options := Inherited(run, n - 1, i, plain[i].options))
  }

  lemma {:induction false} RunAnswersGrow(run: seq<PromptMessage>, n: nat, i: nat, own: Metadata)
    requires n < |run| && AllTools(run) && |RunAnswers(run, n)| <= i
    ensures Inherited(run, n, i, own) == own
  {
    hide MergeOptions;
    if n > 0 { RunAnswersGrow(run, n - 1, i, own); }
  }

  lemma {:induction false} CombinedNext(run: seq<PromptMessage>, n: nat, answers: seq<Answer>)
    requires 0 < n < |run| && AllTools(run) && IsCombined(run, n, answers)
    ensures IsCombined(run, n + 1, Sealed(answers, run[n - 1].options) + run[n].answers)
  {
    hide MergeOptions, RunAnswers;
    var plain, more := RunAnswers(run, n), run[n].answers;
    assert RunAnswers(run, n + 1) == plain + more by { RunNext(run, n); }
    var all := Sealed(answers, run[n - 1].options) + more;
    forall i | 0 <= i < |plain + more|
      ensures all[i] == (plain + more)[i].(options := Inherited(run, n, i, (plain + more)[i].options))
    {
      if i >= |plain| { RunAnswersGrow(run, n, i, more[i - |plain|].options); }
    }
  }

  lemma {:induction false} RunNext(run: seq<PromptMessage>, n: nat)
    requires n < |run| && AllTools(run)
    ensures RunAnswers(run, n + 1) == RunAnswers(run, n) + run[n].answers
  {
  }

  lemma {:induction false} FirstCombined(run: seq<PromptMessage>)
    requires run != [] && AllTools(run)
    ensures Combine(run[..1]) == [run[0]] && IsCombined(run, 1, run[0].answers)
  {
    assert run[..1][..0] == [] && [] + run[0].answers == run[0].answers;
  }

  lemma {:induction false} RunCombined(run: seq<PromptMessage>, n: nat) returns (answers: seq<Answer>)
    requires 0 < n <= |run| && AllTools(run)
    ensures Combine(run[..n]) == [ToolMessage(answers, run[n - 1].options)] && IsCombined(run, n, answers)
  {
    if n == 1 {
      answers := run[0].answers;
      FirstCombined(run);
    } else {
      var before := RunCombined(run, n - 1);
      assert run[..n][..n - 1] == run[..n - 1];
      answers := Sealed(before, run[n - 2].options) + run[n - 1].answers;
      CombinedNext(run, n - 1, before);
      hide Sealed, IsCombined;
    }
  }

  /** After a message that is no tool message, a run is combined on its own. */
  lemma {:induction false} RunIsApart(messages: seq<PromptMessage>, run: seq<PromptMessage>)
    requires AllTools(run) && (messages == [] || !messages[|messages| - 1].ToolMessage?)
    ensures Combine(messages + run) == Combine(messages) + Combine(run)
    ensures run != [] ==> |Combine(run)| == 1 && Combine(run)[0].ToolMessage?
  {
    if run == [] {
      assert messages + run == messages;
      assert Combine(messages) + [] == Combine(messages);
    } else {
      var rest, last := run[..|run| - 1], run[|run| - 1];
      assert run == rest + [last];
      RunIsApart(messages, rest);
      EndsApart(messages, rest, last);
    }
  }

  lemma {:induction false} EndsApart(messages: seq<PromptMessage>, rest: seq<PromptMessage>, last: PromptMessage)
    requires last.ToolMessage? && (messages == [] || !messages[|messages| - 1].ToolMessage?)
    requires Combine(messages + rest) == Combine(messages) + Combine(rest)
    requires if rest == [] then Combine(rest) == [] else |Combine(rest)| == 1 && Combine(rest)[0].ToolMessage?
    ensures var run := rest + [last];
            && Combine(messages + run) == Combine(messages) + Combine(run)
            && |Combine(run)| == 1 && Combine(run)[0].ToolMessage?
  {
    LastCombined(messages);
    assert messages == [] ==> Combine(messages) == [];
    hide Combine, PushCombining;
    assert messages + (rest + [last]) == (messages + rest) + [last];
    CombineSnoc(messages + rest, last);
    CombineSnoc(rest, last);
    PushApart(Combine(messages), Combine(rest), last);
  }

  lemma {:induction false} PushApart(messages: seq<PromptMessage>, run: seq<PromptMessage>, m: PromptMessage)
    requires |run| <= 1 && (messages == [] || run != [] || !messages[|messages| - 1].ToolMessage?)
    requires run != [] ==> run[0].ToolMessage?
    requires m.ToolMessage?
    ensures PushCombining(messages + run, m) == messages + PushCombining(run, m)
    ensures |PushCombining(run, m)| == 1 && PushCombining(run, m)[0].ToolMessage?
  {
    hide Sealed;
    if run == [] { assert messages + run == messages; }
  }

  lemma {:induction false} LastCombined(messages: seq<PromptMessage>)
    ensures messages != [] && !messages[|messages| - 1].ToolMessage? ==>
              Combine(messages) == Combine(messages[..|messages| - 1]) + [messages[|messages| - 1]]
  {
  }

  lemma {:induction false} CombineNonEmpty(messages: seq<PromptMessage>)
    ensures messages != [] ==> Combine(messages) != []
  {
    hide Sealed;
    if messages != [] { CombineNonEmpty(messages[..|messages| - 1]); }
  }

  /** What begins with a message that is no tool message is combined on its own. */
  lemma {:induction false} CombineSplits(messages: seq<PromptMessage>, rest: seq<PromptMessage>)
    requires rest == [] || !rest[0].ToolMessage?
    ensures Combine(messages + rest) == Combine(messages) + Combine(rest)
  {
    if rest == [] {
      assert messages + rest == messages;
      assert Combine(messages) + [] == Combine(messages);
    } else {
      var before, last := rest[..|rest| - 1], rest[|rest| - 1];
      assert rest == before + [last];
      CombineSplits(messages, before);
      CombineNonEmpty(before);
      hide Combine, Sealed;
      assert messages + (before + [last]) == (messages + before) + [last];
      CombineSnoc(messages + before, last);
      CombineSnoc(before, last);
      PushOnto(Combine(messages), Combine(before), last);
    }
  }

  lemma {:induction false} PushOnto(messages: seq<PromptMessage>, after: seq<PromptMessage>, m: PromptMessage)
    requires after != [] || !m.ToolMessage?
    ensures PushCombining(messages + after, m) == messages + PushCombining(after, m)
  {
    hide Sealed;
    if after == [] { assert messages + after == messages; }
  }

  /** A whole run of tool messages, whatever comes before and after it, becomes
      one message with the options of the last. Its answers are those of the
      run; only an answer that is the last of an earlier message has options
      merged into its own. */
  lemma {:induction false} RunBecomesOne(messages: seq<PromptMessage>, run: seq<PromptMessage>, rest: seq<PromptMessage>)
    returns (answers: seq<Answer>)
    requires run != [] && AllTools(run)
    requires (messages == [] || !messages[|messages| - 1].ToolMessage?) && (rest == [] || !rest[0].ToolMessage?)
    ensures Combine(messages + run + rest) == Combine(messages) + [ToolMessage(answers, run[|run| - 1].options)] + Combine(rest)
    ensures IsCombined(run, |run|, answers)
    ensures forall i :: 0 <= i < |answers| && !EndsEarlier(run, i) ==> answers[i] == RunAnswers(run, |run|)[i]
  {
    RunIsApart(messages, run);
    CombineSplits(messages + run, rest);
    answers := RunCombined(run, |run|);
    assert run[..|run|] == run;
    hide Combine;
    OnlyLastsChange(run, answers);
    hide RunAnswers, IsCombined;
  }

  /** The answer at `i` is the last of the first messages of a run, not all. */
  ghost predicate EndsEarlier(run: seq<PromptMessage>, i: nat)
    requires AllTools(run)
  {
    exists n :: 0 < n < |run| && |RunAnswers(run, n)| == i + 1
  }

  lemma {:induction false} OnlyLastsChange(run: seq<PromptMessage>, answers: seq<Answer>)
    requires run != [] && AllTools(run) && IsCombined(run, |run|, answers)
    ensures forall i :: 0 <= i < |answers| && !EndsEarlier(run, i) ==> answers[i] == RunAnswers(run, |run|)[i]
  {
    hide RunAnswers, Inherited;
    forall i | 0 <= i < |answers| && !EndsEarlier(run, i) ensures answers[i] == RunAnswers(run, |run|)[i] {
      InheritsNothing(run, |run| - 1, i, RunAnswers(run, |run|)[i].options);
    }
  }

  lemma {:induction false} InheritsNothing(run: seq<PromptMessage>, n: nat, i: nat, own: Metadata)
    requires n <= |run| && AllTools(run) && forall k :: 0 < k <= n ==> |RunAnswers(run, k)| != i + 1
    ensures Inherited(run, n, i, own) == own
  {
    if n > 0 { InheritsNothing(run, n - 1, i, own); }
  }

  /** When no earlier message of the run is empty, the last answer of each takes
      its message's options under its own, and that only. */
  lemma {:induction false} LastInheritsOnce(run: seq<PromptMessage>, n: nat, k: nat, own: Metadata)
    requires 0 < k <= n < |run| && AllTools(run) && forall j :: 0 <= j < n ==> !IsEmpty(run[j])
    ensures |RunAnswers(run, k)| > 0
    ensures Inherited(run, n, |RunAnswers(run, k)| - 1, own)
         == if run[k - 1].options.Some? then MergeOptions(run[k - 1].options, own) else own
  {
    hide MergeOptions;
    RunNext(run, k - 1);
    if n > k {
      LastInheritsOnce(run, n - 1, k, own);
      Longer(run, k, n);
    } else {
      RunAnswersGrow(run, k - 1, |RunAnswers(run, k)| - 1, own);
    }
  }

  lemma {:induction false} Longer(run: seq<PromptMessage>, k: nat, n: nat)
    requires k < n <= |run| && AllTools(run) && forall j :: k <= j < n ==> !IsEmpty(run[j])
    ensures |RunAnswers(run, k)| < |RunAnswers(run, n)|
  {
    if n > k + 1 { Longer(run, k, n - 1); }
  }

  // ----- The check sees the history

  function PieceEvents(p: Piece): seq<History.Event> {
    match p
    case AnswerPiece(a) => if a.ToolAnswer? then [History.ResultGiven(a.callId)] else []
    case MessagePiece(m) => if m.AssistantMessage? then PartEvents(m.parts) else if m.ToolMessage? then [] else [History.Turn]
  }

  function RowEvents(pieces: seq<Piece>): seq<History.Event> {
    if pieces == [] then [] else RowEvents(pieces[..|pieces| - 1]) + PieceEvents(pieces[|pieces| - 1])
  }

  lemma {:induction false} RowEventsAdd(a: seq<Piece>, b: seq<Piece>)
    ensures RowEvents(a + b) == RowEvents(a) + RowEvents(b)
  {
    hide PieceEvents;
    if b == [] {
      assert a + b == a;
    } else {
      assert (a + b)[..|a + b| - 1] == a + b[..|b| - 1];
      RowEventsAdd(a, b[..|b| - 1]);
    }
  }

  lemma {:induction false} AnswerRow(answers: seq<Answer>)
    ensures RowEvents(AnswerPieces(answers)) == AnswerEvents(answers)
  {
    if answers != [] {
      AnswerRow(answers[..|answers| - 1]);
      assert AnswerPieces(answers)[..|answers| - 1] == AnswerPieces(answers[..|answers| - 1]);
    }
  }

  lemma {:induction false} MessageRow(m: PromptMessage)
    ensures RowEvents(MessagePieces(m)) == MessageEvents(m)
  {
    if m.ToolMessage? { AnswerRow(m.answers); } else { assert [MessagePiece(m)][..0] == []; }
  }

  /** The check sees pieces only, so combining changes nothing for it. */
  lemma {:induction false} EventsOfPieces(messages: seq<PromptMessage>)
    ensures Events(messages) == RowEvents(Pieces(messages))
  {
    if messages != [] {
      var rest, last := messages[..|messages| - 1], messages[|messages| - 1];
      EventsOfPieces(rest);
      MessageRow(last);
      hide RowEvents, MessagePieces, MessageEvents;
      RowEventsAdd(Pieces(rest), MessagePieces(last));
    }
  }

  /** The client calls, results and turns of a history itself. */
  function TurnEvents(m: HistoryMessage): seq<History.Event> {
    match m
    case SystemTurn(_, _) => [History.Turn]
    case UserTurn(_, _) => [History.Turn]
    case AssistantText(_, _) => []
    case AssistantTurn(parts, _) => PartEvents(parts)
    case ToolTurn(answers, _) => ResultEvents(answers)
  }

  function ResultEvents(answers: seq<ToolPart>): seq<History.Event> {
    if answers == [] then []
    else
      var last := answers[|answers| - 1];
      ResultEvents(answers[..|answers| - 1]) + if last.ClientResult? then [History.ResultGiven(last.result.callId)] else []
  }

  function HistoryEvents(messages: seq<HistoryMessage>): seq<History.Event> {
    if messages == [] then [] else HistoryEvents(messages[..|messages| - 1]) + TurnEvents(messages[|messages| - 1])
  }

  lemma {:induction false} PartEventsAdd(parts: seq<AssistantPart>, more: seq<AssistantPart>)
    requires |more| <= 1
    ensures PartEvents(parts + more) == PartEvents(parts) + PartEvents(more)
  {
    if more == [] { assert parts + more == parts; }
    else { assert (parts + more)[..|parts|] == parts && more[..0] == []; }
  }

  lemma {:induction false} AnswerEventsAdd(answers: seq<Answer>, more: seq<Answer>)
    requires |more| <= 1
    ensures AnswerEvents(answers + more) == AnswerEvents(answers) + AnswerEvents(more)
  {
    if more == [] { assert answers + more == answers; }
    else { assert (answers + more)[..|answers|] == answers && more[..0] == []; }
  }

  lemma {:induction false} PartKeepsEvents(files: Files, names: map<string, string>, p: AssistantPart)
    requires ConvertPart(files, names, p).Ok?
    ensures |ConvertPart(files, names, p).value| <= 1
    ensures PartEvents(ConvertPart(files, names, p).value) == PartEvents([p])
  {
    assert [p][..0] == [];
    var converted := ConvertPart(files, names, p).value;
    if converted != [] { assert converted[..0] == []; }
  }

  lemma {:induction false} ConvertPartsLast(files: Files, names: map<string, string>, parts: seq<AssistantPart>)
    requires parts != [] && ConvertParts(files, names, parts).Ok?
    ensures var before := ConvertParts(files, names, parts[..|parts| - 1]);
            var last := ConvertPart(files, names, parts[|parts| - 1]);
            before.Ok? && last.Ok? && ConvertParts(files, names, parts).value == before.value + last.value
  {
    hide ConvertPart;
  }

  lemma {:induction false} PartsKeepEvents(files: Files, names: map<string, string>, parts: seq<AssistantPart>)
    requires ConvertParts(files, names, parts).Ok?
    ensures PartEvents(ConvertParts(files, names, parts).value) == PartEvents(parts)
  {
    hide *;
    if parts == [] {
      NoPartsConverted(files, names);
    } else {
      var rest, p := parts[..|parts| - 1], parts[|parts| - 1];
      ConvertPartsLast(files, names, parts);
      PartsKeepEvents(files, names, rest);
      PartKeepsEvents(files, names, p);
      JoinedEvents(rest, p, ConvertParts(files, names, rest).value, ConvertPart(files, names, p).value);
      assert rest + [p] == parts;
    }
  }

  lemma {:induction false} NoPartsConverted(files: Files, names: map<string, string>)
    ensures ConvertParts(files, names, []) == Ok([])
  {
  }

  lemma {:induction false} JoinedEvents(rest: seq<AssistantPart>, p: AssistantPart, before: seq<AssistantPart>, last: seq<AssistantPart>)
    requires |last| <= 1 && PartEvents(before) == PartEvents(rest) && PartEvents(last) == PartEvents([p])
    ensures PartEvents(before + last) == PartEvents(rest + [p])
  {
    hide *;
    PartEventsAdd(before, last);
    PartEventsAdd(rest, [p]);
  }

  lemma {:induction false} AnswerKeepsEvents(names: map<string, string>, p: ToolPart)
    requires ConvertAnswer(names, p).Ok?
    ensures |ConvertAnswer(names, p).value| <= 1
    ensures AnswerEvents(ConvertAnswer(names, p).value) == if p.ClientResult? then [History.ResultGiven(p.result.callId)] else []
  {
    var converted := ConvertAnswer(names, p).value;
    if converted != [] { assert converted[..0] == []; }
  }

  lemma {:induction false} AnswersKeepEvents(names: map<string, string>, answers: seq<ToolPart>)
    requires ConvertAnswers(names, answers).Ok?
    ensures AnswerEvents(ConvertAnswers(names, answers).value) == ResultEvents(answers)
  {
    if answers != [] {
      var rest, p := answers[..|answers| - 1], answers[|answers| - 1];
      AnswersKeepEvents(names, rest);
      AnswerKeepsEvents(names, p);
      hide ConvertAnswer, AnswerEvents;
      AnswerEventsAdd(ConvertAnswers(names, rest).value, ConvertAnswer(names, p).value);
    }
  }

  lemma {:induction false} MessageKeepsEvents(files: Files, names: map<string, string>, m: HistoryMessage)
    requires ConvertMessage(files, names, m).Ok?
    ensures MessageEvents(ConvertMessage(files, names, m).value) == TurnEvents(m)
  {
    match m
    case AssistantTurn(parts, _) => PartsKeepEvents(files, names, parts);
    case ToolTurn(answers, _) => AnswersKeepEvents(names, answers);
    case AssistantText(text, _) =>
      var parts := [AssistantPart.TextPart(text, None)];
      assert parts[..0] == [];
      assert PartEvents(parts) == PartEvents(parts[..0]) + [];
    case _ =>
  }

  lemma {:induction false} EventsSnoc(messages: seq<PromptMessage>, m: PromptMessage)
    ensures Events(messages + [m]) == Events(messages) + MessageEvents(m)
  {
    assert (messages + [m])[..|messages|] == messages;
  }

  lemma {:induction false} ConvertAllLast(files: Files, messages: seq<HistoryMessage>)
    requires messages != [] && ConvertAll(files, messages).Ok?
    ensures var before := ConvertAll(files, messages[..|messages| - 1]);
            var last := ConvertMessage(files, Names(messages), messages[|messages| - 1]);
            before.Ok? && last.Ok? && ConvertAll(files, messages).value == before.value + [last.value]
  {
    hide ConvertMessage, Names;
  }

  lemma {:induction false} ConversionKeepsEvents(files: Files, messages: seq<HistoryMessage>, lead: seq<PromptMessage>)
    requires ConvertAll(files, messages).Ok?
    ensures Events(lead + ConvertAll(files, messages).value) == Events(lead) + HistoryEvents(messages)
  {
    hide ConvertMessage, Events, MessageEvents, TurnEvents, Names;
    if messages == [] {
      assert lead + [] == lead;
      assert Events(lead) + [] == Events(lead);
    } else {
      ConvertAllLast(files, messages);
      ConversionKeepsEvents(files, messages[..|messages| - 1], lead);
      LastKeepsEvents(files, messages, lead);
    }
  }

  lemma {:induction false} LastKeepsEvents(files: Files, messages: seq<HistoryMessage>, lead: seq<PromptMessage>)
    requires messages != [] && ConvertAll(files, messages).Ok? && ConvertAll(files, messages[..|messages| - 1]).Ok?
    requires Events(lead + ConvertAll(files, messages[..|messages| - 1]).value)
          == Events(lead) + HistoryEvents(messages[..|messages| - 1])
    ensures Events(lead + ConvertAll(files, messages).value) == Events(lead) + HistoryEvents(messages)
  {
    hide *;
    var rest, m := messages[..|messages| - 1], messages[|messages| - 1];
    ConvertAllLast(files, messages);
    var before, last := ConvertAll(files, rest).value, ConvertMessage(files, Names(messages), m).value;
    MessageKeepsEvents(files, Names(messages), m);
    EventsSnoc(lead + before, last);
    HistoryLast(messages);
    Assoc(lead, before, [last]);
    Assoc(Events(lead), HistoryEvents(rest), TurnEvents(m));
  }

  lemma {:induction false} HistoryLast(messages: seq<HistoryMessage>)
    requires messages != []
    ensures HistoryEvents(messages) == HistoryEvents(messages[..|messages| - 1]) + TurnEvents(messages[|messages| - 1])
  {
  }

  lemma {:induction false} Assoc<T>(a: seq<T>, b: seq<T>, c: seq<T>)
    ensures (a + b) + c == a + (b + c)
  {
  }

  function LeadEvents(instructions: Option<string>): seq<History.Event> { if instructions.Some? then [History.Turn] else [] }

  /** What is checked is the history, with the instructions as a first turn. */
  lemma {:induction false} CheckedIsHistory(files: Files, messages: seq<HistoryMessage>, instructions: Option<string>)
    requires ConvertAll(files, messages).Ok?
    ensures Events(Combine(Leading(instructions) + ConvertAll(files, messages).value))
         == LeadEvents(instructions) + HistoryEvents(messages)
  {
    var lead, converted := Leading(instructions), ConvertAll(files, messages).value;
    if instructions.Some? { EventsSnoc([], lead[0]); assert [] + [lead[0]] == lead; }
    assert Events(lead) == LeadEvents(instructions);
    hide Events, Combine, Pieces, RowEvents;
    CombineKeepsPieces(lead + converted);
    EventsOfPieces(lead + converted);
    EventsOfPieces(Combine(lead + converted));
    ConversionKeepsEvents(files, messages, lead);
  }

  /** A history whose messages convert has a prompt exactly when every client
      call without approval is answered before the next turn or the end. */
  lemma {:induction false} AcceptedHistory(files: Files, messages: seq<HistoryMessage>, instructions: Option<string>)
    requires ConvertAll(files, messages).Ok?
    ensures var events := LeadEvents(instructions) + HistoryEvents(messages);
            var prompt := Prompt(files, messages, instructions);
            && (prompt.Ok? <==> History.AllAnswered(events, Approved(messages)))
            && (prompt.Err? ==>
                  && prompt.error.MissingToolResults?
                  && exists m :: History.FirstMissing(prompt.error.toolCallIds, events, m, Approved(messages)))
  {
    CheckedIsHistory(files, messages, instructions);
    History.CheckIsTheRule(LeadEvents(instructions) + HistoryEvents(messages), Approved(messages));
    hide Combine, Events, HistoryEvents, Approved, ConvertAll;
  }

  // ----- The code

  method PushMessage(messages: seq<PromptMessage>, m: PromptMessage) returns (pushed: seq<PromptMessage>)
    ensures pushed == PushCombining(messages, m)
  {
    if messages == [] || !messages[|messages| - 1].ToolMessage? || !m.ToolMessage? { return messages + [m]; }
    var last := messages[|messages| - 1];
    var answers := last.answers;
    if answers != [] && last.options.Some? {
      var part := answers[|answers| - 1];
      var options := MergeInto(last.options, part.options);
      answers := answers[|answers| - 1 := part.(options := options)];
    }
    pushed := messages[|messages| - 1 := ToolMessage(answers + m.answers, m.options)];
  }

  lemma {:induction false} AfterPrefix(events: seq<History.Event>, more: seq<History.Event>, n: nat, approved: set<string>)
    requires n <= |events|
    ensures History.After(events + more, n, approved) == History.After(events, n, approved)
  {
    if n > 0 { AfterPrefix(events, more, n - 1, approved); }
  }

  lemma {:induction false} AfterSnoc(events: seq<History.Event>, e: History.Event, approved: set<string>)
    ensures History.After(events + [e], |events| + 1, approved)
         == History.Next(History.After(events, |events|, approved), e, approved)
  {
    AfterPrefix(events, [e], |events|, approved);
  }

  lemma {:induction false} MissingStays(events: seq<History.Event>, more: seq<History.Event>, n: nat, approved: set<string>)
    requires |events| <= n <= |events| + |more| && History.After(events, |events|, approved).Missing?
    ensures History.After(events + more, n, approved) == History.After(events, |events|, approved)
  {
    if n == |events| { AfterPrefix(events, more, n, approved); } else { MissingStays(events, more, n - 1, approved); }
  }

  lemma {:induction false} EventsFrom(messages: seq<PromptMessage>, n: nat) returns (more: seq<History.Event>)
    requires n <= |messages|
    ensures Events(messages) == Events(messages[..n]) + more
    decreases |messages| - n
  {
    hide MessageEvents;
    if n == |messages| {
      assert messages[..n] == messages;
      more := [];
    } else {
      more := EventsFrom(messages, n + 1);
      assert messages[..n + 1][..n] == messages[..n];
      more := MessageEvents(messages[n]) + more;
    }
  }

  method CheckCalls(parts: seq<AssistantPart>, open: seq<string>, ghost events: seq<History.Event>, ghost approved: set<string>)
    returns (after: seq<string>)
    requires History.After(events, |events|, approved) == History.Open(open)
    ensures var all := events + PartEvents(parts); History.After(all, |all|, approved) == History.Open(after)
  {
    hide History.After;
    after := open;
    ghost var all := events;
    assert events + [] == events;
    for n := 0 to |parts|
      invariant all == events + PartEvents(parts[..n])
      invariant History.After(all, |all|, approved) == History.Open(after)
    {
      var part := parts[n];
      assert parts[..n + 1][..n] == parts[..n];
      if part.CallPart? && !IsTrue(part.providerExecuted) {
        AfterSnoc(all, History.CallMade(part.callId), approved);
        all := all + [History.CallMade(part.callId)];
        if part.callId !in after { after := after + [part.callId]; }
      }
    }
    assert parts[..|parts|] == parts;
  }

  method CheckAnswers(answers: seq<Answer>, open: seq<string>, ghost events: seq<History.Event>, ghost approved: set<string>)
    returns (after: seq<string>)
    requires History.After(events, |events|, approved) == History.Open(open)
    ensures var all := events + AnswerEvents(answers); History.After(all, |all|, approved) == History.Open(after)
  {
    hide History.After;
    after := open;
    ghost var all := events;
    assert events + [] == events;
    for n := 0 to |answers|
      invariant all == events + AnswerEvents(answers[..n])
      invariant History.After(all, |all|, approved) == History.Open(after)
    {
      var answer := answers[n];
      assert answers[..n + 1][..n] == answers[..n];
      if answer.ToolAnswer? {
        AfterSnoc(all, History.ResultGiven(answer.callId), approved);
        all := all + [History.ResultGiven(answer.callId)];
        after := History.Without(after, {answer.callId});
      }
    }
    assert answers[..|answers|] == answers;
  }

  method CheckToolResults(messages: seq<PromptMessage>, approved: set<string>) returns (result: Result<(), AiError>)
    ensures result == History.CheckEvents(Events(messages), approved)
  {
    hide PartEvents, AnswerEvents, History.After, Events, History.Without;
    var open: seq<string> := [];
    EmptyScan(approved);
    assert messages[..0] == [];
    for n := 0 to |messages|
      invariant History.After(Events(messages[..n]), |Events(messages[..n])|, approved) == History.Open(open)
    {
      ghost var events := Events(messages[..n]);
      assert messages[..n + 1] == messages[..n] + [messages[n]];
      EventsSnoc(messages[..n], messages[n]);
      match messages[n] {
      case AssistantMessage(parts, _) => open := CheckCalls(parts, open, events, approved);
      case ToolMessage(answers, _) => open := CheckAnswers(answers, open, events, approved);
      case _ =>
        AfterSnoc(events, History.Turn, approved);
        open := History.Without(open, approved);
        if open != [] {
          MissingAtEnd(messages, n + 1, approved);
          return Err(MissingToolResults(open));
        }
      }
    }
    assert messages[..|messages|] == messages;
    open := History.Without(open, approved);
    result := if open == [] then Ok(()) else Err(MissingToolResults(open));
  }

  /** A failure within the messages is the failure of the check. */
  lemma {:induction false} MissingAtEnd(messages: seq<PromptMessage>, n: nat, approved: set<string>)
    requires n <= |messages| && History.After(Events(messages[..n]), |Events(messages[..n])|, approved).Missing?
    ensures var events := Events(messages);
            History.After(events, |events|, approved) == History.After(Events(messages[..n]), |Events(messages[..n])|, approved)
  {
    hide Events;
    var more := EventsFrom(messages, n);
    MissingStays(Events(messages[..n]), more, |Events(messages[..n]) + more|, approved);
  }

  lemma {:induction false} EmptyScan(approved: set<string>)
    ensures Events([]) == [] && History.After(Events([]), 0, approved) == History.Open([])
  {
  }

  method CollectRequests(parts: seq<AssistantPart>, requests: map<string, string>) returns (after: map<string, string>)
    ensures after == RequestsOf(requests, parts)
  {
    after := requests;
    for n := 0 to |parts|
      invariant after == RequestsOf(requests, parts[..n])
    {
      if parts[n].ApprovalRequestPart? { after := after[parts[n].approvalId := parts[n].callId]; }
      assert parts[..n + 1][..n] == parts[..n];
    }
    assert parts[..|parts|] == parts;
  }

  method CollectNames(parts: seq<AssistantPart>, names: map<string, string>) returns (after: map<string, string>)
    ensures after == NamesOf(names, parts)
  {
    after := names;
    for n := 0 to |parts|
      invariant after == NamesOf(names, parts[..n])
    {
      if parts[n].CallPart? { after := after[parts[n].callId := parts[n].name]; }
      assert parts[..n + 1][..n] == parts[..n];
    }
    assert parts[..|parts|] == parts;
  }

  /** The calls approved by the first responses of a tool message. */
  predicate AnsweredBy(answers: seq<ToolPart>, requests: map<string, string>, id: string) {
    exists i :: 0 <= i < |answers| && answers[i].ApprovalAnswer? && answers[i].approvalId in requests
                && requests[answers[i].approvalId] == id
  }

  predicate AnsweredIn(messages: seq<HistoryMessage>, n: nat, requests: map<string, string>, id: string)
    requires n <= |messages|
  {
    exists k :: 0 <= k < n && messages[k].ToolTurn? && AnsweredBy(messages[k].answers, requests, id)
  }

  lemma {:induction false} ApprovedIs(messages: seq<HistoryMessage>, id: string)
    ensures id in Approved(messages) <==> AnsweredIn(messages, |messages|, Requests(messages), id)
  {
    hide Requests;
    var requests := Requests(messages);
    if id in Approved(messages) {
      var a :| a in requests && HasResponse(messages, a) && requests[a] == id;
      var k :| 0 <= k < |messages| && Responds(messages[k], a);
      assert AnsweredBy(messages[k].answers, requests, id);
    }
    if AnsweredIn(messages, |messages|, requests, id) {
      var k :| 0 <= k < |messages| && messages[k].ToolTurn? && AnsweredBy(messages[k].answers, requests, id);
      var answers := messages[k].answers;
      var i :| 0 <= i < |answers| && answers[i].ApprovalAnswer? && answers[i].approvalId in requests
               && requests[answers[i].approvalId] == id;
      assert Responds(messages[k], answers[i].approvalId);
      assert HasResponse(messages, answers[i].approvalId);
    }
  }

  method AddApproved(answers: seq<ToolPart>, requests: map<string, string>, approved: set<string>) returns (after: set<string>)
    ensures forall id :: id in after <==> id in approved || AnsweredBy(answers, requests, id)
  {
    after := approved;
    for n := 0 to |answers|
      invariant forall id :: id in after <==> id in approved || AnsweredBy(answers[..n], requests, id)
    {
      var answer := answers[n];
      ghost var was := after;
      if answer.ApprovalAnswer? && answer.approvalId in requests { after := after + {requests[answer.approvalId]}; }
      forall id ensures id in after <==> id in approved || AnsweredBy(answers[..n + 1], requests, id) {
        AnsweredNext(answers, n, requests, id);
      }
    }
    assert answers[..|answers|] == answers;
  }

  lemma {:induction false} AnsweredNext(answers: seq<ToolPart>, n: nat, requests: map<string, string>, id: string)
    requires n < |answers|
    ensures AnsweredBy(answers[..n + 1], requests, id) <==>
            AnsweredBy(answers[..n], requests, id) ||
            (answers[n].ApprovalAnswer? && answers[n].approvalId in requests && requests[answers[n].approvalId] == id)
  {
    var more, less := answers[..n + 1], answers[..n];
    if AnsweredBy(less, requests, id) {
      var i :| 0 <= i < |less| && less[i].ApprovalAnswer? && less[i].approvalId in requests && requests[less[i].approvalId] == id;
      assert more[i] == less[i];
    }
    if AnsweredBy(more, requests, id) {
      var i :| 0 <= i < |more| && more[i].ApprovalAnswer? && more[i].approvalId in requests && requests[more[i].approvalId] == id;
      if i < n { assert less[i] == more[i]; }
    }
    assert more[n] == answers[n];
  }

  method ApprovedCalls(messages: seq<HistoryMessage>) returns (approved: set<string>)
    ensures approved == Approved(messages)
  {
    hide Approved, AnsweredBy;
    var requests: map<string, string> := map[];
    for n := 0 to |messages|
      invariant requests == Requests(messages[..n])
    {
      if messages[n].AssistantTurn? { requests := CollectRequests(messages[n].parts, requests); }
      assert messages[..n + 1][..n] == messages[..n];
    }
    assert messages[..|messages|] == messages;
    approved := {};
    for n := 0 to |messages|
      invariant forall id :: id in approved <==> AnsweredIn(messages, n, requests, id)
    {
      if messages[n].ToolTurn? { approved := AddApproved(messages[n].answers, requests, approved); }
    }
    forall id ensures id in approved <==> id in Approved(messages) { ApprovedIs(messages, id); }
  }

  method ConvertPrompt(files: Files, messages: seq<HistoryMessage>, instructions: Option<string>)
    returns (result: Result<seq<PromptMessage>, AiError>)
    ensures result == Prompt(files, messages, instructions)
  {
    hide PushCombining, ConvertMessage, Approved, NamesOf, Events, IsEmpty;
    var prompt := Leading(instructions);
    var names: map<string, string> := map[];
    LeadingCombined(instructions);
    for n := 0 to |messages|
      invariant names == Names(messages[..n]) && ConvertAll(files, messages[..n]).Ok?
      invariant prompt == Combine(Leading(instructions) + ConvertAll(files, messages[..n]).value)
    {
      assert messages[..n + 1][..n] == messages[..n];
      if messages[n].AssistantTurn? { names := CollectNames(messages[n].parts, names); }
      var converted := ConvertMessage(files, names, messages[n]);
      if converted.Err? {
        ConvertFails(files, messages, n + 1);
        return Err(converted.error);
      }
      ghost var all := Leading(instructions) + ConvertAll(files, messages[..n]).value;
      CombineSnoc(all, converted.value);
      assert all + [converted.value] == Leading(instructions) + ConvertAll(files, messages[..n + 1]).value;
      prompt := PushMessage(prompt, converted.value);
    }
    assert messages[..|messages|] == messages;
    var approved := ApprovedCalls(messages);
    var checked := CheckToolResults(prompt, approved);
    if checked.Err? { return Err(checked.error); }
    var kept := RetainNonEmpty(prompt);
    result := Ok(kept);
  }

  method RetainNonEmpty(messages: seq<PromptMessage>) returns (kept: seq<PromptMessage>)
    ensures kept == DropEmpty(messages)
  {
    kept := [];
    for n := 0 to |messages|
      invariant kept == DropEmpty(messages[..n])
    {
      if !IsEmpty(messages[n]) { kept := kept + [messages[n]]; }
      assert messages[..n + 1][..n] == messages[..n];
    }
    assert messages[..|messages|] == messages;
  }

  lemma {:induction false} CombineSnoc(messages: seq<PromptMessage>, m: PromptMessage)
    ensures Combine(messages + [m]) == PushCombining(Combine(messages), m)
  {
    hide PushCombining;
    assert (messages + [m])[..|messages|] == messages;
  }

  lemma {:induction false} LeadingCombined(instructions: Option<string>)
    ensures Combine(Leading(instructions)) == Leading(instructions)
    ensures Leading(instructions) + [] == Leading(instructions)
  {
  }

  lemma {:induction false} ConvertFails(files: Files, messages: seq<HistoryMessage>, n: nat)
    requires n <= |messages| && ConvertAll(files, messages[..n]).Err?
    ensures ConvertAll(files, messages) == ConvertAll(files, messages[..n])
    decreases |messages| - n
  {
    if n == |messages| {
      assert messages[..n] == messages;
    } else {
      assert messages[..n + 1][..n] == messages[..n];
      ConvertFails(files, messages, n + 1);
    }
  }
}
