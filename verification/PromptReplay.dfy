/** What of a history reaches the prompt, part by part, and which error stops it. */
module PromptReplay {
  import opened Wrappers
  import opened Content
  import opened ResponseMessages
  import opened PromptConversion
  import opened Selections

  // ----- Names

  /** The name of the last call of an id among parts. */
  function LastName(parts: seq<AssistantPart>, id: string): Option<string> {
    if parts == [] then None
    else
      var last := parts[|parts| - 1];
      if last.CallPart? && last.callId == id then Some(last.name) else LastName(parts[..|parts| - 1], id)
  }

  /** The name of the last call of an id in a history. */
  function LastNameIn(messages: seq<HistoryMessage>, id: string): Option<string> {
    if messages == [] then None
    else
      var last, before := messages[|messages| - 1], messages[..|messages| - 1];
      var name := if last.AssistantTurn? then LastName(last.parts, id) else None;
      if name.Some? then name else LastNameIn(before, id)
  }

  lemma {:induction false} NamesOfAreLast(names: map<string, string>, parts: seq<AssistantPart>, id: string)
    ensures (if id in NamesOf(names, parts) then Some(NamesOf(names, parts)[id]) else None)
         == if LastName(parts, id).Some? then LastName(parts, id) else if id in names then Some(names[id]) else None
  {
    if parts != [] { NamesOfAreLast(names, parts[..|parts| - 1], id); }
  }

  lemma {:induction false} NamesAreLast(messages: seq<HistoryMessage>, id: string)
    ensures (if id in Names(messages) then Some(Names(messages)[id]) else None) == LastNameIn(messages, id)
  {
    if messages != [] {
      var before, last := messages[..|messages| - 1], messages[|messages| - 1];
      NamesAreLast(before, id);
      if last.AssistantTurn? { NamesOfAreLast(Names(before), last.parts, id); }
      hide NamesOf, LastName;
    }
  }

  /** A result is named after itself, or after the last call of its id so far. */
  predicate IsNamed(history: seq<HistoryMessage>, r: ResultItem, name: string) {
    if r.name.Some? then r.name == Some(name) else LastNameIn(history, r.callId) == Some(name)
  }

  predicate HasName(history: seq<HistoryMessage>, r: ResultItem) { r.name.Some? || LastNameIn(history, r.callId).Some? }

  lemma {:induction false} NameOfResult(history: seq<HistoryMessage>, r: ResultItem)
    ensures var name := ResultName(Names(history), r);
            if HasName(history, r) then name.Ok? && IsNamed(history, r, name.value)
            else name.Err? && name.error.InvalidPrompt?
  {
    NamesAreLast(history, r.callId);
  }

  // ----- Parts of an assistant turn

  /** Empty text without options, and requests for approval, are not sent. */
  predicate IsNotSent(p: AssistantPart) { p.ApprovalRequestPart? || p == TextPart("", None) }

  /** The part that is sent for `p`, after the history up to its own turn. */
  predicate IsSentFor(files: Files, history: seq<HistoryMessage>, p: AssistantPart, q: AssistantPart) {
    match q
    case FileItem(data, mediaType, options) =>
      p.FileItem? && files.file(p.data, p.mediaType) == Ok((data, mediaType)) && p.options == options
    case ReasoningFileItem(data, mediaType, options) =>
      p.ReasoningFileItem? && files.file(p.data, p.mediaType) == Ok((data, mediaType)) && p.options == options
    case ProviderResult(r) =>
      p.ProviderResult? && r.name.Some? && IsNamed(history, p.result, r.name.value)
      && r.callId == p.result.callId && r.output == p.result.output && r.options == p.result.options
    case _ => q == p
  }

  /** A file that is not converted, or a result without a name. */
  predicate PartFailsWith(files: Files, history: seq<HistoryMessage>, p: AssistantPart, e: AiError) {
    match p
    case FileItem(data, mediaType, _) => files.file(data, mediaType) == Err(e)
    case ReasoningFileItem(data, mediaType, _) => files.file(data, mediaType) == Err(e)
    case ProviderResult(r) => !HasName(history, r) && e.InvalidPrompt?
    case _ => false
  }

  lemma {:induction false} PartIsSent(files: Files, history: seq<HistoryMessage>, p: AssistantPart)
    ensures var q := ConvertPart(files, Names(history), p);
            match q
            case Err(e) => PartFailsWith(files, history, p, e)
            case Ok(qs) =>
              && (forall e :: !PartFailsWith(files, history, p, e))
              && (if IsNotSent(p) then qs == [] else |qs| == 1 && IsSentFor(files, history, p, qs[0]))
  {
    if p.ProviderResult? { NameOfResult(history, p.result); }
    hide Names, LastNameIn;
  }

  /** No part before `k` fails, and the one at `k` with this error. */
  ghost predicate FirstPartFails(files: Files, history: seq<HistoryMessage>, parts: seq<AssistantPart>, k: nat, e: AiError) {
    k < |parts| && PartFailsWith(files, history, parts[k], e) && NoPartFails(files, history, parts[..k])
  }

  ghost predicate NoPartFails(files: Files, history: seq<HistoryMessage>, parts: seq<AssistantPart>) {
    forall k, e :: 0 <= k < |parts| ==> !PartFailsWith(files, history, parts[k], e)
  }

  /** An assistant turn is sent, in order, without the parts that are not sent;
      or its first part that fails gives the error. */
  lemma {:induction false} PartsAreSent(files: Files, history: seq<HistoryMessage>, parts: seq<AssistantPart>)
    returns (places: seq<nat>, k: nat)
    ensures var sent := ConvertParts(files, Names(history), parts);
            match sent
            case Ok(qs) =>
              NoPartFails(files, history, parts) &&
              IsSelection(parts, qs, places, IsNotSent, (p, q) => IsSentFor(files, history, p, q))
            case Err(e) => FirstPartFails(files, history, parts, k, e)
  {
    var answers := (p, q) => IsSentFor(files, history, p, q);
    k, places := 0, [];
    if parts == [] {
      NothingSelected<AssistantPart, AssistantPart>(IsNotSent, answers);
    } else {
      var before, p := parts[..|parts| - 1], parts[|parts| - 1];
      assert parts == before + [p];
      places, k := PartsAreSent(files, history, before);
      PartIsSent(files, history, p);
      hide IsSelection, IsSentFor, IsNotSent, PartFailsWith, ConvertPart, Names;
      var sent := ConvertParts(files, Names(history), before);
      if sent.Ok? {
        var last := ConvertPart(files, Names(history), p);
        if last.Ok? {
          places := SelectNext(before, sent.value, places, p, last.value, IsNotSent, answers);
        } else {
          k := |before|;
          assert parts[..k] == before;
        }
      } else {
        assert parts[..k] == before[..k];
      }
    }
  }

  // ----- Answers of a tool message

  /** Approvals are sent for tools that the provider executes only. */
  predicate IsNotAnswered(p: ToolPart) { p.ApprovalAnswer? && p.providerExecuted != Some(true) }

  predicate IsAnswerFor(history: seq<HistoryMessage>, p: ToolPart, q: Answer) {
    match q
    case ToolAnswer(callId, name, output, options) =>
      p.ClientResult? && p.result.callId == callId && IsNamed(history, p.result, name)
      && p.result.output == output && p.result.options == options
    case ApprovalReply(approvalId, approved, reason, options) =>
      p.ApprovalAnswer? && p.approvalId == approvalId && p.approved == approved && p.reason == reason && options == None
  }

  predicate AnswerFails(history: seq<HistoryMessage>, p: ToolPart) { p.ClientResult? && !HasName(history, p.result) }

  lemma {:induction false} AnswerIsSent(history: seq<HistoryMessage>, p: ToolPart)
    ensures var q := ConvertAnswer(Names(history), p);
            match q
            case Err(e) => AnswerFails(history, p) && e.InvalidPrompt?
            case Ok(qs) =>
              && !AnswerFails(history, p)
              && (if IsNotAnswered(p) then qs == [] else |qs| == 1 && IsAnswerFor(history, p, qs[0]))
  {
    if p.ClientResult? { NameOfResult(history, p.result); }
    hide Names, LastNameIn;
  }

  ghost predicate NoAnswerFails(history: seq<HistoryMessage>, answers: seq<ToolPart>) {
    forall k :: 0 <= k < |answers| ==> !AnswerFails(history, answers[k])
  }

  /** A tool message is sent, in order, without the approvals that are not sent;
      or a result has no name. */
  lemma {:induction false} AnswersAreSent(history: seq<HistoryMessage>, parts: seq<ToolPart>) returns (places: seq<nat>)
    ensures var sent := ConvertAnswers(Names(history), parts);
            match sent
            case Ok(qs) => NoAnswerFails(history, parts) && IsSelection(parts, qs, places, IsNotAnswered, (p, q) => IsAnswerFor(history, p, q))
            case Err(e) => !NoAnswerFails(history, parts) && e.InvalidPrompt?
  {
    var answers := (p, q) => IsAnswerFor(history, p, q);
    places := [];
    if parts == [] {
      NothingSelected<ToolPart, Answer>(IsNotAnswered, answers);
    } else {
      var before, p := parts[..|parts| - 1], parts[|parts| - 1];
      assert parts == before + [p];
      places := AnswersAreSent(history, before);
      AnswerIsSent(history, p);
      hide IsSelection, IsAnswerFor, IsNotAnswered, AnswerFails, ConvertAnswer, Names;
      var sent := ConvertAnswers(Names(history), before);
      if sent.Ok? && ConvertAnswer(Names(history), p).Ok? {
        places := SelectNext(before, sent.value, places, p, ConvertAnswer(Names(history), p).value, IsNotAnswered, answers);
      }
    }
  }

  // ----- Messages

  ghost predicate PartsSent(files: Files, history: seq<HistoryMessage>, parts: seq<AssistantPart>, sent: seq<AssistantPart>) {
    exists places: seq<nat> :: PartsSentAt(files, history, parts, sent, places)
  }

  ghost predicate PartsSentAt(files: Files, history: seq<HistoryMessage>, parts: seq<AssistantPart>, sent: seq<AssistantPart>, places: seq<nat>) {
    IsSelection(parts, sent, places, IsNotSent, (p, q) => IsSentFor(files, history, p, q))
  }

  ghost predicate AnswersSentAt(history: seq<HistoryMessage>, parts: seq<ToolPart>, sent: seq<Answer>, places: seq<nat>) {
    IsSelection(parts, sent, places, IsNotAnswered, (p, q) => IsAnswerFor(history, p, q))
  }

  ghost predicate AnswersSent(history: seq<HistoryMessage>, parts: seq<ToolPart>, sent: seq<Answer>) {
    exists places: seq<nat> :: AnswersSentAt(history, parts, sent, places)
  }

  /** The message that is sent for the last of the history. */
  ghost predicate IsMessageFor(files: Files, history: seq<HistoryMessage>, q: PromptMessage)
    requires history != []
  {
    match history[|history| - 1]
    case SystemTurn(text, options) => q == SystemMessage(text, options)
    case UserTurn(content, options) => q.UserMessage? && files.user(content) == Ok(q.content) && q.options == options
    case AssistantText(text, options) => q == AssistantMessage([TextPart(text, None)], options)
    case AssistantTurn(parts, options) => q.AssistantMessage? && q.options == options && PartsSent(files, history, parts, q.parts)
    case ToolTurn(answers, options) => q.ToolMessage? && q.options == options && AnswersSent(history, answers, q.answers)
  }

  /** The last message of the history fails with this error. */
  ghost predicate MessageFails(files: Files, history: seq<HistoryMessage>, e: AiError)
    requires history != []
  {
    match history[|history| - 1]
    case SystemTurn(_, _) => false
    case UserTurn(content, _) => files.user(content) == Err(e)
    case AssistantText(_, _) => false
    case AssistantTurn(parts, _) => exists k: nat :: FirstPartFails(files, history, parts, k, e)
    case ToolTurn(answers, _) => !NoAnswerFails(history, answers) && e.InvalidPrompt?
  }

  lemma {:induction false} MessageIsSent(files: Files, history: seq<HistoryMessage>)
    requires history != []
    ensures var q := ConvertMessage(files, Names(history), history[|history| - 1]);
            match q
            case Ok(m) => IsMessageFor(files, history, m) && forall e :: !MessageFails(files, history, e)
            case Err(e) => MessageFails(files, history, e)
  {
    hide IsSelection, ConvertParts, ConvertAnswers, Names;
    match history[|history| - 1]
    case AssistantTurn(parts, _) =>
      var places, k := PartsAreSent(files, history, parts);
      var sent := ConvertParts(files, Names(history), parts);
      assert sent.Ok? ==> PartsSentAt(files, history, parts, sent.value, places);
      forall e, k: nat | NoPartFails(files, history, parts) ensures !FirstPartFails(files, history, parts, k, e) { }
    case ToolTurn(answers, _) =>
      var places := AnswersAreSent(history, answers);
      var sent := ConvertAnswers(Names(history), answers);
      assert sent.Ok? ==> AnswersSentAt(history, answers, sent.value, places);
    case _ =>
  }

  ghost predicate AllSent(files: Files, messages: seq<HistoryMessage>, sent: seq<PromptMessage>) {
    |sent| == |messages| && forall n :: 0 <= n < |sent| ==> IsMessageFor(files, messages[..n + 1], sent[n])
  }

  /** The message at `n` fails, and all before it are sent. */
  ghost predicate FailsAt(files: Files, messages: seq<HistoryMessage>, n: nat, e: AiError) {
    && n < |messages| && MessageFails(files, messages[..n + 1], e)
    && exists sent: seq<PromptMessage> :: AllSent(files, messages[..n], sent)
  }

  lemma {:induction false} SentNext(files: Files, messages: seq<HistoryMessage>, sent: seq<PromptMessage>, q: PromptMessage)
    requires messages != [] && AllSent(files, messages[..|messages| - 1], sent) && IsMessageFor(files, messages, q)
    ensures AllSent(files, messages, sent + [q])
  {
    hide IsMessageFor;
    var n := |messages| - 1;
    assert messages[..n + 1] == messages;
    forall k | 0 <= k < n ensures IsMessageFor(files, messages[..k + 1], sent[k]) {
      assert messages[..n][..k + 1] == messages[..k + 1];
    }
  }

  /** Every message of a history is sent in its place, with its options; or the
      first message that fails gives the error. */
  lemma {:induction false} HistoryIsSent(files: Files, messages: seq<HistoryMessage>)
    ensures var sent := ConvertAll(files, messages);
            match sent
            case Ok(qs) => AllSent(files, messages, qs)
            case Err(e) => exists n: nat :: FailsAt(files, messages, n, e)
  {
    if messages != [] {
      var n := |messages| - 1;
      var before := messages[..n];
      HistoryIsSent(files, before);
      MessageIsSent(files, messages);
      assert messages[..n + 1] == messages;
      hide IsMessageFor, MessageFails, ConvertMessage, Names, AllSent;
      var sent := ConvertAll(files, before);
      if sent.Err? {
        var k: nat :| FailsAt(files, before, k, sent.error);
        assert before[..k + 1] == messages[..k + 1] && before[..k] == messages[..k];
        assert FailsAt(files, messages, k, sent.error);
      } else {
        var last := ConvertMessage(files, Names(messages), messages[n]);
        if last.Ok? { SentNext(files, messages, sent.value, last.value); } else { assert FailsAt(files, messages, n, last.error); }
      }
    } else {
      assert AllSent(files, [], []);
    }
  }

  /** The prompt begins with the instructions, when there are any. */
  lemma {:induction false} InstructionsLead(files: Files, messages: seq<HistoryMessage>, instructions: Option<string>)
    requires Prompt(files, messages, instructions).Ok? && instructions.Some?
    ensures var prompt := Prompt(files, messages, instructions).value;
            prompt != [] && prompt[0] == SystemMessage(instructions.value, None)
  {
    var lead, converted := SystemMessage(instructions.value, None), ConvertAll(files, messages).value;
    assert Leading(instructions) + converted == [lead] + converted;
    LeadStays(lead, converted);
  }

  lemma {:induction false} LeadStays(lead: PromptMessage, rest: seq<PromptMessage>)
    requires !lead.ToolMessage?
    ensures var kept := DropEmpty(Combine([lead] + rest)); kept != [] && kept[0] == lead
  {
    if rest == [] {
      assert [lead] + rest == [lead] && [lead][..0] == [];
      assert Combine([lead]) == [lead];
      FirstStays([lead]);
    } else {
      FirstCombined(lead, rest);
      FirstStays(Combine([lead] + rest));
    }
  }

  lemma {:induction false} FirstCombined(lead: PromptMessage, rest: seq<PromptMessage>)
    requires !lead.ToolMessage?
    ensures Combine([lead] + rest) != [] && Combine([lead] + rest)[0] == lead
  {
    hide Sealed;
    if rest == [] {
      assert [lead] + rest == [lead] && [lead][..0] == [];
    } else {
      var before, last := rest[..|rest| - 1], rest[|rest| - 1];
      FirstCombined(lead, before);
      assert [lead] + rest == ([lead] + before) + [last];
      CombineSnoc([lead] + before, last);
      hide Combine;
    }
  }

  lemma {:induction false} FirstStays(messages: seq<PromptMessage>)
    requires messages != [] && !IsEmpty(messages[0])
    ensures DropEmpty(messages) != [] && DropEmpty(messages)[0] == messages[0]
  {
    if |messages| > 1 { FirstStays(messages[..|messages| - 1]); } else { assert messages[..0] == []; }
  }
}
