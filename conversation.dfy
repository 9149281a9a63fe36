/** The orchestration loop of the weather client: the conversation history is
    sent to the language model; when the model asks for tools, each requested
    tool is called in order and its result is appended to the history as a
    `tool` turn, and the model is asked again, at most `MaxIterations` times.

    The language model, the JSON decoder of tool-call arguments and the tool
    provider are parameters: they are services the loop calls, not code it
    owns. */
module Conversation {
  import opened Values
  import opened ToolCatalog

  /** The iteration budget of one user turn. */
  const MaxIterations: nat := 5

  /** Returned when the model's final reply has no (or empty) content. */
  const NoAnswerText := "Извините, я не смог сформировать ответ."

  /** Returned when the budget is spent while the model still asks for tools. */
  const TooLongText := "Извините, обработка заняла слишком много времени."

  /** Tool-turn text for a tool that answered with no content elements. */
  const EmptyResultText := "Инструмент выполнен, но результат пуст"

  /** Tool-turn text prefix for a tool call that raised. */
  const ToolErrorPrefix := "Ошибка при вызове инструмента: "

  /** A tool invocation requested by the model; `arguments` is JSON text. */
  datatype ToolCall = ToolCall(id: string, name: string, arguments: string)

  /** One entry of the conversation history. */
  datatype Turn =
    | System(text: string)
    | User(text: string)
    | Assistant(content: Option<string>, toolCalls: seq<ToolCall>)
    | Tool(toolCallId: string, text: string)

  /** What the model answers: optional content and the tool calls it requests. */
  datatype ModelReply = ModelReply(content: Option<string>, toolCalls: seq<ToolCall>)

  /** What a tool call gives back: the texts of its content elements, or the
      message of the exception it raised. */
  datatype ToolOutcome = Success(texts: seq<string>) | Raised(message: string)

  /** How one pass of the loop ends. `Aborted` is the exception that escapes
      when a call's arguments do not decode to a JSON object. */
  datatype Answer = Answered(text: string) | TimedOut | Aborted(call: ToolCall) {
    /** The string returned to the caller (an aborted pass returns none). */
    function Text(): string
      requires !Aborted?
    {
      if Answered? then text else TooLongText
    }
  }

  type LanguageModel = (seq<Turn>, seq<ModelTool>) -> ModelReply
  type JsonDecoder = string -> Option<Value>
  type ToolProvider = (string, map<string, Value>) -> ToolOutcome

  /** `content or "Извините, я не смог сформировать ответ."` */
  function FinalText(content: Option<string>): (r: string)
    ensures r != ""
    ensures !IsFalsyText(content) ==> r == content.value
    ensures IsFalsyText(content) ==> r == NoAnswerText
  {
    if IsFalsyText(content) then NoAnswerText else content.value
  }

  /** The single string a tool outcome is reduced to before it enters the history. */
  function ToolResultText(outcome: ToolOutcome): (r: string)
    ensures outcome.Success? && outcome.texts != [] ==> r == outcome.texts[0]
    ensures outcome.Success? && outcome.texts == [] ==> r == EmptyResultText
    ensures outcome.Raised? ==> r == ToolErrorPrefix + outcome.message
  {
    match outcome
    case Success(texts) => if texts != [] then texts[0] else EmptyResultText
    case Raised(message) => ToolErrorPrefix + message
  }

  /** The decoded arguments of a call, when they decode to a JSON object (the
      loop lists them with `.items()`, which anything else lacks). */
  function Arguments(decode: JsonDecoder, call: ToolCall): (r: Option<map<string, Value>>)
    ensures r.Some? <==> decode(call.arguments).Some? && decode(call.arguments).value.Object?
    ensures r.Some? ==> decode(call.arguments) == Some(Object(r.value))
  {
    match decode(call.arguments)
    case Some(Object(fields)) => Some(fields)
    case _ => None
  }

  function ToolTurn(call: ToolCall, args: map<string, Value>, provider: ToolProvider): Turn {
    Tool(call.id, ToolResultText(provider(call.name, args)))
  }

  /** The tool turns one batch of calls produces, and the call whose arguments
      failed to decode, if the batch stopped at one. */
  datatype Dispatch = Dispatch(turns: seq<Turn>, abortedAt: Option<ToolCall>)

  function DispatchCalls(calls: seq<ToolCall>, decode: JsonDecoder, provider: ToolProvider): (r: Dispatch)
    ensures |r.turns| <= |calls|
    ensures r.abortedAt.None? <==> |r.turns| == |calls|
    decreases |calls|
  {
    if calls == [] then Dispatch([], None)
    else
      match Arguments(decode, calls[0])
      case None => Dispatch([], Some(calls[0]))
      case Some(args) =>
        var rest := DispatchCalls(calls[1..], decode, provider);
        Dispatch([ToolTurn(calls[0], args, provider)] + rest.turns, rest.abortedAt)
  }

  /** The index of the first call whose arguments do not decode to an object,
      or the number of calls when all of them do. */
  function FirstUndecodable(calls: seq<ToolCall>, decode: JsonDecoder): (k: nat)
    ensures k <= |calls|
    ensures forall i :: 0 <= i < k ==> Arguments(decode, calls[i]).Some?
    ensures k < |calls| ==> Arguments(decode, calls[k]).None?
  {
    if calls == [] || Arguments(decode, calls[0]).None? then 0
    else 1 + FirstUndecodable(calls[1..], decode)
  }

  /** Dispatching a batch answers every call up to the first one with
      undecodable arguments, in the order of the calls, each with a tool turn
      carrying that call's id; a raising tool does not stop the batch. The
      batch stops exactly at the first undecodable call, with no turn for it or
      for any later call. */
  lemma {:induction false} DispatchAnswersCalls(calls: seq<ToolCall>, decode: JsonDecoder, provider: ToolProvider)
    ensures var d := DispatchCalls(calls, decode, provider);
            var k := FirstUndecodable(calls, decode);
            && |d.turns| == k
            && (forall i :: 0 <= i < k ==> d.turns[i] == ToolTurn(calls[i], Arguments(decode, calls[i]).value, provider))
            && d.abortedAt == (if k < |calls| then Some(calls[k]) else None)
  {
    if calls != [] && Arguments(decode, calls[0]).Some? {
      DispatchAnswersCalls(calls[1..], decode, provider);
      var d := DispatchCalls(calls, decode, provider);
      var k := FirstUndecodable(calls, decode);
      forall i | 0 <= i < k
        ensures d.turns[i] == ToolTurn(calls[i], Arguments(decode, calls[i]).value, provider)
      {
        if i > 0 {
          assert calls[1..][i - 1] == calls[i];
        }
      }
    }
  }

  /** The outcome of one user turn: the history after it, how it ended, and the
      replies the model gave, in order. */
  datatype Run = Run(history: seq<Turn>, answer: Answer, replies: seq<ModelReply>)

  /** The loop with `budget` model queries left, starting from `history`: it
      keeps the history it was given and queries the model at most `budget`
      times, at least once when the budget allows. */
  function Converse(history: seq<Turn>, tools: seq<ModelTool>, model: LanguageModel,
                    decode: JsonDecoder, provider: ToolProvider, budget: nat): (r: Run)
    ensures |r.replies| <= budget && (budget > 0 ==> |r.replies| > 0)
    decreases budget
  {
    if budget == 0 then Run(history, TimedOut, [])
    else
      var reply := model(history, tools);
      var asked := history + [Assistant(reply.content, reply.toolCalls)];
      if reply.toolCalls == [] then Run(asked, Answered(FinalText(reply.content)), [reply])
      else
        var d := DispatchCalls(reply.toolCalls, decode, provider);
        if d.abortedAt.Some? then Run(asked + d.turns, Aborted(d.abortedAt.value), [reply])
        else
          var rest := Converse(asked + d.turns, tools, model, decode, provider, budget - 1);
          Run(rest.history, rest.answer, [reply] + rest.replies)
  }

  /** The turns one model reply adds: the assistant turn, then its tool turns. */
  function Exchange(reply: ModelReply, decode: JsonDecoder, provider: ToolProvider): seq<Turn> {
    [Assistant(reply.content, reply.toolCalls)] + DispatchCalls(reply.toolCalls, decode, provider).turns
  }

  function Transcript(replies: seq<ModelReply>, decode: JsonDecoder, provider: ToolProvider): seq<Turn>
    decreases |replies|
  {
    if replies == [] then []
    else Exchange(replies[0], decode, provider) + Transcript(replies[1..], decode, provider)
  }

  /** The turns one reply adds: its assistant turn, carrying the requested
      calls, then one tool turn per call up to the first undecodable one, the
      i-th keyed by the i-th call's id and holding the text its outcome
      reduces to. */
  lemma ExchangeAnswersEachCall(reply: ModelReply, decode: JsonDecoder, provider: ToolProvider)
    ensures var e := Exchange(reply, decode, provider);
            var calls := reply.toolCalls;
            && |e| == 1 + FirstUndecodable(calls, decode)
            && e[0] == Assistant(reply.content, calls)
            && (forall i :: 1 <= i < |e| ==>
                  && e[i].Tool?
                  && e[i].toolCallId == calls[i - 1].id
                  && e[i].text == ToolResultText(provider(calls[i - 1].name, Arguments(decode, calls[i - 1]).value)))
  {
    var calls := reply.toolCalls;
    var d := DispatchCalls(calls, decode, provider);
    DispatchAnswersCalls(calls, decode, provider);
    var e := Exchange(reply, decode, provider);
    forall i | 1 <= i < |e|
      ensures e[i] == ToolTurn(calls[i - 1], Arguments(decode, calls[i - 1]).value, provider)
    {
      assert e[i] == d.turns[i - 1];
    }
  }

  /** Whether the loop goes on after this reply: it asks for tools and all
      their arguments decode. */
  predicate Continues(reply: ModelReply, decode: JsonDecoder) {
    reply.toolCalls != [] && FirstUndecodable(reply.toolCalls, decode) == |reply.toolCalls|
  }

  /** Appending a reply's assistant turn and then its tool turns appends its exchange. */
  lemma AppendExchange(history: seq<Turn>, reply: ModelReply, decode: JsonDecoder, provider: ToolProvider)
    ensures history + [Assistant(reply.content, reply.toolCalls)] + DispatchCalls(reply.toolCalls, decode, provider).turns
         == history + Exchange(reply, decode, provider)
  {
  }

  /** The transcript of replies is the exchange of the first one followed by
      the transcript of the others. */
  lemma TranscriptCons(reply: ModelReply, rest: seq<ModelReply>, decode: JsonDecoder, provider: ToolProvider)
    ensures Transcript([reply] + rest, decode, provider) == Exchange(reply, decode, provider) + Transcript(rest, decode, provider)
  {
    assert ([reply] + rest)[1..] == rest;
  }

  /** The history after one exchange and then a transcript is the history
      followed by the transcript of all the replies. */
  lemma PrependExchange(history: seq<Turn>, reply: ModelReply, rest: seq<ModelReply>,
                        decode: JsonDecoder, provider: ToolProvider)
    ensures history + Exchange(reply, decode, provider) + Transcript(rest, decode, provider)
         == history + Transcript([reply] + rest, decode, provider)
  {
    TranscriptCons(reply, rest, decode, provider);
  }

  /** The history is only appended to: what the loop leaves behind is the
      history it started from followed by, for each model reply in order, the
      assistant turn and the tool turns of that reply. */
  lemma {:induction false} ConverseAppendsTranscript(history: seq<Turn>, tools: seq<ModelTool>, model: LanguageModel,
                                                      decode: JsonDecoder, provider: ToolProvider, budget: nat)
    ensures var r := Converse(history, tools, model, decode, provider, budget);
            && r.history == history + Transcript(r.replies, decode, provider)
            && history <= r.history
    decreases budget
  {
    if budget > 0 {
      var reply := model(history, tools);
      var asked := history + [Assistant(reply.content, reply.toolCalls)];
      var d := DispatchCalls(reply.toolCalls, decode, provider);
      var r := Converse(history, tools, model, decode, provider, budget);
      var next := asked + d.turns;
      AppendExchange(history, reply, decode, provider);
      if reply.toolCalls == [] || d.abortedAt.Some? {
        assert r.replies == [reply] && r.history == next;
        TranscriptCons(reply, [], decode, provider);
        assert [reply] + [] == [reply];
      } else {
        var rest := Converse(next, tools, model, decode, provider, budget - 1);
        ConverseAppendsTranscript(next, tools, model, decode, provider, budget - 1);
        assert r.replies == [reply] + rest.replies && r.history == rest.history;
        PrependExchange(history, reply, rest.replies, decode, provider);
      }
    }
  }

  /** The step of `ConverseQueriesModel` for the first reply. */
  lemma FirstQuery(history: seq<Turn>, tools: seq<ModelTool>, model: LanguageModel,
                   decode: JsonDecoder, provider: ToolProvider, reply: ModelReply, rest: seq<ModelReply>)
    requires reply == model(history, tools)
    requires forall i :: 0 <= i < |rest| ==>
               rest[i] == model(history + Exchange(reply, decode, provider) + Transcript(rest[..i], decode, provider), tools)
    ensures var all := [reply] + rest;
            forall i :: 0 <= i < |all| ==> all[i] == model(history + Transcript(all[..i], decode, provider), tools)
  {
    var all := [reply] + rest;
    forall i | 0 <= i < |all|
      ensures all[i] == model(history + Transcript(all[..i], decode, provider), tools)
    {
      if i == 0 {
        assert all[..0] == [];
        assert history + Transcript(all[..0], decode, provider) == history;
      } else {
        assert all[..i] == [reply] + rest[..i - 1];
        TranscriptCons(reply, rest[..i - 1], decode, provider);
        assert history + Transcript(all[..i], decode, provider)
            == history + Exchange(reply, decode, provider) + Transcript(rest[..i - 1], decode, provider);
      }
    }
  }

  /** The model is queried at most `budget` times (at least once when the
      budget allows), and every query is given the full history as it stands
      at that point. */
  lemma {:induction false} ConverseQueriesModel(history: seq<Turn>, tools: seq<ModelTool>, model: LanguageModel,
                                                 decode: JsonDecoder, provider: ToolProvider, budget: nat)
    ensures var r := Converse(history, tools, model, decode, provider, budget);
            && |r.replies| <= budget
            && (budget > 0 ==> |r.replies| > 0)
            && (forall i :: 0 <= i < |r.replies| ==>
                  r.replies[i] == model(history + Transcript(r.replies[..i], decode, provider), tools))
    decreases budget
  {
    if budget > 0 {
      var reply := model(history, tools);
      var asked := history + [Assistant(reply.content, reply.toolCalls)];
      var d := DispatchCalls(reply.toolCalls, decode, provider);
      var r := Converse(history, tools, model, decode, provider, budget);
      var next := asked + d.turns;
      AppendExchange(history, reply, decode, provider);
      if reply.toolCalls == [] || d.abortedAt.Some? {
        assert r.replies == [reply] + [];
        FirstQuery(history, tools, model, decode, provider, reply, []);
      } else {
        var rest := Converse(next, tools, model, decode, provider, budget - 1);
        ConverseQueriesModel(next, tools, model, decode, provider, budget - 1);
        assert r.replies == [reply] + rest.replies;
        FirstQuery(history, tools, model, decode, provider, reply, rest.replies);
      }
    }
  }

  /** The batch stops exactly at the first undecodable call. */
  lemma DispatchStopsAt(calls: seq<ToolCall>, decode: JsonDecoder, provider: ToolProvider)
    ensures DispatchCalls(calls, decode, provider).abortedAt
         == (var k := FirstUndecodable(calls, decode); if k < |calls| then Some(calls[k]) else None)
  {
    DispatchAnswersCalls(calls, decode, provider);
  }

  /** How a pass goes on. Every reply but the last asked for tools whose
      arguments all decoded, and the pass times out exactly when the whole
      budget is spent on such replies. */
  lemma {:induction false} ConverseContinues(history: seq<Turn>, tools: seq<ModelTool>, model: LanguageModel,
                                              decode: JsonDecoder, provider: ToolProvider, budget: nat)
    ensures var r := Converse(history, tools, model, decode, provider, budget);
            var n := |r.replies|;
            && (forall i :: 0 <= i < n - 1 ==> Continues(r.replies[i], decode))
            && (r.answer.TimedOut? <==> n == budget && forall i :: 0 <= i < n ==> Continues(r.replies[i], decode))
    decreases budget
  {
    if budget > 0 {
      var reply := model(history, tools);
      var asked := history + [Assistant(reply.content, reply.toolCalls)];
      var d := DispatchCalls(reply.toolCalls, decode, provider);
      DispatchStopsAt(reply.toolCalls, decode, provider);
      var r := Converse(history, tools, model, decode, provider, budget);
      if reply.toolCalls != [] && d.abortedAt.None? {
        var rest := Converse(asked + d.turns, tools, model, decode, provider, budget - 1);
        ConverseContinues(asked + d.turns, tools, model, decode, provider, budget - 1);
        assert r.replies == [reply] + rest.replies && r.answer == rest.answer;
        ContinuingReply(reply, rest.replies, decode, rest.answer.TimedOut?, budget);
      } else {
        assert r.replies == [reply] && !Continues(reply, decode) && !r.answer.TimedOut?;
        assert !(forall i :: 0 <= i < |r.replies| ==> Continues(r.replies[i], decode)) by {
          assert r.replies[0] == reply;
        }
      }
    }
  }

  /** The step of `ConverseContinues` for a reply after which the loop goes on. */
  lemma ContinuingReply(reply: ModelReply, rest: seq<ModelReply>, decode: JsonDecoder, timedOut: bool, budget: nat)
    requires budget > 0 && Continues(reply, decode) && |rest| <= budget - 1
    requires forall i :: 0 <= i < |rest| - 1 ==> Continues(rest[i], decode)
    requires timedOut <==> |rest| == budget - 1 && forall i :: 0 <= i < |rest| ==> Continues(rest[i], decode)
    ensures var all := [reply] + rest;
            && (forall i :: 0 <= i < |all| - 1 ==> Continues(all[i], decode))
            && (timedOut <==> |all| == budget && forall i :: 0 <= i < |all| ==> Continues(all[i], decode))
  {
    var all := [reply] + rest;
    assert all[0] == reply;
    assert forall i :: 0 < i < |all| ==> all[i] == rest[i - 1];
    if !forall i :: 0 <= i < |rest| ==> Continues(rest[i], decode) {
      var i :| 0 <= i < |rest| && !Continues(rest[i], decode);
      assert !Continues(all[i + 1], decode);
    }
  }

  /** How a pass that received `replies` ended with `answer` and left
      `history`. It answers exactly when the last reply asks for no tools,
      with that reply's content (or the fallback) and with that reply's
      assistant turn last in the history; it aborts exactly when the last
      reply holds a call with undecodable arguments, at the first such call. */
  predicate EndsWith(replies: seq<ModelReply>, answer: Answer, history: seq<Turn>, decode: JsonDecoder) {
    var n := |replies|;
    && (answer.Answered? <==> n > 0 && replies[n - 1].toolCalls == [])
    && (answer.Answered? ==>
          && answer.Text() == FinalText(replies[n - 1].content)
          && |history| > 0
          && history[|history| - 1] == Assistant(replies[n - 1].content, []))
    && (answer.Aborted? <==> n > 0 && replies[n - 1].toolCalls != [] && !Continues(replies[n - 1], decode))
    && (answer.Aborted? ==>
          answer.call == replies[n - 1].toolCalls[FirstUndecodable(replies[n - 1].toolCalls, decode)])
  }

  /** A pass ends as `EndsWith` describes, in terms of its last reply. */
  lemma {:induction false} ConverseOutcome(history: seq<Turn>, tools: seq<ModelTool>, model: LanguageModel,
                                            decode: JsonDecoder, provider: ToolProvider, budget: nat)
    ensures var r := Converse(history, tools, model, decode, provider, budget);
            EndsWith(r.replies, r.answer, r.history, decode)
    decreases budget
  {
    if budget > 0 {
      var reply := model(history, tools);
      var asked := history + [Assistant(reply.content, reply.toolCalls)];
      var d := DispatchCalls(reply.toolCalls, decode, provider);
      DispatchStopsAt(reply.toolCalls, decode, provider);
      var r := Converse(history, tools, model, decode, provider, budget);
      if reply.toolCalls != [] && d.abortedAt.None? {
        var rest := Converse(asked + d.turns, tools, model, decode, provider, budget - 1);
        ConverseOutcome(asked + d.turns, tools, model, decode, provider, budget - 1);
        assert r.replies == [reply] + rest.replies && r.answer == rest.answer && r.history == rest.history;
        EndsAfterContinuing(reply, rest.replies, rest.answer, rest.history, decode);
      } else {
        assert r.replies == [reply];
      }
    }
  }

  /** A reply after which the loop goes on does not change how the pass ends. */
  lemma EndsAfterContinuing(reply: ModelReply, replies: seq<ModelReply>, answer: Answer, history: seq<Turn>,
                            decode: JsonDecoder)
    requires Continues(reply, decode)
    requires EndsWith(replies, answer, history, decode)
    requires replies == [] ==> answer.TimedOut?
    ensures EndsWith([reply] + replies, answer, history, decode)
  {
    if replies != [] {
      assert ([reply] + replies)[|replies|] == replies[|replies| - 1];
    }
  }

  /** One unfolding of `Converse`, for a budget that allows a query. */
  lemma ConverseStep(history: seq<Turn>, tools: seq<ModelTool>, model: LanguageModel,
                     decode: JsonDecoder, provider: ToolProvider, budget: nat)
    requires budget > 0
    ensures var reply := model(history, tools);
            var d := DispatchCalls(reply.toolCalls, decode, provider);
            var next := history + [Assistant(reply.content, reply.toolCalls)] + d.turns;
            var r := Converse(history, tools, model, decode, provider, budget);
            && (reply.toolCalls == [] ==>
                  r.history == next && r.answer == Answered(FinalText(reply.content)))
            && (reply.toolCalls != [] && d.abortedAt.Some? ==>
                  r.history == next && r.answer == Aborted(d.abortedAt.value))
            && (reply.toolCalls != [] && d.abortedAt.None? ==>
                  var rest := Converse(next, tools, model, decode, provider, budget - 1);
                  r.history == rest.history && r.answer == rest.answer)
  {
    var reply := model(history, tools);
    if reply.toolCalls == [] {
      assert DispatchCalls(reply.toolCalls, decode, provider).turns == [];
    }
  }

  /** One step of `DispatchCalls` from the call at index `j`. */
  lemma DispatchFrom(calls: seq<ToolCall>, j: nat, decode: JsonDecoder, provider: ToolProvider)
    requires j < |calls|
    ensures var d := DispatchCalls(calls[j..], decode, provider);
            var rest := DispatchCalls(calls[j + 1..], decode, provider);
            && (Arguments(decode, calls[j]).None? ==> d == Dispatch([], Some(calls[j])))
            && (Arguments(decode, calls[j]).Some? ==>
                  d == Dispatch([ToolTurn(calls[j], Arguments(decode, calls[j]).value, provider)] + rest.turns, rest.abortedAt))
  {
    assert calls[j..][0] == calls[j];
    assert calls[j..][1..] == calls[j + 1..];
  }

  /** The conversation history of one session, which the loop extends in place. */
  class Conversation {
    var messages: seq<Turn>

    constructor (initial: seq<Turn>)
      ensures messages == initial
    {
      messages := initial;
    }

    /** One user turn: query the model, dispatch the tools it asks for, and
        repeat, at most `MaxIterations` times. */
    method ProcessConversation(tools: seq<ModelTool>, model: LanguageModel, decode: JsonDecoder, provider: ToolProvider)
      returns (answer: Answer)
      modifies this
      ensures var run := Converse(old(messages), tools, model, decode, provider, MaxIterations);
              messages == run.history && answer == run.answer
      ensures old(messages) <= messages
    {
      ghost var run := Converse(messages, tools, model, decode, provider, MaxIterations);
      var iteration := 0;
      while iteration < MaxIterations
        invariant 0 <= iteration <= MaxIterations
        invariant Converse(messages, tools, model, decode, provider, MaxIterations - iteration).history == run.history
        invariant Converse(messages, tools, model, decode, provider, MaxIterations - iteration).answer == run.answer
        invariant old(messages) <= messages
      {
        var done := Pass(tools, model, decode, provider, MaxIterations - iteration);
        if done.Some? {
          return done.value;
        }
        iteration := iteration + 1;
      }
      return TimedOut;
    }

    /** One pass of the loop: query the model, record its reply, and either
        finish or dispatch the calls it asks for. */
    method Pass(tools: seq<ModelTool>, model: LanguageModel, decode: JsonDecoder, provider: ToolProvider, ghost budget: nat)
      returns (done: Option<Answer>)
      requires budget > 0
      modifies this
      ensures var run := Converse(old(messages), tools, model, decode, provider, budget);
              done.Some? ==> messages == run.history && done.value == run.answer
      ensures var run := Converse(old(messages), tools, model, decode, provider, budget);
              var rest := Converse(messages, tools, model, decode, provider, budget - 1);
              done.None? ==> rest.history == run.history && rest.answer == run.answer
      ensures messages == old(messages) + Exchange(model(old(messages), tools), decode, provider)
      ensures old(messages) <= messages
    {
      ConverseStep(messages, tools, model, decode, provider, budget);
      var reply := model(messages, tools);
      AppendExchange(messages, reply, decode, provider);
      messages := messages + [Assistant(reply.content, reply.toolCalls)];
      if reply.toolCalls == [] {
        return Some(Answered(FinalText(reply.content)));
      }
      var aborted := DispatchToolCalls(reply.toolCalls, decode, provider);
      if aborted.Some? {
        return Some(Aborted(aborted.value));
      }
      return None;
    }

    /** Dispatches one batch of tool calls in order, appending one tool turn
        per call, and stops at the first call whose arguments do not decode. */
    method DispatchToolCalls(calls: seq<ToolCall>, decode: JsonDecoder, provider: ToolProvider)
      returns (aborted: Option<ToolCall>)
      modifies this
      ensures messages == old(messages) + DispatchCalls(calls, decode, provider).turns
      ensures aborted == DispatchCalls(calls, decode, provider).abortedAt
    {
      ghost var all := DispatchCalls(calls, decode, provider);
      ghost var start := messages;
      var j := 0;
      assert calls[j..] == calls;
      while j < |calls|
        invariant 0 <= j <= |calls|
        invariant messages + DispatchCalls(calls[j..], decode, provider).turns == start + all.turns
        invariant DispatchCalls(calls[j..], decode, provider).abortedAt == all.abortedAt
      {
        DispatchFrom(calls, j, decode, provider);
        var args := Arguments(decode, calls[j]);
        if args.None? {
          return Some(calls[j]);
        }
        messages := messages + [ToolTurn(calls[j], args.value, provider)];
        j := j + 1;
      }
      assert calls[j..] == [];
      return None;
    }
  }
}
