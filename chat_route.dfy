/**
 * The tool-augmented completion loop of the chat route's `POST` handler.
 *
 * The language model is replaced by a script: one sequence of stream events per
 * round, in the order the rounds are requested. JSON parsing of the tool's
 * arguments and the readability service's HTTP call are abstract functions.
 * `JSON.stringify` of the tool's result is the datatype `ToolOutput` itself.
 */
module ChatRoute {
  import opened Wrappers
  import opened Messages
  import Strings
  import FetchArticle

  const SystemPrompt: string :=
    "You are a news summarizer assistant. When a user shares a news article " +
    "URL, use the fetch_article tool to retrieve its content, then provide " +
    "a clear, well-structured summary. You can also answer follow-up " +
    "questions about articles you have already read. If the user asks " +
    "something unrelated to news articles, politely redirect them to share " +
    "an article URL."

  /** The tool output's error text when the thrown value is not an `Error`. */
  const ToolFailureFallback: string := "Failed to fetch article"

  /** A `function_call` output item. */
  datatype ToolCall = ToolCall(callId: string, name: string, arguments: string)

  /** An item of a completed response's `output` list. */
  datatype OutputItem = FunctionCall(call: ToolCall) | OtherItem

  /** A stream event: `response.output_text.delta`, `response.completed`, or any other kind. */
  datatype Event = TextDelta(delta: string) | Completed(output: seq<OutputItem>) | OtherEvent

  /** A thrown value: an `Error` with its message, or anything else. */
  datatype Thrown = ErrorThrown(message: string) | NonErrorThrown

  /** The serialised tool result: an article, or `{ error: ... }`. */
  datatype ToolOutput = ArticleJson(article: FetchArticle.Article) | ErrorJson(error: string)

  /** An entry of the conversation sent as `input` to each completion request. */
  datatype InputItem =
    | MessageItem(role: Role, content: string)
    | CallItem(call: ToolCall)
    | CallOutputItem(callId: string, output: ToolOutput)

  /**
   * The collaborators of the tool: `JSON.parse(arguments).url`, which depends on
   * the argument text alone, and the HTTP request to the readability service
   * (together with reading its JSON body). Each call makes a request of its own,
   * so the reply may differ between calls that name the same url.
   */
  datatype Collaborators = Collaborators(
    parseUrl: string -> Result<string, Thrown>,
    fetchReader: (ToolCall, string) -> Result<FetchArticle.ReaderResponse, Thrown>)

  function ErrorMessage(t: Thrown): string
  {
    match t
    case ErrorThrown(message) => message
    case NonErrorThrown => ToolFailureFallback
  }

  /** The `try`/`catch` around the tool: every failure becomes an error-shaped output. */
  function RunTool(call: ToolCall, env: Collaborators): ToolOutput
  {
    match env.parseUrl(call.arguments)
    case Err(t) => ErrorJson(ErrorMessage(t))
    case Ok(url) =>
      match env.fetchReader(call, url)
      case Err(t) => ErrorJson(ErrorMessage(t))
      case Ok(response) =>
        match FetchArticle.Normalize(response)
        case Err(message) => ErrorJson(message)
        case Ok(article) => ArticleJson(article)
  }

  /**
   * A malformed argument payload, a failed request or an unusable article all
   * give an `{ error }` output carrying the thrown message; only a normalised
   * article gives an article output, and its content is bounded.
   */
  lemma ToolOutcomes(call: ToolCall, env: Collaborators)
    ensures var out := RunTool(call, env);
            var parsed := env.parseUrl(call.arguments);
            && (parsed.Err? ==> out == ErrorJson(ErrorMessage(parsed.error)))
            && (parsed.Ok? ==>
                  var reply := env.fetchReader(call, parsed.value);
                  && (reply.Err? ==> out == ErrorJson(ErrorMessage(reply.error)))
                  && (reply.Ok? && FetchArticle.Normalize(reply.value).Err? ==>
                        out == ErrorJson(FetchArticle.Normalize(reply.value).error))
                  && (reply.Ok? && FetchArticle.Normalize(reply.value).Ok? ==>
                        out == ArticleJson(FetchArticle.Normalize(reply.value).value)))
            && (out.ArticleJson? ==>
                  |out.article.content| <= FetchArticle.MaxContentLength + |FetchArticle.TruncationMarker|)
  {
  }

  /** Each call fetches afresh: a retry of a failed call with the same arguments can succeed. */
  lemma RetryCanSucceed() returns (env: Collaborators, first: ToolCall, retry: ToolCall)
    ensures first.arguments == retry.arguments && first.callId != retry.callId
    ensures RunTool(first, env) == ErrorJson(FetchArticle.StatusError(503))
    ensures RunTool(retry, env).ArticleJson?
  {
    var content := "Fifty characters are the least an article can hold, and this one holds them.";
    var data := FetchArticle.ReaderData("Title", "", "https://example.com/a", content);
    first := ToolCall("call_1", "fetch_article", "{\"url\":\"https://example.com/a\"}");
    retry := first.(callId := "call_2");
    env := Collaborators(
      arguments => Ok("https://example.com/a"),
      (call: ToolCall, url) => Ok(FetchArticle.ReaderResponse(call.callId != "call_1", 503, data)));
    assert |content| >= FetchArticle.MinContentLength;
  }

  /** The client's messages, role and content only. */
  function AsInput(history: seq<Message>): (items: seq<InputItem>)
    ensures |items| == |history|
    ensures forall i :: 0 <= i < |history| ==> items[i] == MessageItem(history[i].role, history[i].content)
  {
    if history == [] then [] else [MessageItem(history[0].role, history[0].content)] + AsInput(history[1..])
  }

  /** The conversation the first round is requested with. */
  function Seed(history: seq<Message>): (items: seq<InputItem>)
    ensures |items| == 1 + |history| && items[0] == MessageItem(System, SystemPrompt)
    ensures forall i :: 0 <= i < |history| ==> items[i + 1] == MessageItem(history[i].role, history[i].content)
  {
    [MessageItem(System, SystemPrompt)] + AsInput(history)
  }

  /** `output.find(item => item.type === "function_call")`. */
  function FirstCall(items: seq<OutputItem>): (r: Option<ToolCall>)
    ensures r.None? <==> forall i :: 0 <= i < |items| ==> !items[i].FunctionCall?
    ensures r.Some? ==> exists k :: 0 <= k < |items| && items[k] == FunctionCall(r.value) &&
                                    forall j :: 0 <= j < k ==> !items[j].FunctionCall?
  {
    if items == [] then None
    else if items[0].FunctionCall? then Some(items[0].call)
    else
      var r := FirstCall(items[1..]);
      assert forall j :: 0 <= j < |items| - 1 ==> items[1..][j] == items[j + 1];
      r
  }

  /** The text one event forwards to the client: a non-empty text delta, or nothing. */
  function EventChunks(e: Event): seq<string>
  {
    if e.TextDelta? && e.delta != "" then [e.delta] else []
  }

  /** The tool call one event makes the loop act on: the first call of a completed response. */
  function EventCalls(e: Event): seq<ToolCall>
  {
    if e.Completed? then
      match FirstCall(e.output)
      case Some(call) => [call]
      case None => []
    else []
  }

  /** The chunks one round forwards, in arrival order. */
  function RoundChunks(events: seq<Event>): seq<string>
  {
    if events == [] then [] else RoundChunks(events[..|events| - 1]) + EventChunks(events[|events| - 1])
  }

  /** The tool calls one round acts on, in arrival order. */
  function RoundCalls(events: seq<Event>): seq<ToolCall>
  {
    if events == [] then [] else RoundCalls(events[..|events| - 1]) + EventCalls(events[|events| - 1])
  }

  /** The conversation items appended for the calls: each call, then its result. */
  function Pairs(calls: seq<ToolCall>, env: Collaborators): seq<InputItem>
  {
    if calls == [] then []
    else
      var call := calls[|calls| - 1];
      Pairs(calls[..|calls| - 1], env) + [CallItem(call), CallOutputItem(call.callId, RunTool(call, env))]
  }

  /** The chunks forwarded over a sequence of rounds. */
  function Chunks(rounds: seq<seq<Event>>): seq<string>
  {
    if rounds == [] then [] else Chunks(rounds[..|rounds| - 1]) + RoundChunks(rounds[|rounds| - 1])
  }

  /** The tool calls acted on over a sequence of rounds. */
  function Calls(rounds: seq<seq<Event>>): seq<ToolCall>
  {
    if rounds == [] then [] else Calls(rounds[..|rounds| - 1]) + RoundCalls(rounds[|rounds| - 1])
  }

  /**
   * One event of a round: a non-empty delta is forwarded; a completed response's
   * first function call is executed and appended with its result.
   */
  method HandleEvent(input: seq<InputItem>, event: Event, env: Collaborators)
    returns (chunks: seq<string>, next: seq<InputItem>, called: bool)
    ensures chunks == EventChunks(event)
    ensures next == input + Pairs(EventCalls(event), env)
    ensures called <==> EventCalls(event) != []
  {
    chunks, next, called := [], input, false;
    if event.TextDelta? && event.delta != "" {
      chunks := [event.delta];
    }
    if event.Completed? {
      var functionCallOutput := FirstCall(event.output);
      if functionCallOutput.Some? {
        var call := functionCallOutput.value;
        var toolResult := RunTool(call, env);
        assert EventCalls(event) == [call];
        PairsSingle(call, env);
        next := input + [CallItem(call), CallOutputItem(call.callId, toolResult)];
        called := true;
      } else {
        assert EventCalls(event) == [];
      }
    } else {
      assert EventCalls(event) == [];
    }
  }

  /**
   * One round: the `for await` over the stream's events. Each completed
   * response with a function call sets the flag for another round.
   */
  method ConsumeRound(input: seq<InputItem>, events: seq<Event>, env: Collaborators)
    returns (chunks: seq<string>, next: seq<InputItem>, continueLoop: bool)
    ensures chunks == RoundChunks(events)
    ensures next == input + Pairs(RoundCalls(events), env)
    ensures continueLoop <==> RoundCalls(events) != []
  {
    chunks, next, continueLoop := [], input, false;
    var i := 0;
    while i < |events|
      invariant 0 <= i <= |events|
      invariant chunks == RoundChunks(events[..i])
      invariant next == input + Pairs(RoundCalls(events[..i]), env)
      invariant continueLoop <==> RoundCalls(events[..i]) != []
    {
      var eventChunks, extended, called := HandleEvent(next, events[i], env);
      RoundStep(events, i);
      PairsAppend(RoundCalls(events[..i]), EventCalls(events[i]), env);
      AppendAssociative(input, Pairs(RoundCalls(events[..i]), env), Pairs(EventCalls(events[i]), env));
      chunks := chunks + eventChunks;
      next := extended;
      continueLoop := continueLoop || called;
      i := i + 1;
    }
    assert events[..i] == events;
  }

  /**
   * The `while (continueLoop)` loop from a seeded conversation: request rounds
   * while the previous one acted on a tool call. `rounds` is the number of
   * completion requests made; `closed` says that the loop ended by itself and
   * closed the stream (false only when the script has no round left for a
   * request the loop makes).
   */
  method RunRounds(seed: seq<InputItem>, script: seq<seq<Event>>, env: Collaborators)
    returns (stream: seq<string>, input: seq<InputItem>, rounds: nat, closed: bool)
    ensures rounds <= |script|
    ensures stream == Chunks(script[..rounds])
    ensures input == seed + Pairs(Calls(script[..rounds]), env)
    ensures forall j :: 0 <= j < rounds - 1 ==> RoundCalls(script[j]) != []
    ensures closed <==> 1 <= rounds && RoundCalls(script[rounds - 1]) == []
    ensures !closed ==> rounds == |script|
  {
    input := seed;
    assert input == seed + Pairs(Calls(script[..0]), env);
    stream := [];
    rounds := 0;
    var continueLoop := true;
    ghost var calls: seq<ToolCall> := [];
    while continueLoop && rounds < |script|
      invariant rounds <= |script|
      invariant stream == Chunks(script[..rounds])
      invariant calls == Calls(script[..rounds])
      invariant input == seed + Pairs(calls, env)
      invariant forall j :: 0 <= j < rounds - 1 ==> RoundCalls(script[j]) != []
      invariant continueLoop <==> rounds == 0 || RoundCalls(script[rounds - 1]) != []
    {
      EarlierRoundsCalled(script, rounds);
      var chunks, next;
      chunks, next, continueLoop := ConsumeRound(input, script[rounds], env);
      RespondStep(seed, script, rounds, stream, input, chunks, next, env);
      calls := Calls(script[..rounds + 1]);
      stream := stream + chunks;
      input := next;
      rounds := rounds + 1;
    }
    closed := !continueLoop;
  }

  /** The stream's `start`: seed the conversation with the system prompt and the client's messages, then loop. */
  method Respond(history: seq<Message>, script: seq<seq<Event>>, env: Collaborators)
    returns (stream: seq<string>, input: seq<InputItem>, rounds: nat, closed: bool)
    ensures rounds <= |script|
    ensures stream == Chunks(script[..rounds])
    ensures input == Seed(history) + Pairs(Calls(script[..rounds]), env)
    ensures forall j :: 0 <= j < rounds - 1 ==> RoundCalls(script[j]) != []
    ensures closed <==> 1 <= rounds && RoundCalls(script[rounds - 1]) == []
    ensures !closed ==> rounds == |script|
  {
    var seed := Seed(history);
    stream, input, rounds, closed := RunRounds(seed, script, env);
  }

  /** When the loop starts another round, every round so far acted on a call. */
  lemma EarlierRoundsCalled(script: seq<seq<Event>>, n: nat)
    requires n <= |script|
    requires forall j :: 0 <= j < n - 1 ==> RoundCalls(script[j]) != []
    requires n == 0 || RoundCalls(script[n - 1]) != []
    ensures forall j :: 0 <= j < n ==> RoundCalls(script[j]) != []
  {
  }

  /** What one more round adds to the stream and to the conversation. */
  lemma RespondStep(seed: seq<InputItem>, script: seq<seq<Event>>, n: nat, stream: seq<string>,
                    input: seq<InputItem>, chunks: seq<string>, next: seq<InputItem>, env: Collaborators)
    requires n < |script|
    requires stream == Chunks(script[..n]) && input == seed + Pairs(Calls(script[..n]), env)
    requires chunks == RoundChunks(script[n]) && next == input + Pairs(RoundCalls(script[n]), env)
    ensures stream + chunks == Chunks(script[..n + 1])
    ensures next == seed + Pairs(Calls(script[..n + 1]), env)
  {
    ScriptStep(script, n);
    PairsAppend(Calls(script[..n]), RoundCalls(script[n]), env);
    AppendAssociative(seed, Pairs(Calls(script[..n]), env), Pairs(RoundCalls(script[n]), env));
  }

  /** Regrouping a concatenation; named so the loop proofs can use it at the sequences they build. */
  lemma AppendAssociative<T>(a: seq<T>, b: seq<T>, c: seq<T>)
    ensures (a + b) + c == a + (b + c)
  {
  }

  lemma RoundStep(events: seq<Event>, i: nat)
    requires i < |events|
    ensures RoundChunks(events[..i + 1]) == RoundChunks(events[..i]) + EventChunks(events[i])
    ensures RoundCalls(events[..i + 1]) == RoundCalls(events[..i]) + EventCalls(events[i])
  {
    assert events[..i + 1][..i] == events[..i];
  }

  lemma ScriptStep(script: seq<seq<Event>>, n: nat)
    requires n < |script|
    ensures Chunks(script[..n + 1]) == Chunks(script[..n]) + RoundChunks(script[n])
    ensures Calls(script[..n + 1]) == Calls(script[..n]) + RoundCalls(script[n])
  {
    assert script[..n + 1][..n] == script[..n];
  }

  lemma PairsSingle(call: ToolCall, env: Collaborators)
    ensures Pairs([call], env) == [CallItem(call), CallOutputItem(call.callId, RunTool(call, env))]
  {
    assert [call][..0] == [];
  }

  lemma {:induction false} PairsAppend(a: seq<ToolCall>, b: seq<ToolCall>, env: Collaborators)
    ensures Pairs(a + b, env) == Pairs(a, env) + Pairs(b, env)
    decreases |b|
  {
    if b == [] {
      assert a + b == a;
    } else {
      var b' := b[..|b| - 1];
      assert (a + b)[..|a + b| - 1] == a + b';
      PairsAppend(a, b', env);
    }
  }
  // ---------------------------------------------------------------------------
  // Properties of the loop

  /** The appended items come in pairs: the call, then an output with the same `call_id`. */
  lemma {:induction false} PairsShape(calls: seq<ToolCall>, env: Collaborators)
    ensures |Pairs(calls, env)| == 2 * |calls|
    ensures forall k :: 0 <= k < |calls| ==>
              Pairs(calls, env)[2 * k] == CallItem(calls[k]) &&
              Pairs(calls, env)[2 * k + 1] == CallOutputItem(calls[k].callId, RunTool(calls[k], env))
  {
    if calls != [] {
      var init := calls[..|calls| - 1];
      PairsShape(init, env);
      assert forall k :: 0 <= k < |init| ==> init[k] == calls[k];
    }
  }

  lemma {:induction false} CallsAppend(a: seq<seq<Event>>, b: seq<seq<Event>>)
    ensures Calls(a + b) == Calls(a) + Calls(b)
    decreases |b|
  {
    if b == [] {
      assert a + b == a;
    } else {
      var b' := b[..|b| - 1];
      assert (a + b)[..|a + b| - 1] == a + b';
      CallsAppend(a, b');
      AppendAssociative(Calls(a), Calls(b'), RoundCalls(b[|b| - 1]));
    }
  }

  /**
   * No round rewrites the conversation: what was sent after `m` rounds is a
   * prefix of what is sent after any later round, starting with the seed.
   */
  lemma ConversationGrows(history: seq<Message>, script: seq<seq<Event>>, m: nat, n: nat, env: Collaborators)
    requires m <= n <= |script|
    ensures var earlier := Seed(history) + Pairs(Calls(script[..m]), env);
            var later := Seed(history) + Pairs(Calls(script[..n]), env);
            |earlier| <= |later| && later[..|earlier|] == earlier && later[..|Seed(history)|] == Seed(history)
  {
    assert script[..n] == script[..m] + script[m..n];
    CallsAppend(script[..m], script[m..n]);
    PairsAppend(Calls(script[..m]), Calls(script[m..n]), env);
    var seed, a, b := Seed(history), Pairs(Calls(script[..m]), env), Pairs(Calls(script[m..n]), env);
    AppendAssociative(seed, a, b);
    assert (seed + (a + b))[..|seed + a|] == seed + a;
    assert (seed + (a + b))[..|seed|] == seed;
  }

  /** Every tool result immediately follows the call it answers. */
  ghost predicate ResultsFollowCalls(conversation: seq<InputItem>)
  {
    forall i :: 0 <= i < |conversation| && conversation[i].CallOutputItem? ==>
      0 < i && conversation[i - 1].CallItem? && conversation[i - 1].call.callId == conversation[i].callId
  }

  /** Every call is immediately followed by a result for it. */
  ghost predicate CallsAnswered(conversation: seq<InputItem>)
  {
    forall i :: 0 <= i < |conversation| && conversation[i].CallItem? ==>
      i + 1 < |conversation| && conversation[i + 1].CallOutputItem? &&
      conversation[i + 1].callId == conversation[i].call.callId
  }

  /** Any conversation the loop builds pairs each call with its result, both ways round. */
  lemma {:induction false} ConversationPaired(history: seq<Message>, calls: seq<ToolCall>, env: Collaborators)
    ensures ResultsFollowCalls(Seed(history) + Pairs(calls, env))
    ensures CallsAnswered(Seed(history) + Pairs(calls, env))
  {
    var seed := Seed(history);
    if calls == [] {
      assert seed + Pairs(calls, env) == seed;
      assert forall i :: 0 <= i < |seed| ==> seed[i].MessageItem?;
    } else {
      var init, call := calls[..|calls| - 1], calls[|calls| - 1];
      ConversationPaired(history, init, env);
      var before := seed + Pairs(init, env);
      var pair := [CallItem(call), CallOutputItem(call.callId, RunTool(call, env))];
      AppendAssociative(seed, Pairs(init, env), pair);
      var after := before + pair;
      assert after == seed + Pairs(calls, env);
      forall i | 0 <= i < |after| && after[i].CallOutputItem?
        ensures 0 < i && after[i - 1].CallItem? && after[i - 1].call.callId == after[i].callId
      {
        if i < |before| {
          assert before[i].CallOutputItem?;
        }
      }
      forall i | 0 <= i < |after| && after[i].CallItem?
        ensures i + 1 < |after| && after[i + 1].CallOutputItem? && after[i + 1].callId == after[i].call.callId
      {
        if i < |before| {
          assert before[i].CallItem?;
        }
      }
    }
  }

  /** Once a response holds a function call, items after it never change which call is acted on. */
  lemma {:induction false} FirstCallOfAppend(a: seq<OutputItem>, b: seq<OutputItem>)
    ensures FirstCall(a).Some? ==> FirstCall(a + b) == FirstCall(a)
    ensures FirstCall(a).None? ==> FirstCall(a + b) == FirstCall(b)
  {
    if a != [] {
      assert (a + b)[1..] == a[1..] + b;
      FirstCallOfAppend(a[1..], b);
    } else {
      assert a + b == b;
    }
  }

  /** All the text of a round's text-delta events, empty deltas included. */
  function DeltaText(events: seq<Event>): string
  {
    if events == [] then ""
    else (if events[0].TextDelta? then events[0].delta else "") + DeltaText(events[1..])
  }

  lemma {:induction false} DeltaTextAppend(events: seq<Event>, e: Event)
    ensures DeltaText(events + [e]) == DeltaText(events) + (if e.TextDelta? then e.delta else "")
  {
    if events != [] {
      assert (events + [e])[1..] == events[1..] + [e];
      DeltaTextAppend(events[1..], e);
    } else {
      assert (events + [e])[1..] == [];
    }
  }

  /**
   * The bytes a round forwards are exactly the text of its delta events, in order:
   * leaving out empty deltas loses nothing, and no other event contributes.
   */
  lemma {:induction false} RoundTextIsDeltaText(events: seq<Event>)
    ensures Strings.Concat(RoundChunks(events)) == DeltaText(events)
    ensures forall k :: 0 <= k < |RoundChunks(events)| ==> RoundChunks(events)[k] != ""
  {
    if events != [] {
      var init, e := events[..|events| - 1], events[|events| - 1];
      assert events == init + [e];
      RoundTextIsDeltaText(init);
      DeltaTextAppend(init, e);
      Strings.ConcatAppend(RoundChunks(init), EventChunks(e));
      if !(e.TextDelta? && e.delta != "") {
        assert EventChunks(e) == [];
      } else {
        assert Strings.Concat([e.delta]) == Strings.Concat([]) + e.delta;
      }
    }
  }

  /** The text of every delta of every round, rounds in order. */
  function ScriptText(rounds: seq<seq<Event>>): string
  {
    if rounds == [] then "" else ScriptText(rounds[..|rounds| - 1]) + DeltaText(rounds[|rounds| - 1])
  }

  /** The whole response body is the text of the deltas of the rounds run, and nothing else. */
  lemma {:induction false} StreamIsDeltaText(rounds: seq<seq<Event>>)
    ensures Strings.Concat(Chunks(rounds)) == ScriptText(rounds)
    ensures forall k :: 0 <= k < |Chunks(rounds)| ==> Chunks(rounds)[k] != ""
  {
    if rounds != [] {
      var init, last := rounds[..|rounds| - 1], rounds[|rounds| - 1];
      StreamIsDeltaText(init);
      RoundTextIsDeltaText(last);
      var c, r := Chunks(init), RoundChunks(last);
      assert Chunks(rounds) == c + r;
      Strings.ConcatAppend(c, r);
    }
  }

  /** A round as the completion endpoint sends it: at most one `response.completed` event. */
  ghost predicate SingleCompletion(events: seq<Event>)
  {
    forall i, j :: 0 <= i < j < |events| && events[i].Completed? ==> !events[j].Completed?
  }

  lemma {:induction false} NoCompletionNoCalls(events: seq<Event>)
    requires forall i :: 0 <= i < |events| ==> !events[i].Completed?
    ensures RoundCalls(events) == []
  {
    if events != [] {
      NoCompletionNoCalls(events[..|events| - 1]);
    }
  }

  lemma {:induction false} SingleCompletionOneCall(events: seq<Event>)
    requires SingleCompletion(events)
    ensures |RoundCalls(events)| <= 1
  {
    if events != [] {
      var init, e := events[..|events| - 1], events[|events| - 1];
      assert SingleCompletion(init);
      if e.Completed? {
        NoCompletionNoCalls(init);
      } else {
        SingleCompletionOneCall(init);
      }
    }
  }

  /**
   * With single-completion rounds, a loop that closed after `n` requests has
   * acted on exactly `n - 1` tool calls and grown the conversation by as many pairs.
   */
  lemma RoundsAndPairs(history: seq<Message>, script: seq<seq<Event>>, n: nat, env: Collaborators)
    requires 1 <= n <= |script|
    requires forall j :: 0 <= j < n ==> SingleCompletion(script[j])
    requires forall j :: 0 <= j < n - 1 ==> RoundCalls(script[j]) != []
    requires RoundCalls(script[n - 1]) == []
    ensures |Calls(script[..n])| == n - 1
    ensures |Seed(history) + Pairs(Calls(script[..n]), env)| == |history| + 1 + 2 * (n - 1)
  {
    var before := script[..n - 1];
    assert forall j :: 0 <= j < |before| ==> before[j] == script[j];
    CallsCount(before);
    ScriptStep(script, n - 1);
    var calls := Calls(script[..n]);
    assert calls == Calls(script[..n - 1]);
    PairsShape(calls, env);
    assert |Seed(history)| == 1 + |history|;
  }

  lemma {:induction false} CallsCount(rounds: seq<seq<Event>>)
    requires forall j :: 0 <= j < |rounds| ==> SingleCompletion(rounds[j]) && RoundCalls(rounds[j]) != []
    ensures |Calls(rounds)| == |rounds|
  {
    if rounds != [] {
      var init, last := rounds[..|rounds| - 1], rounds[|rounds| - 1];
      assert forall j :: 0 <= j < |init| ==> init[j] == rounds[j];
      CallsCount(init);
      SingleCompletionOneCall(last);
    }
  }
}
