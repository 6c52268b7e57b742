/**
 * The conversation orchestrator (`GeminiChatService.chat`): it seeds a transcript with
 * the user's message, asks the remote model for at most five replies, runs the tool the
 * model asks for through the query gateway, appends the call and its result to the
 * transcript, and returns the first text answer, a diagnostic, or an apology.
 *
 * The remote model and its HTTP transport (`callGeminiApi`) are an oracle: a function
 * from the round number and the request to what the call produced.
 */
module GeminiChat {
  import opened Common
  import opened Text
  import opened JsonValues
  import opened QueryGateway
  import ToolsCatalog

  /** A `functionCall` part: the tool's name and, when the model sent them, its arguments. */
  datatype FunctionCall = FunctionCall(name: string, args: Option<map<string, Json>>)

  /** One part of a reply: the two keys the orchestrator looks at. */
  datatype Part = Part(functionCall: Option<FunctionCall>, text: Option<string>)

  /** A candidate's `content`, whose `parts` may be missing. */
  datatype ReplyContent = ReplyContent(parts: Option<seq<Part>>)

  datatype Candidate = Candidate(content: Option<ReplyContent>)

  /** The decoded reply body; `candidates` may be missing. */
  datatype Envelope = Envelope(candidates: Option<seq<Candidate>>)

  /**
   * One entry of the `contents` transcript: the user's message, a function call made
   * by the model, or the function's result sent back as a user turn.
   */
  datatype Turn =
    | UserText(text: string)
    | ModelCall(call: FunctionCall)
    | ToolResponse(name: string, result: Reply)

  /** The request body: the transcript, the tool catalog and the system instruction. */
  datatype Request = Request(
    contents: seq<Turn>,
    tools: seq<ToolsCatalog.FunctionDeclaration>,
    systemInstruction: string)

  /**
   * What one call of the remote model produced: a 200 reply whose body decodes to an
   * envelope or to null, a non-200 status with its body, or any other exception
   * (connection failure, undecodable body) with its possibly-null message.
   */
  datatype CallOutcome =
    | Body(envelope: Option<Envelope>)
    | Status(code: ErrorStatus, body: string)
    | Fault(message: Option<string>)

  /** The statuses `callGeminiApi` throws on: every one but 200. */
  type ErrorStatus = c: int | c != 200 witness 500

  /** The remote model: round number and request to outcome. */
  type Gemini = (nat, Request) -> CallOutcome

  const MaxIterations: nat := 5

  const PlaceholderKey: string := "your_api_key_here"

  const SystemInstruction: string :=
    "You are a helpful inventory assistant. Use the provided functions to get real data from the database when users ask about inventory, vendors, borrowers, loans, or stock levels."

  const NotConfiguredWarning: string := "⚠️ Chatbot is not configured. Please set a valid Gemini API key."
  const NullResponseMessage: string := "Error: Received null response from Gemini API. Please check your API key."
  const NoCandidatesMessage: string := "Error: No response candidates from API. The API key might be invalid or the request was blocked."
  const NoContentMessage: string := "Error: No content in API response. Please try again."
  const NoPartsMessage: string := "Error: No parts in response content."
  const Apology: string := "Sorry, I couldn't complete that request."
  const QuotaMessage: string :=
    "⚠️ Chatbot quota exceeded. The free tier limit has been reached. Please try again later or upgrade your API plan at https://ai.google.dev/pricing"
  const ApiErrorPrefix: string := "⚠️ API Error: "
  const ErrorPrefix: string := "❌ Error: "
  const StatusMarker: string := "API returned status"

  predicate Configured(apiKey: Option<string>) {
    apiKey.Some? && apiKey.value != PlaceholderKey
  }

  function RequestFor(contents: seq<Turn>): Request {
    Request(contents, ToolsCatalog.ChatbotTools, SystemInstruction)
  }

  /** The arguments a call is dispatched with: an absent `args` becomes an empty map. */
  function ArgsOf(call: FunctionCall): map<string, Json> {
    call.args.GetOr(map[])
  }

  /** The exception `callGeminiApi` throws on a non-200 status. */
  function StatusMessage(code: int, body: string): string {
    StatusMarker + StatusDetail(code, body)
  }

  /** What follows the marker: the status code and the response body. */
  function StatusDetail(code: int, body: string): string {
    " " + IntToString(code) + ": " + body
  }

  /** The catch block's mapping of an exception message to the user-facing answer. */
  function ErrorReply(message: Option<string>): string {
    if message.Some? && Contains(message.value, "429") then QuotaMessage
    else if message.Some? && Contains(message.value, StatusMarker) then
      ApiErrorPrefix + message.value[..Min(200, |message.value|)] + "..."
    else ErrorPrefix + ShowNullable(message)
  }

  /** How an invocation ends. */
  datatype Exit =
    | Answer(text: string)           // a text part, returned verbatim
    | Diagnostic(message: string)    // a configuration or malformed-reply message
    | Thrown(error: Option<string>)  // an exception, mapped by the catch block
    | Exhausted                      // five rounds without a text answer

  function ReplyFor(exit: Exit): string {
    match exit
    case Answer(t) => t
    case Diagnostic(m) => m
    case Thrown(m) => ErrorReply(m)
    case Exhausted => Apology
  }

  /** The result of one round: the invocation ends, or goes on with a transcript. */
  datatype Step = Stop(exit: Exit) | Continue(contents: seq<Turn>)

  /** One round, given what the call produced. */
  function Round(outcome: CallOutcome, contents: seq<Turn>, store: Store): Step {
    match outcome
    case Status(code, body) => Stop(Thrown(Some(StatusMessage(code, body))))
    case Fault(m) => Stop(Thrown(m))
    case Body(None) => Stop(Diagnostic(NullResponseMessage))
    case Body(Some(response)) =>
      if response.candidates.None? || |response.candidates.value| == 0 then Stop(Diagnostic(NoCandidatesMessage))
      else
        var candidate := response.candidates.value[0];
        if candidate.content.None? then Stop(Diagnostic(NoContentMessage))
        else
          var parts := candidate.content.value.parts;
          if parts.None? || |parts.value| == 0 then Stop(Diagnostic(NoPartsMessage))
          else
            var firstPart := parts.value[0];
            if firstPart.functionCall.Some? then
              var call := firstPart.functionCall.value;
              Continue(contents + [ModelCall(call), ToolResponse(call.name, Execute(call.name, ArgsOf(call), store))])
            else if firstPart.text.Some? then Stop(Answer(firstPart.text.value))
            else Continue(contents)
  }

  /** An invocation's end, its final transcript and the number of model calls it made. */
  datatype Run = Run(exit: Exit, transcript: seq<Turn>, calls: nat)

  /** Rounds `round` to 5, from transcript `contents`. */
  function Loop(round: nat, contents: seq<Turn>, api: Gemini, store: Store): Run
    requires round <= MaxIterations
    decreases MaxIterations - round
  {
    if round == MaxIterations then Run(Exhausted, contents, 0)
    else
      match Round(api(round, RequestFor(contents)), contents, store)
      case Stop(exit) => Run(exit, contents, 1)
      case Continue(next) =>
        var rest := Loop(round + 1, next, api, store);
        Run(rest.exit, rest.transcript, rest.calls + 1)
  }

  /**
   * A whole invocation of `chat`. A null message makes `Map.of` throw a
   * NullPointerException without a message while the first request is built, before
   * any call.
   */
  function Converse(apiKey: Option<string>, message: Option<string>, api: Gemini, store: Store): Run {
    if !Configured(apiKey) then Run(Diagnostic(NotConfiguredWarning), [], 0)
    else if message.None? then Run(Thrown(None), [], 0)
    else Loop(0, [UserText(message.value)], api, store)
  }

  /**
   * The body of one iteration of `chat`'s loop, once the model has answered: the
   * checks on the reply in the order the source makes them, and the tool run.
   * `Round` is the same step as a function, so that `Loop` and `Converse` can state
   * the whole invocation; this method runs the tool through the `ExecuteFunction`
   * method, as the loop does, and is proved to take the step `Round` describes.
   */
  method HandleOutcome(outcome: CallOutcome, contents: seq<Turn>, store: Store) returns (step: Step)
    ensures step == Round(outcome, contents, store)
  {
    if outcome.Status? {
      return Stop(Thrown(Some(StatusMessage(outcome.code, outcome.body))));
    }
    if outcome.Fault? {
      return Stop(Thrown(outcome.message));
    }
    if outcome.envelope.None? {
      return Stop(Diagnostic(NullResponseMessage));
    }
    var response := outcome.envelope.value;
    if response.candidates.None? || |response.candidates.value| == 0 {
      return Stop(Diagnostic(NoCandidatesMessage));
    }
    var candidate := response.candidates.value[0];
    if candidate.content.None? {
      return Stop(Diagnostic(NoContentMessage));
    }
    var content := candidate.content.value;
    if content.parts.None? || |content.parts.value| == 0 {
      return Stop(Diagnostic(NoPartsMessage));
    }
    var firstPart := content.parts.value[0];
    if firstPart.functionCall.Some? {
      var call := firstPart.functionCall.value;
      var args := if call.args.Some? then call.args.value else map[];
      var result := ExecuteFunction(call.name, args, store);
      var next := contents + [ModelCall(call)];
      next := next + [ToolResponse(call.name, result)];
      return Continue(next);
    } else if firstPart.text.Some? {
      return Stop(Answer(firstPart.text.value));
    }
    return Continue(contents);
  }

  /**
   * `chat`: every path returns a string; no exception leaves it.
   */
  method Chat(apiKey: Option<string>, userMessage: Option<string>, api: Gemini, store: Store) returns (reply: string)
    ensures reply == ReplyFor(Converse(apiKey, userMessage, api, store).exit)
  {
    if apiKey.None? || apiKey.value == PlaceholderKey {
      return NotConfiguredWarning;
    }
    if userMessage.None? {
      return ErrorReply(None);
    }
    var contents := [UserText(userMessage.value)];
    var i := 0;
    while i < MaxIterations
      invariant i <= MaxIterations
      invariant Loop(i, contents, api, store).exit == Converse(apiKey, userMessage, api, store).exit
    {
      var outcome := api(i, RequestFor(contents));
      var step := HandleOutcome(outcome, contents, store);
      if step.Stop? {
        return ReplyFor(step.exit);
      }
      contents := step.contents;
      i := i + 1;
    }
    return Apology;
  }

  // ---------------------------------------------------------------------------
  // Properties of an invocation

  /** An unset or placeholder key answers with the warning and calls nothing. */
  lemma NotConfiguredShortCircuits(apiKey: Option<string>, message: Option<string>, api: Gemini, store: Store)
    requires apiKey.None? || apiKey == Some(PlaceholderKey)
    ensures Converse(apiKey, message, api, store).calls == 0
    ensures ReplyFor(Converse(apiKey, message, api, store).exit) == NotConfiguredWarning
  {
  }

  /** From round `round` on, at most the remaining rounds call the model, and at least one does. */
  lemma {:induction false} LoopCallsBounded(round: nat, contents: seq<Turn>, api: Gemini, store: Store)
    requires round <= MaxIterations
    ensures Loop(round, contents, api, store).calls <= MaxIterations - round
    ensures round < MaxIterations ==> Loop(round, contents, api, store).calls >= 1
    decreases MaxIterations - round
  {
    if round < MaxIterations {
      match Round(api(round, RequestFor(contents)), contents, store)
      case Stop(_) =>
      case Continue(next) => LoopCallsBounded(round + 1, next, api, store);
    }
  }

  /**
   * The model is called at most five times per invocation, and at least once when
   * configured with a message; a configured invocation with a null message calls it never.
   */
  lemma CallsAtMostFive(apiKey: Option<string>, message: Option<string>, api: Gemini, store: Store)
    ensures Converse(apiKey, message, api, store).calls <= MaxIterations
    ensures Configured(apiKey) ==> (Converse(apiKey, message, api, store).calls >= 1 <==> message.Some?)
  {
    if Configured(apiKey) && message.Some? {
      LoopCallsBounded(0, [UserText(message.value)], api, store);
    }
  }

  /** A configured invocation with a null message answers "❌ Error: null" without calling the model. */
  lemma NullMessageFailsAtOnce(apiKey: Option<string>, api: Gemini, store: Store)
    requires Configured(apiKey)
    ensures Converse(apiKey, None, api, store).calls == 0
    ensures ReplyFor(Converse(apiKey, None, api, store).exit) == "❌ Error: null"
  {
  }

  /** Round `k` of a transcript: a model call, then the gateway's answer to that very call. */
  predicate ToolRoundAt(t: seq<Turn>, k: nat, store: Store)
    requires 2 * k + 2 < |t|
  {
    && t[2 * k + 1].ModelCall?
    && t[2 * k + 2] == ToolResponse(t[2 * k + 1].call.name,
                                    Execute(t[2 * k + 1].call.name, ArgsOf(t[2 * k + 1].call), store))
  }

  /**
   * The shape of every transcript: the user's message, then call/response pairs in
   * which each response carries the called tool's name and the gateway's result.
   */
  ghost predicate WellFormed(t: seq<Turn>, message: string, store: Store) {
    && |t| % 2 == 1
    && t[0] == UserText(message)
    && forall k: nat :: 2 * k + 2 < |t| ==> ToolRoundAt(t, k, store)
  }

  lemma WellFormedExtend(t: seq<Turn>, message: string, store: Store, call: FunctionCall)
    requires WellFormed(t, message, store)
    ensures WellFormed(t + [ModelCall(call), ToolResponse(call.name, Execute(call.name, ArgsOf(call), store))], message, store)
  {
    var t' := t + [ModelCall(call), ToolResponse(call.name, Execute(call.name, ArgsOf(call), store))];
    forall k: nat | 2 * k + 2 < |t'|
      ensures ToolRoundAt(t', k, store)
    {
      if 2 * k + 2 < |t| {
        assert ToolRoundAt(t, k, store);
      } else {
        assert 2 * k + 1 == |t|;
      }
    }
  }

  /**
   * The rounds only extend the transcript, by whole call/response pairs, by at most two
   * entries per remaining round.
   */
  lemma {:induction false} LoopTranscript(round: nat, contents: seq<Turn>, api: Gemini, store: Store, message: string)
    requires round <= MaxIterations
    requires WellFormed(contents, message, store)
    ensures var t := Loop(round, contents, api, store).transcript;
            && WellFormed(t, message, store)
            && contents <= t
            && |t| <= |contents| + 2 * (MaxIterations - round)
    decreases MaxIterations - round
  {
    if round < MaxIterations {
      var outcome := api(round, RequestFor(contents));
      match Round(outcome, contents, store)
      case Stop(_) =>
      case Continue(next) =>
        if next != contents {
          var call := outcome.envelope.value.candidates.value[0].content.value.parts.value[0].functionCall.value;
          WellFormedExtend(contents, message, store, call);
        }
        LoopTranscript(round + 1, next, api, store, message);
    }
  }

  /**
   * A configured invocation's transcript starts with exactly the user's message, holds
   * nothing but call/response pairs after it, and has at most 11 entries.
   */
  lemma TranscriptShape(apiKey: Option<string>, message: string, api: Gemini, store: Store)
    requires Configured(apiKey)
    ensures var t := Converse(apiKey, Some(message), api, store).transcript;
            && WellFormed(t, message, store)
            && |t| <= 1 + 2 * MaxIterations
  {
    LoopTranscript(0, [UserText(message)], api, store, message);
  }

  /** The model's reply asks for a function: a well-formed envelope whose first part holds a `functionCall`. */
  predicate IsToolCall(outcome: CallOutcome) {
    && outcome.Body? && outcome.envelope.Some?
    && outcome.envelope.value.candidates.Some? && |outcome.envelope.value.candidates.value| > 0
    && outcome.envelope.value.candidates.value[0].content.Some?
    && outcome.envelope.value.candidates.value[0].content.value.parts.Some?
    && |outcome.envelope.value.candidates.value[0].content.value.parts.value| > 0
    && outcome.envelope.value.candidates.value[0].content.value.parts.value[0].functionCall.Some?
  }

  lemma {:induction false} LoopAllToolCalls(round: nat, contents: seq<Turn>, api: Gemini, store: Store)
    requires round <= MaxIterations
    requires forall r: nat, q: Request :: IsToolCall(api(r, q))
    ensures Loop(round, contents, api, store).exit == Exhausted
    ensures Loop(round, contents, api, store).calls == MaxIterations - round
    ensures |Loop(round, contents, api, store).transcript| == |contents| + 2 * (MaxIterations - round)
    decreases MaxIterations - round
  {
    if round < MaxIterations {
      assert IsToolCall(api(round, RequestFor(contents)));
      var next := Round(api(round, RequestFor(contents)), contents, store).contents;
      LoopAllToolCalls(round + 1, next, api, store);
    }
  }

  /**
   * A model that asks for a function every time is cut off after five calls with the
   * apology, having run five tools.
   */
  lemma AlwaysCallingExhausts(apiKey: Option<string>, message: string, api: Gemini, store: Store)
    requires Configured(apiKey)
    requires forall r: nat, q: Request :: IsToolCall(api(r, q))
    ensures Converse(apiKey, Some(message), api, store).calls == MaxIterations
    ensures ReplyFor(Converse(apiKey, Some(message), api, store).exit) == Apology
    ensures |Converse(apiKey, Some(message), api, store).transcript| == 1 + 2 * MaxIterations
  {
    LoopAllToolCalls(0, [UserText(message)], api, store);
  }

  /** A reply that is null, or lacks candidates, content or parts, ends the invocation in that round with its diagnostic. */
  lemma MalformedReplyEndsAtOnce(round: nat, contents: seq<Turn>, api: Gemini, store: Store)
    requires round < MaxIterations
    requires api(round, RequestFor(contents)).Body?
    requires !IsToolCall(api(round, RequestFor(contents)))
    requires var e := api(round, RequestFor(contents)).envelope;
             e.None? || e.value.candidates.None? || |e.value.candidates.value| == 0
             || e.value.candidates.value[0].content.None?
             || e.value.candidates.value[0].content.value.parts.None?
             || |e.value.candidates.value[0].content.value.parts.value| == 0
    ensures var e := api(round, RequestFor(contents)).envelope;
            Loop(round, contents, api, store) == Run(Diagnostic(
              if e.None? then NullResponseMessage
              else if e.value.candidates.None? || |e.value.candidates.value| == 0 then NoCandidatesMessage
              else if e.value.candidates.value[0].content.None? then NoContentMessage
              else NoPartsMessage), contents, 1)
  {
  }

  /** The first part of a well-formed reply, the only one examined. */
  function FirstPart(outcome: CallOutcome): Option<Part> {
    if outcome.Body? && outcome.envelope.Some?
       && outcome.envelope.value.candidates.Some? && |outcome.envelope.value.candidates.value| > 0
       && outcome.envelope.value.candidates.value[0].content.Some?
       && outcome.envelope.value.candidates.value[0].content.value.parts.Some?
       && |outcome.envelope.value.candidates.value[0].content.value.parts.value| > 0
    then Some(outcome.envelope.value.candidates.value[0].content.value.parts.value[0])
    else None
  }

  /**
   * The first part decides the round: a function call (even beside a text) runs the
   * tool once with its name and appends the call and its result; a text alone is the
   * answer, verbatim; a part with neither leaves the transcript as it is and moves on.
   */
  lemma FirstPartDecides(round: nat, contents: seq<Turn>, api: Gemini, store: Store)
    requires round < MaxIterations
    requires FirstPart(api(round, RequestFor(contents))).Some?
    ensures var p := FirstPart(api(round, RequestFor(contents))).value;
            var run := Loop(round, contents, api, store);
            && (p.functionCall.Some? ==>
                  var c := p.functionCall.value;
                  run == (var rest := Loop(round + 1, contents + [ModelCall(c), ToolResponse(c.name, Execute(c.name, ArgsOf(c), store))], api, store);
                          Run(rest.exit, rest.transcript, rest.calls + 1)))
            && (p.functionCall.None? && p.text.Some? ==> run == Run(Answer(p.text.value), contents, 1))
            && (p.functionCall.None? && p.text.None? ==>
                  run == (var rest := Loop(round + 1, contents, api, store); Run(rest.exit, rest.transcript, rest.calls + 1)))
  {
  }

  /** A function call without `args` is run with an empty argument map. */
  lemma MissingArgsAreEmpty(name: string)
    ensures ArgsOf(FunctionCall(name, None)) == map[]
  {
  }

  // ---------------------------------------------------------------------------
  // Error mapping

  lemma RenderFourTwentyNine()
    ensures IntToString(429) == "429"
  {
    assert NatToString(4) == "4";
    assert NatToString(42) == NatToString(4) + "2";
  }

  /** A 429 status always yields the quota message. */
  lemma QuotaOnStatus429(body: string)
    ensures ErrorReply(Some(StatusMessage(429, body))) == QuotaMessage
  {
    RenderFourTwentyNine();
    assert StatusMessage(429, body) == (StatusMarker + " ") + "429" + (": " + body);
    ContainsInfix(StatusMarker + " ", "429", ": " + body);
  }

  /**
   * Any other status whose message does not mention 429 yields the API-error answer
   * with the first 200 characters of the message.
   */
  lemma ApiErrorOnOtherStatus(code: int, body: string)
    requires !Contains(StatusMessage(code, body), "429")
    ensures var m := StatusMessage(code, body);
            ErrorReply(Some(m)) == ApiErrorPrefix + m[..Min(200, |m|)] + "..."
  {
    StatusMessageNamesStatus(code, body);
  }

  /** The exception a status raises mentions the status marker. */
  lemma StatusMessageNamesStatus(code: int, body: string)
    ensures Contains(StatusMessage(code, body), StatusMarker)
  {
    ContainsOwnPrefix(StatusMarker, StatusDetail(code, body));
  }

  /** An exception that mentions neither 429 nor a status is reported with its message, or "null". */
  lemma OtherExceptionsReported(message: Option<string>)
    requires message.Some? ==> !Contains(message.value, "429") && !Contains(message.value, StatusMarker)
    ensures ErrorReply(message) == ErrorPrefix + (if message.Some? then message.value else "null")
  {
  }

  /** A status failure in any round ends the invocation with the mapped message, after that one call. */
  lemma StatusEndsAtOnce(round: nat, contents: seq<Turn>, api: Gemini, store: Store)
    requires round < MaxIterations
    requires api(round, RequestFor(contents)).Status?
    ensures var o := api(round, RequestFor(contents));
            Loop(round, contents, api, store) == Run(Thrown(Some(StatusMessage(o.code, o.body))), contents, 1)
  {
  }

  // ---------------------------------------------------------------------------
  // Scenarios

  /**
   * The model asks for `getLowStockItems` without arguments, then answers in text: the
   * answer is returned after two calls, and the transcript holds the user's message,
   * the call, and the gateway's default-threshold listing.
   */
  lemma LowStockScenario(apiKey: Option<string>, message: string, api: Gemini, store: Store, answer: string)
    requires Configured(apiKey)
    requires api(0, RequestFor([UserText(message)])) ==
             Body(Some(Envelope(Some([Candidate(Some(ReplyContent(Some([Part(Some(FunctionCall("getLowStockItems", None)), None)]))))]))))
    requires var t := [UserText(message), ModelCall(FunctionCall("getLowStockItems", None)),
                       ToolResponse("getLowStockItems", Execute("getLowStockItems", map[], store))];
             api(1, RequestFor(t)) == Body(Some(Envelope(Some([Candidate(Some(ReplyContent(Some([Part(None, Some(answer))]))))]))))
    ensures var run := Converse(apiKey, Some(message), api, store);
            && ReplyFor(run.exit) == answer
            && run.calls == 2
            && |run.transcript| == 3
            && run.transcript[2] == ToolResponse("getLowStockItems", Execute("getLowStockItems", map["threshold" := JNum(10)], store))
  {
    var t := [UserText(message), ModelCall(FunctionCall("getLowStockItems", None)),
              ToolResponse("getLowStockItems", Execute("getLowStockItems", map[], store))];
    assert Round(api(0, RequestFor([UserText(message)])), [UserText(message)], store) == Continue(t);
    assert Loop(1, t, api, store) == Run(Answer(answer), t, 1);
    assert Loop(0, [UserText(message)], api, store) == Run(Answer(answer), t, 2);
    DefaultThresholdIsTen(map[], store);
    assert map[]["threshold" := JNum(10)] == map["threshold" := JNum(10)];
  }

  /** A 429 on the first call answers with the quota message after that single call. */
  lemma QuotaScenario(apiKey: Option<string>, message: string, api: Gemini, store: Store, body: string)
    requires Configured(apiKey)
    requires api(0, RequestFor([UserText(message)])) == Status(429, body)
    ensures Converse(apiKey, Some(message), api, store).calls == 1
    ensures ReplyFor(Converse(apiKey, Some(message), api, store).exit) == QuotaMessage
  {
    QuotaOnStatus429(body);
  }
}
