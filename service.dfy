/**
 * `OpenAIService.getAIMessage` (Sources/Services/OpenAI/OpenAIService.swift):
 * build the POST request, send it, and either consume the reply as a stream
 * of `data:` frames or decode it whole.
 *
 * The network is a parameter: a `Server` maps the request it receives to the
 * lines of a streamed reply or to the body of a complete reply, and JSON
 * decoding is a pair of partial functions (`None` is a decoding failure).
 */
module Service {
  import opened Wrappers
  import opened Models

  /** `OpenAIService.OpenAIError`. */
  datatype OpenAIError = NoAPIKey | NoContent | InvalidURL | InvalidBody

  /** The chat-completion endpoint every request is sent to. */
  const Endpoint: string := "https://api.openai.com/v1/chat/completions"

  /** Number of characters dropped from the front of every non-empty stream line. */
  const FramePrefixLength: nat := 6

  // ---------------------------------------------------------------------------
  // The request
  // ---------------------------------------------------------------------------

  /** `URLRequest`, a value type; the body is the JSON the encoder produced. */
  datatype URLRequest = URLRequest(
    url: string,
    httpMethod: string,
    headers: map<string, string>,
    httpBody: Option<Json>)
  {
    /** `setValue(_:forHTTPHeaderField:)`: sets one header and leaves the rest of the request as it was. */
    function SetValue(value: string, field: string): (r: URLRequest)
      ensures r.headers.Keys == headers.Keys + {field} && r.headers[field] == value
      ensures forall h :: h in headers && h != field ==> r.headers[h] == headers[h]
      ensures r.url == url && r.httpMethod == httpMethod && r.httpBody == httpBody
    {
      this.(headers := headers[field := value])
    }
  }

  /** `URLRequest(url:)`: a GET with no headers and no body. */
  function NewURLRequest(url: string): URLRequest
  {
    URLRequest(url, "GET", map[], None)
  }

  /** The arguments of `getAIMessage`. */
  datatype ServiceCall = ServiceCall(
    content: string,
    apiKey: string,
    model: string,
    temperature: real,
    maxCompletionTokens: int,
    topP: real,
    frequencyPenalty: real,
    presencePenalty: real,
    stream: bool)

  /**
   * The request body of a call: one message from the user holding the input,
   * every sampling argument passed through unchanged.
   */
  function RequestBodyFor(call: ServiceCall): (b: OpenAIRequestBody)
    ensures |b.messages| == 1
    ensures RoleFromRawValue(b.messages[0].role) == Some(User)
    ensures b.messages[0].content == call.content
    ensures b.model == call.model && b.temperature == call.temperature
    ensures b.maxCompletionTokens == call.maxCompletionTokens && b.topP == call.topP
    ensures b.frequencyPenalty == call.frequencyPenalty
    ensures b.presencePenalty == call.presencePenalty && b.stream == call.stream
    ensures b.responseFormat == TextResponseFormat
  {
    NewRequestBody(call.model, [NewMessage(content := call.content)], call.temperature,
                   call.maxCompletionTokens, call.topP, call.frequencyPenalty,
                   call.presencePenalty, call.stream)
  }

  /** The `Authorization` header value for a credential: the bearer scheme of RFC 6750, section 2.1. */
  function Bearer(apiKey: string): (h: string)
    ensures |h| == 7 + |apiKey| && h[..7] == "Bearer " && h[7..] == apiKey
  {
    "Bearer " + apiKey
  }

  /**
   * The request `getAIMessage` sends: a POST to the endpoint whose only headers
   * are the JSON content type and the bearer credential, and whose body is the
   * encoded request body of the call.
   */
  method BuildRequest(call: ServiceCall) returns (request: URLRequest)
    ensures request.url == Endpoint && request.httpMethod == "POST"
    ensures request.headers.Keys == {"Content-Type", "Authorization"}
    ensures request.headers["Content-Type"] == "application/json"
    ensures request.headers["Authorization"] == Bearer(call.apiKey)
    ensures request.httpBody == Some(EncodeBody(RequestBodyFor(call)))
  {
    request := NewURLRequest(Endpoint);
    request := request.(httpMethod := "POST");
    request := request.SetValue("application/json", "Content-Type");
    request := request.SetValue(Bearer(call.apiKey), "Authorization");
    var chatCompletionRequest := RequestBodyFor(call);
    request := request.(httpBody := Some(EncodeBody(chatCompletionRequest)));
  }

  // ---------------------------------------------------------------------------
  // The streamed reply
  // ---------------------------------------------------------------------------

  /** `choices.first?.delta?.content`: present only when all three links are. */
  function FirstDeltaContent(frame: StreamChatResponse): (r: Option<string>)
    ensures r.Some? <==> |frame.choices| > 0 && frame.choices[0].delta.Some?
                         && frame.choices[0].delta.value.content.Some?
    ensures r.Some? ==> r.value == frame.choices[0].delta.value.content.value
  {
    if |frame.choices| == 0 then None
    else match frame.choices[0].delta
      case None => None
      case Some(delta) => delta.content
  }

  /** The JSON text of a frame: the line without its first six characters, whatever they are. */
  function Payload(line: string): (p: string)
    requires |line| >= FramePrefixLength
    ensures |p| == |line| - FramePrefixLength
  {
    line[FramePrefixLength..]
  }

  /** The six characters in front of the payload are dropped unexamined. */
  lemma PayloadAfterAnyPrefix(prefix: string, json: string)
    requires |prefix| == FramePrefixLength
    ensures Payload(prefix + json) == json
  {
    assert (prefix + json)[FramePrefixLength..] == json;
  }

  /** Why the stream loop stopped. */
  datatype StopReason =
    | EmptyLine          // an empty line: normal end
    | NoDeltaContent     // a frame without first choice, delta or content: normal end
    | DecodeFailed       // a payload that does not decode: `noContent` is thrown
    | PrefixTooShort     // a line shorter than the prefix: the index offset traps
    | LinesExhausted     // the transport delivered no more lines

  /** What one line does to the stream. */
  datatype LineStep = Emit(text: string) | Stop(reason: StopReason)

  /** The transition of the stream loop on one line. */
  function Step(line: string, decode: string -> Option<StreamChatResponse>): (s: LineStep)
    ensures s != Stop(LinesExhausted)
  {
    if line == [] then Stop(EmptyLine)
    else if |line| < FramePrefixLength then Stop(PrefixTooShort)
    else match decode(Payload(line))
      case None => Stop(DecodeFailed)
      case Some(frame) =>
        match FirstDeltaContent(frame)
        case None => Stop(NoDeltaContent)
        case Some(text) => Emit(text)
  }

  /** The five ways a line can go, each exactly characterised. */
  lemma StepCases(line: string, decode: string -> Option<StreamChatResponse>)
    ensures var s, payloadOk := Step(line, decode), line != [] && |line| >= FramePrefixLength;
            && (s == Stop(EmptyLine) <==> line == [])
            && (s == Stop(PrefixTooShort) <==> 0 < |line| < FramePrefixLength)
            && (s == Stop(DecodeFailed) <==> payloadOk && decode(Payload(line)).None?)
            && (s == Stop(NoDeltaContent) <==> payloadOk && decode(Payload(line)).Some?
                                               && FirstDeltaContent(decode(Payload(line)).value).None?)
            && (s.Emit? <==> payloadOk && decode(Payload(line)).Some?
                             && FirstDeltaContent(decode(Payload(line)).value).Some?)
            && (s.Emit? ==> s.text == FirstDeltaContent(decode(Payload(line)).value).value)
  {
  }

  /** The effect of the stream loop: the fragments emitted, why it stopped, how many lines it read. */
  datatype StreamOutcome = StreamOutcome(fragments: seq<string>, stop: StopReason, consumed: nat)

  /**
   * The stream loop from line `i` on: it reads lines in order, emits the
   * fragment of each line that has one, and stops at the first line that has
   * none. It never reads past the end of the lines.
   */
  function RunFrom(lines: seq<string>, i: nat, decode: string -> Option<StreamChatResponse>): (o: StreamOutcome)
    requires i <= |lines|
    ensures o.consumed <= |lines| - i
    decreases |lines| - i
  {
    if i == |lines| then StreamOutcome([], LinesExhausted, 0)
    else match Step(lines[i], decode)
      case Stop(reason) => StreamOutcome([], reason, 1)
      case Emit(text) =>
        var rest := RunFrom(lines, i + 1, decode);
        StreamOutcome([text] + rest.fragments, rest.stop, rest.consumed + 1)
  }

  /** The stream loop over all the lines of a reply. */
  function RunStream(lines: seq<string>, decode: string -> Option<StreamChatResponse>): (o: StreamOutcome)
    ensures o.consumed <= |lines|
  {
    RunFrom(lines, 0, decode)
  }

  lemma {:induction false} RunFromShape(lines: seq<string>, i: nat, decode: string -> Option<StreamChatResponse>)
    requires i <= |lines|
    ensures RunFrom(lines, i, decode).stop == LinesExhausted ==>
              RunFrom(lines, i, decode).consumed == |lines| - i
              && |RunFrom(lines, i, decode).fragments| == |lines| - i
    ensures RunFrom(lines, i, decode).stop != LinesExhausted ==>
              0 < RunFrom(lines, i, decode).consumed
              && |RunFrom(lines, i, decode).fragments| == RunFrom(lines, i, decode).consumed - 1
              && Step(lines[i + RunFrom(lines, i, decode).consumed - 1], decode) == Stop(RunFrom(lines, i, decode).stop)
    ensures forall k :: 0 <= k < |RunFrom(lines, i, decode).fragments| ==>
              Step(lines[i + k], decode) == Emit(RunFrom(lines, i, decode).fragments[k])
    decreases |lines| - i
  {
    if i < |lines| && Step(lines[i], decode).Emit? {
      RunFromShape(lines, i + 1, decode);
      var o, rest := RunFrom(lines, i, decode), RunFrom(lines, i + 1, decode);
      assert o == StreamOutcome([Step(lines[i], decode).text] + rest.fragments, rest.stop, rest.consumed + 1);
      forall k | 0 <= k < |o.fragments| ensures Step(lines[i + k], decode) == Emit(o.fragments[k]) {
        if k > 0 {
          assert o.fragments[k] == rest.fragments[k - 1];
        }
      }
    }
  }

  /**
   * What the loop did, line by line: every line before the last one read
   * emitted its fragment, in arrival order; the last line read is the one
   * that stopped the loop, unless the lines ran out first.
   */
  lemma RunStreamShape(lines: seq<string>, decode: string -> Option<StreamChatResponse>)
    ensures var o := RunStream(lines, decode);
            && (o.stop == LinesExhausted ==> o.consumed == |lines| && |o.fragments| == |lines|)
            && (o.stop != LinesExhausted ==> 0 < o.consumed && |o.fragments| == o.consumed - 1
                                             && Step(lines[o.consumed - 1], decode) == Stop(o.stop))
            && (forall k :: 0 <= k < |o.fragments| ==> Step(lines[k], decode) == Emit(o.fragments[k]))
  {
    RunFromShape(lines, 0, decode);
  }

  /** The text a sequence of fragments prints: the fragments back to back, no separator. */
  function Concat(fragments: seq<string>): string
  {
    if fragments == [] then [] else Concat(fragments[..|fragments| - 1]) + fragments[|fragments| - 1]
  }

  lemma {:induction false} ConcatAppend(a: seq<string>, b: seq<string>)
    ensures Concat(a + b) == Concat(a) + Concat(b)
    decreases |b|
  {
    if b == [] {
      assert a + b == a;
    } else {
      var last := |b| - 1;
      assert (a + b)[..|a + b| - 1] == a + b[..last];
      ConcatAppend(a, b[..last]);
    }
  }

  lemma {:induction false} RunFromIgnoresLaterLines(lines: seq<string>, later: seq<string>, i: nat,
                                                    decode: string -> Option<StreamChatResponse>)
    requires i <= |lines| && RunFrom(lines, i, decode).stop != LinesExhausted
    ensures RunFrom(lines + later, i, decode) == RunFrom(lines, i, decode)
    decreases |lines| - i
  {
    assert (lines + later)[i] == lines[i];
    if Step(lines[i], decode).Emit? {
      RunFromIgnoresLaterLines(lines, later, i + 1, decode);
    }
  }

  /**
   * A stream that stopped before its lines ran out does not depend on any
   * later line: whatever follows, the outcome is the same.
   */
  lemma RunStreamIgnoresLaterLines(lines: seq<string>, later: seq<string>,
                                   decode: string -> Option<StreamChatResponse>)
    requires RunStream(lines, decode).stop != LinesExhausted
    ensures RunStream(lines + later, decode) == RunStream(lines, decode)
  {
    RunFromIgnoresLaterLines(lines, later, 0, decode);
  }

  lemma {:induction false} RunFromShift(first: seq<string>, second: seq<string>, j: nat,
                                        decode: string -> Option<StreamChatResponse>)
    requires j <= |second|
    ensures RunFrom(first + second, |first| + j, decode) == RunFrom(second, j, decode)
    decreases |second| - j
  {
    if j < |second| {
      assert (first + second)[|first| + j] == second[j];
      RunFromShift(first, second, j + 1, decode);
    }
  }

  lemma {:induction false} RunFromAppend(first: seq<string>, second: seq<string>, i: nat,
                                         decode: string -> Option<StreamChatResponse>)
    requires i <= |first| && RunFrom(first, i, decode).stop == LinesExhausted
    ensures RunFrom(first + second, i, decode).fragments
         == RunFrom(first, i, decode).fragments + RunStream(second, decode).fragments
    ensures RunFrom(first + second, i, decode).stop == RunStream(second, decode).stop
    ensures RunFrom(first + second, i, decode).consumed
         == |first| - i + RunStream(second, decode).consumed
    decreases |first| - i
  {
    if i == |first| {
      RunFromShift(first, second, 0, decode);
    } else {
      assert (first + second)[i] == first[i];
      RunFromAppend(first, second, i + 1, decode);
      var t := Step(first[i], decode).text;
      var a, b := RunFrom(first, i + 1, decode).fragments, RunStream(second, decode).fragments;
      assert [t] + (a + b) == ([t] + a) + b;
    }
  }

  /**
   * Reading a stream in two parts: when the first part emits on every line,
   * the outcome is its fragments followed by the outcome of the second part.
   */
  lemma RunStreamAppend(first: seq<string>, second: seq<string>,
                        decode: string -> Option<StreamChatResponse>)
    requires RunStream(first, decode).stop == LinesExhausted
    ensures RunStream(first + second, decode).fragments
         == RunStream(first, decode).fragments + RunStream(second, decode).fragments
    ensures RunStream(first + second, decode).stop == RunStream(second, decode).stop
    ensures RunStream(first + second, decode).consumed == |first| + RunStream(second, decode).consumed
  {
    RunFromAppend(first, second, 0, decode);
  }

  /** A frame whose first choice carries `text` as its delta content. */
  function TextFrame(text: string): StreamChatResponse
  {
    StreamChatResponse([StreamChoice(Some(StreamDelta(Some(text))))])
  }

  /**
   * Two `data: ` frames and an empty line: the fragments are "Hi" and " there"
   * in that order, and the line after the empty one is never read.
   */
  lemma StreamExample(decode: string -> Option<StreamChatResponse>, hi: string, there: string)
    requires decode(hi) == Some(TextFrame("Hi")) && decode(there) == Some(TextFrame(" there"))
    ensures RunStream(["data: " + hi, "data: " + there, "", "data: not read"], decode)
         == StreamOutcome(["Hi", " there"], EmptyLine, 3)
  {
    var lines := ["data: " + hi, "data: " + there, "", "data: not read"];
    PayloadAfterAnyPrefix("data: ", hi);
    PayloadAfterAnyPrefix("data: ", there);
    assert Step(lines[0], decode) == Emit("Hi");
    assert Step(lines[1], decode) == Emit(" there");
    assert RunFrom(lines, 2, decode) == StreamOutcome([], EmptyLine, 1);
    assert RunFrom(lines, 1, decode) == StreamOutcome([" there"], EmptyLine, 2);
    assert RunFrom(lines, 0, decode) == StreamOutcome(["Hi"] + [" there"], EmptyLine, 3);
    assert ["Hi"] + [" there"] == ["Hi", " there"];
  }

  /** What the loop prints and how `getAIMessage` ends after it. */
  datatype Outcome = Returned | Threw(error: OpenAIError) | Trapped

  function StreamEnd(stop: StopReason): (r: Outcome)
    ensures r == Threw(NoContent) <==> stop == DecodeFailed
    ensures r == Trapped <==> stop == PrefixTooShort
    ensures r == Returned <==> stop == EmptyLine || stop == NoDeltaContent || stop == LinesExhausted
  {
    match stop
    case DecodeFailed => Threw(NoContent)
    case PrefixTooShort => Trapped
    case _ => Returned
  }

  /**
   * The `for try await line in response.lines` loop: prints each fragment as
   * it arrives and returns how the loop ended and how many lines it read.
   */
  method ConsumeStream(lines: seq<string>, decode: string -> Option<StreamChatResponse>)
    returns (printed: string, stop: StopReason, consumed: nat)
    ensures var o := RunStream(lines, decode);
            printed == Concat(o.fragments) && stop == o.stop && consumed == o.consumed
  {
    printed, consumed := "", 0;
    ghost var emitted: seq<string> := [];
    ghost var all := RunStream(lines, decode);
    while consumed < |lines|
      invariant consumed <= |lines|
      invariant printed == Concat(emitted)
      invariant all.fragments == emitted + RunFrom(lines, consumed, decode).fragments
      invariant all.stop == RunFrom(lines, consumed, decode).stop
      invariant all.consumed == consumed + RunFrom(lines, consumed, decode).consumed
    {
      match Step(lines[consumed], decode) {
        case Stop(reason) =>
          assert emitted + [] == emitted;
          stop, consumed := reason, consumed + 1;
          return;
        case Emit(messageContent) =>
          assert (emitted + [messageContent])[..|emitted|] == emitted;
          ghost var later := RunFrom(lines, consumed + 1, decode).fragments;
          assert emitted + ([messageContent] + later) == (emitted + [messageContent]) + later;
          printed := printed + messageContent;
          emitted := emitted + [messageContent];
          consumed := consumed + 1;
      }
    }
    assert emitted + [] == emitted;
    stop := LinesExhausted;
  }

  // ---------------------------------------------------------------------------
  // The complete reply
  // ---------------------------------------------------------------------------

  /**
   * The non-streamed branch: the content of the first choice, or `noContent`
   * when the body does not decode or has no choice.
   */
  function ExtractMessage(body: string, decode: string -> Option<ChatResponse>): (r: Result<string, OpenAIError>)
    ensures r.Failure? ==> r.error == NoContent
    ensures r.Success? <==> decode(body).Some? && |decode(body).value.choices| > 0
    ensures r.Success? ==> r.value == decode(body).value.choices[0].message.content
  {
    match decode(body)
    case None => Failure(NoContent)
    case Some(response) =>
      if |response.choices| == 0 then Failure(NoContent)
      else Success(response.choices[0].message.content)
  }

  // ---------------------------------------------------------------------------
  // getAIMessage
  // ---------------------------------------------------------------------------

  /** The remote service, as seen from one call. */
  datatype Server = Server(
    streamLines: URLRequest -> seq<string>,
    responseBody: URLRequest -> string,
    decodeStream: string -> Option<StreamChatResponse>,
    decodeChat: string -> Option<ChatResponse>)

  /** One call of `getAIMessage`: the request sent, the reply text printed, and how it ended. */
  datatype Invocation = Invocation(request: URLRequest, printed: string, outcome: Outcome)

  /**
   * What `print("\n\(messageContent)\n")` writes: the content between a
   * leading newline and the newline of the literal, then `print`'s own
   * default terminator, another newline.
   */
  function CompleteReplyText(content: string): (t: string)
    ensures |t| == |content| + 3
    ensures t[0] == '\n' && t[1..|t| - 2] == content && t[|t| - 2..] == "\n\n"
  {
    "\n" + content + "\n" + "\n"
  }

  /** What a call prints and how it ends, once its request has been sent. */
  function Reply(stream: bool, request: URLRequest, server: Server): (string, Outcome)
  {
    if stream then
      var o := RunStream(server.streamLines(request), server.decodeStream);
      (Concat(o.fragments), StreamEnd(o.stop))
    else
      match ExtractMessage(server.responseBody(request), server.decodeChat)
      case Success(content) => (CompleteReplyText(content), Returned)
      case Failure(e) => ("", Threw(e))
  }

  /**
   * `getAIMessage`: sends the request built from the call, then streams or
   * decodes the reply according to the `stream` argument.
   */
  method GetAIMessage(call: ServiceCall, server: Server) returns (inv: Invocation)
    ensures inv.request.url == Endpoint && inv.request.httpMethod == "POST"
    ensures inv.request.headers == map["Content-Type" := "application/json",
                                       "Authorization" := Bearer(call.apiKey)]
    ensures inv.request.httpBody == Some(EncodeBody(RequestBodyFor(call)))
    ensures (inv.printed, inv.outcome) == Reply(call.stream, inv.request, server)
  {
    var request := BuildRequest(call);
    if call.stream {
      var printed, stop, _ := ConsumeStream(server.streamLines(request), server.decodeStream);
      inv := Invocation(request, printed, StreamEnd(stop));
    } else {
      var data := server.responseBody(request);
      match ExtractMessage(data, server.decodeChat) {
        case Failure(e) =>
          inv := Invocation(request, "", Threw(e));
        case Success(messageContent) =>
          inv := Invocation(request, CompleteReplyText(messageContent), Returned);
      }
    }
  }

  /** A complete reply with one choice: its content is printed after a newline and before two, nothing is thrown. */
  lemma CompleteReplyExample(request: URLRequest, server: Server)
    requires server.decodeChat(server.responseBody(request))
          == Some(ChatResponse([Choice(0, Message("assistant", "Hi!"))], "gpt-4o"))
    ensures Reply(false, request, server) == ("\nHi!\n\n", Returned)
  {
    assert "\n" + "Hi!" + "\n" + "\n" == "\nHi!\n\n";
  }
}
