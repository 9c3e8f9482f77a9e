/**
 * The request and response shapes of the chat-completion API
 * (Sources/Services/OpenAI/OpenAIModels.swift), and the wire view of the
 * request body that the JSON encoder produces with its snake_case key strategy.
 */
module Models {
  import opened Wrappers

  // ---------------------------------------------------------------------------
  // Messages
  // ---------------------------------------------------------------------------

  /** `OpenAIMessage.Role`, a `String`-backed enum. */
  datatype Role = Developer | User | Assistant

  /** `Role(rawValue:)`, the initializer Swift synthesises for a `String`-backed enum. */
  function RoleFromRawValue(s: string): Option<Role>
  {
    if s == "developer" then Some(Developer)
    else if s == "user" then Some(User)
    else if s == "assistant" then Some(Assistant)
    else None
  }

  /** `role.rawValue`: the case name, which `RoleFromRawValue` maps back to the same role. */
  function RawValue(role: Role): (s: string)
    ensures RoleFromRawValue(s) == Some(role)
    ensures |s| > 0
  {
    match role
    case Developer => "developer"
    case User => "user"
    case Assistant => "assistant"
  }

  /** Only the three case names are raw values: `RawValue` is the exact inverse of `RoleFromRawValue`. */
  lemma RawValueOnly(s: string, role: Role)
    ensures RoleFromRawValue(s) == Some(role) <==> RawValue(role) == s
  {
  }

  /** A message of the request: the role is stored as its raw string. */
  datatype OpenAIMessage = OpenAIMessage(role: string, content: string)

  /** `OpenAIMessage.init(role:content:)`; the role defaults to `user`. */
  function NewMessage(role: Role := User, nameonly content: string): (m: OpenAIMessage)
    ensures RoleFromRawValue(m.role) == Some(role)
    ensures m.content == content
  {
    OpenAIMessage(RawValue(role), content)
  }

  // ---------------------------------------------------------------------------
  // Request body
  // ---------------------------------------------------------------------------

  /** The fixed `response_format` of every request: plain text. */
  const TextResponseFormat: map<string, string> := map["type" := "text"]

  /** `OpenAIRequestBody`; Swift `Double` is modelled as `real`, `Int` as `int`. */
  datatype OpenAIRequestBody = OpenAIRequestBody(
    model: string,
    messages: seq<OpenAIMessage>,
    temperature: real,
    maxCompletionTokens: int,
    topP: real,
    frequencyPenalty: real,
    presencePenalty: real,
    stream: bool,
    responseFormat: map<string, string>)

  /**
   * `OpenAIRequestBody.init`: each argument lands in the field of the same
   * name, and `responseFormat` keeps its declared default whatever the arguments.
   */
  function NewRequestBody(model: string, messages: seq<OpenAIMessage>, temperature: real,
                          maxCompletionTokens: int, topP: real, frequencyPenalty: real,
                          presencePenalty: real, stream: bool): (b: OpenAIRequestBody)
    ensures b.model == model && b.messages == messages && b.temperature == temperature
    ensures b.maxCompletionTokens == maxCompletionTokens && b.topP == topP
    ensures b.frequencyPenalty == frequencyPenalty && b.presencePenalty == presencePenalty
    ensures b.stream == stream
    ensures b.responseFormat == TextResponseFormat
  {
    OpenAIRequestBody(model, messages, temperature, maxCompletionTokens, topP,
                      frequencyPenalty, presencePenalty, stream, TextResponseFormat)
  }

  // ---------------------------------------------------------------------------
  // Wire keys: the encoder's `.convertToSnakeCase` key strategy
  // ---------------------------------------------------------------------------

  /** The stored properties of `OpenAIRequestBody`, in declaration order. */
  datatype Field =
    | Model | Messages | Temperature | MaxCompletionTokens | TopP
    | FrequencyPenalty | PresencePenalty | Stream | ResponseFormat

  /** The Swift property name of a field (lower camel case). */
  function PropertyName(f: Field): string
  {
    match f
    case Model => "model"
    case Messages => "messages"
    case Temperature => "temperature"
    case MaxCompletionTokens => "maxCompletionTokens"
    case TopP => "topP"
    case FrequencyPenalty => "frequencyPenalty"
    case PresencePenalty => "presencePenalty"
    case Stream => "stream"
    case ResponseFormat => "responseFormat"
  }

  /** The JSON key a field is written under. */
  function WireKey(f: Field): string
  {
    match f
    case Model => "model"
    case Messages => "messages"
    case Temperature => "temperature"
    case MaxCompletionTokens => "max_completion_tokens"
    case TopP => "top_p"
    case FrequencyPenalty => "frequency_penalty"
    case PresencePenalty => "presence_penalty"
    case Stream => "stream"
    case ResponseFormat => "response_format"
  }

  /** Every key of an encoded request body. */
  const WireKeys: set<string> :=
    {"model", "messages", "temperature", "max_completion_tokens", "top_p",
     "frequency_penalty", "presence_penalty", "stream", "response_format"}

  predicate IsUpper(c: char) { 'A' <= c <= 'Z' }
  predicate IsLower(c: char) { 'a' <= c <= 'z' }

  function ToLower(c: char): (d: char)
    ensures !IsUpper(d)
  {
    if IsUpper(c) then (c as int - 'A' as int + 'a' as int) as char else c
  }

  function ToUpper(c: char): (d: char)
  {
    if IsLower(c) then (c as int - 'a' as int + 'A' as int) as char else c
  }

  /** The tail of a key after its first character: each capital becomes `_` and its lower-case form. */
  function SnakeTail(s: string): (t: string)
  {
    if s == [] then []
    else (if IsUpper(s[0]) then ['_', ToLower(s[0])] else [s[0]]) + SnakeTail(s[1..])
  }

  /**
   * `.convertToSnakeCase` for keys in which no two capitals are adjacent: a
   * word boundary before every capital after the first character, every word
   * lower-cased, joined with `_`.
   */
  function SnakeCase(s: string): (t: string)
  {
    if s == [] then [] else [ToLower(s[0])] + SnakeTail(s[1..])
  }

  /** The reverse of `SnakeTail`: `_` followed by a lower-case letter becomes that letter's capital. */
  function CamelTail(t: string): string
  {
    if t == [] then []
    else if |t| >= 2 && t[0] == '_' && IsLower(t[1]) then [ToUpper(t[1])] + CamelTail(t[2..])
    else [t[0]] + CamelTail(t[1..])
  }

  /** Inverse of `SnakeCase` on lower-camel names that contain no underscore. */
  function CamelCase(t: string): string
  {
    if t == [] then [] else [t[0]] + CamelTail(t[1..])
  }

  /**
   * A Swift property name on which `SnakeCase` agrees with Foundation's
   * `.convertToSnakeCase`: ASCII letters only, a lower-case first letter, and
   * no two capitals next to each other.
   */
  predicate IsLowerCamel(s: string)
  {
    && (s != [] ==> IsLower(s[0]))
    && (forall i :: 0 <= i < |s| ==> IsLower(s[i]) || IsUpper(s[i]))
    && (forall i :: 0 < i < |s| ==> !(IsUpper(s[i - 1]) && IsUpper(s[i])))
  }

  lemma {:induction false} SnakeTailRoundTrip(s: string)
    requires forall i :: 0 <= i < |s| ==> s[i] != '_'
    ensures CamelTail(SnakeTail(s)) == s
  {
    if s != [] {
      SnakeTailRoundTrip(s[1..]);
      if IsUpper(s[0]) {
        var t := ['_', ToLower(s[0])] + SnakeTail(s[1..]);
        assert t[2..] == SnakeTail(s[1..]);
        assert ToUpper(ToLower(s[0])) == s[0];
      } else {
        var t := [s[0]] + SnakeTail(s[1..]);
        assert t[1..] == SnakeTail(s[1..]);
      }
    }
  }

  /** Snake-casing loses nothing on Swift property names: `CamelCase` recovers the name. */
  lemma SnakeCaseRoundTrip(s: string)
    requires IsLowerCamel(s)
    ensures CamelCase(SnakeCase(s)) == s
  {
    if s != [] {
      SnakeTailRoundTrip(s[1..]);
      assert (SnakeCase(s))[1..] == SnakeTail(s[1..]);
    }
  }

  /** Two different property names never share a wire key. */
  lemma SnakeCaseInjective(s: string, s': string)
    requires IsLowerCamel(s) && IsLowerCamel(s')
    requires SnakeCase(s) == SnakeCase(s')
    ensures s == s'
  {
    SnakeCaseRoundTrip(s);
    SnakeCaseRoundTrip(s');
  }

  lemma {:induction false} SnakeTailAppend(a: string, b: string)
    ensures SnakeTail(a + b) == SnakeTail(a) + SnakeTail(b)
  {
    if a == [] {
      assert a + b == b;
    } else {
      var head := if IsUpper(a[0]) then ['_', ToLower(a[0])] else [a[0]];
      assert (a + b)[0] == a[0];
      assert (a + b)[1..] == a[1..] + b;
      SnakeTailAppend(a[1..], b);
      assert SnakeTail(a + b) == head + (SnakeTail(a[1..]) + SnakeTail(b));
    }
  }

  lemma {:induction false} SnakeTailLower(s: string)
    requires forall i :: 0 <= i < |s| ==> IsLower(s[i])
    ensures SnakeTail(s) == s
  {
    if s != [] {
      SnakeTailLower(s[1..]);
    }
  }

  /** Snake-casing a name without capitals leaves it unchanged. */
  lemma SnakeCaseLower(s: string)
    requires forall i :: 0 <= i < |s| ==> IsLower(s[i])
    ensures SnakeCase(s) == s
  {
    if s != [] {
      SnakeTailLower(s[1..]);
      assert [ToLower(s[0])] + s[1..] == s;
    }
  }

  /** Appending a capitalised word adds a `_` and the word in lower case. */
  lemma SnakeCaseAppendWord(s: string, c: char, w: string)
    requires s != [] && IsUpper(c) && forall i :: 0 <= i < |w| ==> IsLower(w[i])
    ensures SnakeCase(s + [c] + w) == SnakeCase(s) + ['_', ToLower(c)] + w
  {
    assert (s + [c] + w)[0] == s[0];
    assert (s + [c] + w)[1..] == s[1..] + ([c] + w);
    SnakeTailAppend(s[1..], [c] + w);
    assert ([c] + w)[1..] == w;
    SnakeTailLower(w);
  }

  /** Snake-casing a lower-case word followed by one capitalised word. */
  lemma SnakeCaseTwoWords(w0: string, c: char, w1: string)
    requires w0 != [] && forall i :: 0 <= i < |w0| ==> IsLower(w0[i])
    requires IsUpper(c) && forall i :: 0 <= i < |w1| ==> IsLower(w1[i])
    ensures SnakeCase(w0 + [c] + w1) == w0 + ['_', ToLower(c)] + w1
  {
    SnakeCaseLower(w0);
    SnakeCaseAppendWord(w0, c, w1);
  }

  /** `maxCompletionTokens`, the one three-word property, becomes `max_completion_tokens`. */
  lemma MaxCompletionTokensKey(name: string, prefix: string)
    requires prefix == "maxCompletion" && name == prefix + ['T'] + "okens"
    ensures SnakeCase(name) == "max_completion_tokens"
  {
    SnakeCaseTwoWords("max", 'C', "ompletion");
    assert "max" + ['C'] + "ompletion" == prefix;
    SnakeCaseAppendWord(prefix, 'T', "okens");
  }

  lemma TopPKey(name: string)
    requires name == "topP"
    ensures SnakeCase(name) == "top_p"
  {
    SnakeCaseTwoWords("top", 'P', "");
    assert "top" + ['P'] + "" == name;
  }

  lemma FrequencyPenaltyKey(name: string)
    requires name == "frequencyPenalty"
    ensures SnakeCase(name) == "frequency_penalty"
  {
    SnakeCaseTwoWords("frequency", 'P', "enalty");
    assert "frequency" + ['P'] + "enalty" == name;
  }

  lemma PresencePenaltyKey(name: string)
    requires name == "presencePenalty"
    ensures SnakeCase(name) == "presence_penalty"
  {
    SnakeCaseTwoWords("presence", 'P', "enalty");
    assert "presence" + ['P'] + "enalty" == name;
  }

  lemma ResponseFormatKey(name: string)
    requires name == "responseFormat"
    ensures SnakeCase(name) == "response_format"
  {
    SnakeCaseTwoWords("response", 'F', "ormat");
    assert "response" + ['F'] + "ormat" == name;
  }

  /** Each field's wire key is the snake_case form of its property name. */
  lemma WireKeyIsSnakeCase(f: Field)
    ensures WireKey(f) == SnakeCase(PropertyName(f))
  {
    match f
    case MaxCompletionTokens => MaxCompletionTokensKey(PropertyName(f), "maxCompletion");
    case TopP => TopPKey(PropertyName(f));
    case FrequencyPenalty => FrequencyPenaltyKey(PropertyName(f));
    case PresencePenalty => PresencePenaltyKey(PropertyName(f));
    case ResponseFormat => ResponseFormatKey(PropertyName(f));
    case _ => SnakeCaseLower(PropertyName(f));
  }

  /** The wire keys are exactly `WireKeys`, one per field, none shared. */
  lemma WireKeysDistinct(f: Field, g: Field)
    ensures WireKey(f) in WireKeys
    ensures WireKey(f) == WireKey(g) <==> f == g
  {
  }

  // ---------------------------------------------------------------------------
  // The encoded body, as a JSON value
  // ---------------------------------------------------------------------------

  /** A JSON value. */
  datatype Json =
    | JNull
    | JBool(b: bool)
    | JNumber(n: real)
    | JString(s: string)
    | JArray(items: seq<Json>)
    | JObject(members: map<string, Json>)

  /** A message as the encoder writes it (its keys have no capitals, so they are unchanged). */
  function EncodeMessage(m: OpenAIMessage): Json
  {
    JObject(map["role" := JString(m.role), "content" := JString(m.content)])
  }

  function EncodeMessages(ms: seq<OpenAIMessage>): (j: Json)
    ensures j.JArray? && |j.items| == |ms|
    ensures forall i :: 0 <= i < |ms| ==> j.items[i] == EncodeMessage(ms[i])
  {
    JArray(seq(|ms|, i requires 0 <= i < |ms| => EncodeMessage(ms[i])))
  }

  function EncodeStringMap(m: map<string, string>): Json
  {
    JObject(map k | k in m :: JString(m[k]))
  }

  /** The JSON value of the stored property a field names. */
  function FieldValue(b: OpenAIRequestBody, f: Field): Json
  {
    match f
    case Model => JString(b.model)
    case Messages => EncodeMessages(b.messages)
    case Temperature => JNumber(b.temperature)
    case MaxCompletionTokens => JNumber(b.maxCompletionTokens as real)
    case TopP => JNumber(b.topP)
    case FrequencyPenalty => JNumber(b.frequencyPenalty)
    case PresencePenalty => JNumber(b.presencePenalty)
    case Stream => JBool(b.stream)
    case ResponseFormat => EncodeStringMap(b.responseFormat)
  }

  /** The JSON object the encoder produces for a request body, keyed by the wire keys. */
  function EncodeBody(b: OpenAIRequestBody): (j: Json)
    ensures j.JObject? && j.members.Keys == WireKeys
    ensures forall f: Field :: j.members[WireKey(f)] == FieldValue(b, f)
  {
    JObject(map[
      "model" := JString(b.model),
      "messages" := EncodeMessages(b.messages),
      "temperature" := JNumber(b.temperature),
      "max_completion_tokens" := JNumber(b.maxCompletionTokens as real),
      "top_p" := JNumber(b.topP),
      "frequency_penalty" := JNumber(b.frequencyPenalty),
      "presence_penalty" := JNumber(b.presencePenalty),
      "stream" := JBool(b.stream),
      "response_format" := EncodeStringMap(b.responseFormat)])
  }

  /** Encoding is lossless: two bodies with the same wire form are the same body. */
  lemma EncodeBodyInjective(b: OpenAIRequestBody, b': OpenAIRequestBody)
    requires EncodeBody(b) == EncodeBody(b')
    ensures b == b'
  {
    var j, j' := EncodeBody(b).members, EncodeBody(b').members;
    assert j["model"] == j'["model"];
    assert j["max_completion_tokens"] == j'["max_completion_tokens"];
    var ms, ms' := EncodeMessages(b.messages), EncodeMessages(b'.messages);
    assert j["messages"] == ms && j'["messages"] == ms';
    assert |b.messages| == |b'.messages|;
    forall i | 0 <= i < |b.messages| ensures b.messages[i] == b'.messages[i] {
      assert ms.items[i] == ms'.items[i];
      assert EncodeMessage(b.messages[i]).members["role"] == EncodeMessage(b'.messages[i]).members["role"];
      assert EncodeMessage(b.messages[i]).members["content"] == EncodeMessage(b'.messages[i]).members["content"];
    }
    var rf, rf' := EncodeStringMap(b.responseFormat), EncodeStringMap(b'.responseFormat);
    assert j["response_format"] == rf && j'["response_format"] == rf';
    assert b.responseFormat.Keys == rf.members.Keys == b'.responseFormat.Keys;
    forall k | k in b.responseFormat ensures b.responseFormat[k] == b'.responseFormat[k] {
      assert rf.members[k] == rf'.members[k];
    }
  }

  // ---------------------------------------------------------------------------
  // Response shapes
  // ---------------------------------------------------------------------------

  /** `Message`: role and content are both always present. */
  datatype Message = Message(role: string, content: string)

  /** `Choice`: every non-streamed choice carries an index and a message. */
  datatype Choice = Choice(index: int, message: Message)

  /** `ChatResponse`, the body of a non-streamed reply. */
  datatype ChatResponse = ChatResponse(choices: seq<Choice>, model: string)

  /** `StreamDelta`: the content of a frame may be absent. */
  datatype StreamDelta = StreamDelta(content: Option<string>)

  /** `StreamChoice`: the delta of a frame may be absent. */
  datatype StreamChoice = StreamChoice(delta: Option<StreamDelta>)

  /** `StreamChatResponse`, one decoded frame of a streamed reply. */
  datatype StreamChatResponse = StreamChatResponse(choices: seq<StreamChoice>)
}
