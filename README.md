# quickgpt chat pipeline, modelled in Dafny

quickgpt is a command-line client that sends one prompt to the OpenAI
chat-completion endpoint and prints the reply, either whole or as it streams
in. This project models the path of one `chat` invocation:

- **Argument checks** (`Quickgpt.Chat.run` in `Sources/cli.swift`). The input
  must be non-empty. The API key and the model are resolved, with an explicit
  option taking precedence over the stored default. Five numeric options are
  range-checked in a fixed order. The service is called only when every guard
  passes.
- **Request construction** (`OpenAIService.getAIMessage`,
  `OpenAIRequestBody`, `OpenAIMessage`). The request is a POST with a JSON
  content type and a bearer credential (RFC 6750, section 2.1). Its body holds
  exactly one user message, the sampling options and the fixed
  `response_format`. Keys are written in snake_case.
- **Reply handling**. A streamed reply is consumed line by line: an empty line
  ends it, the first six characters of every other line are dropped, and the
  rest is decoded as a frame. A frame that fails to decode throws `noContent`.
  A frame without a first choice, delta or content ends the stream. Otherwise
  the frame's text is printed. A complete reply yields the first choice's
  content, or `noContent`.

Files and modules:

- `wrappers.dfy`, module `Wrappers`: `Option` and `Result`.
- `models.dfy`, module `Models`: `Sources/Services/OpenAI/OpenAIModels.swift`.
  Also the wire form of the request body: the snake_case key mapping and the
  body as a JSON value.
- `service.dfy`, module `Service`: `Sources/Services/OpenAI/OpenAIService.swift`.
  The stream loop appears twice: a recursive specification (`RunFrom`,
  `RunStream`) and the imperative loop (`ConsumeStream`), which is proved equal
  to it.
- `cli.dfy`, module `Cli`: the `chat` command of `Sources/cli.swift`. The guard
  chain is the function `Validate`. `Run` composes `Validate` with the service.

Outside inputs are parameters:

- The keychain entry and the user-defaults entry are `Option<string>` inputs to
  `Validate` and `Run`.
- The remote service is a `Server`. It maps the request it receives to the
  lines of a streamed reply or to the body of a complete reply.
- JSON decoding is a pair of partial functions in `Server`. `None` stands for a
  decoding failure.

Notes on the code's own behaviour:

- A decoded frame whose first choice, delta or content is missing ends the
  whole stream normally (`OpenAIService.swift:72` is a `return`); later frames
  are not read.
- The token-limit check accepts 1 to 16383 (`cli.swift:66`), although its
  diagnostic says "between and including 0 and 16383"; diagnostics are not
  modelled.
- A non-empty line shorter than six characters makes the index offset at
  `OpenAIService.swift:63` trap. The model records this as the stop reason
  `PrefixTooShort` and the outcome `Trapped`.
- A complete reply is printed with `print("\n\(messageContent)\n")`, and
  `print` adds its default terminator, so the text written is a newline, the
  content and two newlines. A streamed fragment is printed with an empty
  terminator, so the fragments are written back to back.

## Model

| member | source | states |
|---|---|---|
| Models.RawValue | Sources/Services/OpenAI/OpenAIModels.swift:11-15 | a role's raw value maps back to the same role through `Role(rawValue:)`, and is non-empty |
| Models.RawValueOnly | Sources/Services/OpenAI/OpenAIModels.swift:11-15 | the only raw values are "developer", "user" and "assistant", each naming exactly its own case |
| Models.NewMessage | Sources/Services/OpenAI/OpenAIModels.swift:20-24 | the stored role string decodes to the role given (`user` when none is given); the content is kept unchanged |
| Models.NewRequestBody | Sources/Services/OpenAI/OpenAIModels.swift:36-54 | each of the eight arguments lands in the field of the same name; `responseFormat` is `{"type": "text"}` whatever the arguments |
| Models.WireKeyIsSnakeCase | Sources/Services/OpenAI/OpenAIModels.swift:27-36 | every field's wire key is the snake_case form of its Swift property name (`maxCompletionTokens` becomes `max_completion_tokens`, `model` stays `model`) |
| Models.WireKeysDistinct | Sources/Services/OpenAI/OpenAIModels.swift:27-36 | the nine wire keys are pairwise distinct and are exactly the documented key set |
| Models.SnakeCaseRoundTrip | Sources/Services/OpenAI/OpenAIService.swift:47-48 | snake-casing a lower-camel property name (ASCII letters, no two adjacent capitals) loses nothing: converting back yields the name |
| Models.SnakeCaseInjective | Sources/Services/OpenAI/OpenAIService.swift:47-48 | two different property names never collide on one wire key |
| Models.EncodeBody | Sources/Services/OpenAI/OpenAIService.swift:47-52 | the encoded body is a JSON object whose keys are exactly the nine snake_case wire keys, and under each field's wire key lies the JSON value of that same field (`FieldValue`): `top_p` carries `topP`, `max_completion_tokens` the token limit as a number, and so on for all nine |
| Models.EncodeBodyInjective | Sources/Services/OpenAI/OpenAIService.swift:47-52 | encoding is lossless: bodies with the same wire form are equal, field for field and message for message |
| Service.URLRequest.SetValue | Sources/Services/OpenAI/OpenAIService.swift:34-35 | setting a header adds or replaces that one header; every other header, the URL, the method and the body are unchanged |
| Service.RequestBodyFor | Sources/Services/OpenAI/OpenAIService.swift:37-46 | the body holds exactly one message, with role `user` and the input as its content; model, sampling options and stream flag pass through unchanged; the response format is fixed |
| Service.Bearer | Sources/Services/OpenAI/OpenAIService.swift:35 | the Authorization value is the literal `Bearer ` followed by the key, and the key is recoverable from it |
| Service.BuildRequest | Sources/Services/OpenAI/OpenAIService.swift:30-54 | the request is a POST to the chat-completion endpoint; its only headers are `Content-Type: application/json` and the bearer credential; its body is the encoded request body of the call |
| Service.FirstDeltaContent | Sources/Services/OpenAI/OpenAIService.swift:71-72 | a frame yields text exactly when it has a first choice with a delta that has content, and the text is that content |
| Service.Payload | Sources/Services/OpenAI/OpenAIService.swift:63 | the payload is six characters shorter than the line |
| Service.PayloadAfterAnyPrefix | Sources/Services/OpenAI/OpenAIService.swift:63 | whatever six characters lead the line, the payload is everything after them |
| Service.StepCases | Sources/Services/OpenAI/OpenAIService.swift:61-72 | a line stops the stream exactly when it is empty, is too short for the prefix, fails to decode, or lacks first choice, delta or content; otherwise it emits that content |
| Service.RunFrom | Sources/Services/OpenAI/OpenAIService.swift:60-75 | the loop never reads past the last line delivered |
| Service.RunStreamShape | Sources/Services/OpenAI/OpenAIService.swift:60-75 | every line read before the last one emitted its fragment, in arrival order; the last line read is the one that stopped the loop, unless the lines ran out, in which case every line emitted |
| Service.RunStreamIgnoresLaterLines | Sources/Services/OpenAI/OpenAIService.swift:61-72 | once the loop stops on an empty line, a line too short for the prefix, a failed decode or a missing content, the outcome is the same whatever lines follow |
| Service.RunStreamAppend | Sources/Services/OpenAI/OpenAIService.swift:60-75 | a stream read in two parts, the first emitting on every line, yields the first part's fragments followed by the second part's, and ends as the second part ends |
| Service.ConcatAppend | Sources/Services/OpenAI/OpenAIService.swift:74 | the printed text of consecutive fragment sequences is their texts joined with no separator |
| Service.StreamEnd | Sources/Services/OpenAI/OpenAIService.swift:60-72 | the call throws `noContent` exactly when a payload failed to decode, traps exactly when a line was too short, and returns normally exactly when the loop met an empty line or a frame without content, or ran out of lines |
| Service.ConsumeStream | Sources/Services/OpenAI/OpenAIService.swift:56-76 | the imperative loop prints the concatenation of the fragments of the stream specification, and stops where it stops, after the same number of lines |
| Service.StreamExample | Sources/Services/OpenAI/OpenAIService.swift:60-75 | two frames with "Hi" and " there" followed by an empty line emit exactly those two fragments in order, read three lines, and never read the line after the empty one |
| Service.ExtractMessage | Sources/Services/OpenAI/OpenAIService.swift:81-90 | a complete reply yields text exactly when it decodes and has a choice; the text is the first choice's message content; every failure is `noContent` |
| Service.CompleteReplyText | Sources/Services/OpenAI/OpenAIService.swift:90 | the text printed for a complete reply is a newline, then the content unchanged, then two newlines (the literal's and `print`'s terminator) |
| Service.CompleteReplyExample | Sources/Services/OpenAI/OpenAIService.swift:81-91 | a reply whose single choice says "Hi!" prints "\nHi!\n\n" and returns normally |
| Service.GetAIMessage | Sources/Services/OpenAI/OpenAIService.swift:19-93 | one call sends the POST request built from its arguments; a streamed reply then goes through the stream loop, and a complete reply through first-choice extraction |
| Cli.CheckOrderCoversAll | Sources/cli.swift:62-81 | each of the five numeric options is checked, and none is checked twice |
| Cli.DefaultOptions | Sources/cli.swift:32-47 | the defaults (temperature 1, 2048 tokens, top-p 1, penalties 0, stream on) all lie within their ranges |
| Cli.FirstOutOfRange | Sources/cli.swift:62-81 | no option is reported exactly when all options are in range; a reported option is one of those checked and is out of range |
| Cli.FirstOutOfRangeIsFirst | Sources/cli.swift:62-81 | every option checked before the reported one is in range |
| Cli.FirstOutOfRangeInCheckOrder | Sources/cli.swift:62-81 | the options are checked in the order temperature, max completion tokens, top-p, frequency penalty, presence penalty |
| Cli.Validate | Sources/cli.swift:49-94 | an empty input is rejected before anything else is consulted; a missing key and a missing model are reported next; then the first out-of-range option, ranges inclusive; the service call happens exactly when every guard passes; it receives the input, the explicit-or-stored key and model, and the options unchanged |
| Cli.DefaultsPassValidation | Sources/cli.swift:32-81 | with default options, a non-empty input and a resolvable key and model always reach the service |
| Cli.Run | Sources/cli.swift:49-98 | nothing is sent when a guard fails, and that guard's error is the result; otherwise exactly one request is sent: a POST carrying the resolved key and the encoded body, whose reply is handled as `getAIMessage` handles it |
| Cli.ChatExample | Sources/cli.swift:49-94 | `chat "Hello" --model gpt-4o --stream false` with a stored key and no stored model reaches the service with the input, the stored key, gpt-4o and the default sampling options |

## Left out

- `Sources/Services/Keychain/KeychainService.swift` is not part of this model. It wraps platform keychain calls; the stored key is only an `Option<string>` input.
- The `set-model`, `set-api-key` and `delete-api-key` commands (`cli.swift:101-146`) are not modelled. They are store writes plus printing.
- Networking (`URLSession.bytes(for:)`, `data(for:)`), async line iteration and cancellation are not modelled. The reply is a finite sequence of lines, or a body string, given by the `Server` parameter. Transport errors thrown by `URLSession` are not modelled.
- How the transport splits bytes into lines is not modelled. That includes whether empty lines reach the loop at all. The loop sees the lines exactly as `Server` delivers them.
- JSON decoding is not modelled. The decoders are parameters. The request body is modelled as a JSON value, not as bytes; key order and number formatting are not modelled.
- The `invalidURL` guard (`OpenAIService.swift:30`) is not modelled as a branch. The endpoint is a literal URL that always parses.
- The `invalidBody` guard (`OpenAIService.swift:49-52`) is not modelled as a branch. The encoder fails only on non-finite doubles, and `real` has none.
- Swift `Double` is modelled as `real`. A NaN option, which every range guard rejects because comparisons with NaN are false, cannot be expressed.
- Swift `Int` is modelled as unbounded `int`. Validation bounds the only integer option to 1..16383, so width never matters after it.
- The diagnostics printed before a guard returns or an error is thrown (`cli.swift:51-79`, `OpenAIService.swift:50, 67, 84`, and `cli.swift:96`) are not modelled. `Invocation.printed` holds what the reply handling writes: the streamed fragments, or the complete reply with its newlines.
- `Models.SnakeCase`: models `.convertToSnakeCase` only on names made of ASCII letters, starting lower-case, with no two capitals adjacent (`IsLowerCamel`). Every property of the request body is such a name, and `SnakeCaseRoundTrip` and `SnakeCaseInjective` are stated for such names only. Foundation splits words differently around runs of capitals (`myURL`) and digits (`aB1c` becomes `a_b_1c`), which is not modelled.
- `Service.Payload`: a `char` is a Unicode scalar value, while Swift's `index(_:offsetBy: 6)` counts grapheme clusters. The model drops six scalars. It agrees with Swift whenever each of the line's first six Characters is a single scalar, as in `data: `. Otherwise it does not: three flag emoji are three Characters, on which Swift traps, but six scalars, which the model decodes as an empty payload.
- `Service.PayloadAfterAnyPrefix`: "any six characters" means six Unicode scalars; it matches Swift only for prefixes of six single-scalar Characters.
- `Service.StepCases`: the too-short case counts Unicode scalars, so it matches Swift's trap only when the line's leading Characters are single scalars.
- `Service.URLRequest.SetValue`: header names are matched exactly. Foundation matches them case-insensitively, which makes no difference for the two distinct headers set here.
- `OpenAIError.noAPIKey` is declared but never thrown in the source, so no member produces it.
