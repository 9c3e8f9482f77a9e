/**
 * The `chat` command (Sources/cli.swift, `Quickgpt.Chat`): its option
 * defaults, the chain of guards `run()` passes before it calls the service,
 * and the call itself.
 *
 * The two stores are inputs: `storedKey` is what the keychain holds under the
 * default API key entry, `storedModel` what the user defaults hold under the
 * default model entry (`None` when nothing is stored).
 */
module Cli {
  import opened Wrappers
  import Service
  import Models

  /** The parsed arguments and options of `chat`. */
  datatype ChatOptions = ChatOptions(
    input: string,
    key: Option<string>,
    model: Option<string>,
    temperature: real,
    maxCompletionTokens: int,
    topP: real,
    frequencyPenalty: real,
    presencePenalty: real,
    stream: bool)

  /** The numeric options `run()` checks, named as on the command line. */
  datatype Param = Temperature | MaxCompletionTokens | TopP | FrequencyPenalty | PresencePenalty

  /** The order in which the numeric options are checked. */
  const CheckOrder: seq<Param> := [Temperature, MaxCompletionTokens, TopP, FrequencyPenalty, PresencePenalty]

  /** The smallest accepted value of each option, as its help text documents it. */
  function Minimum(p: Param): real
  {
    match p
    case MaxCompletionTokens => 1.0
    case _ => 0.0
  }

  /** The largest accepted value of each option, as its help text documents it. */
  function Maximum(p: Param): real
  {
    match p
    case Temperature => 1.0
    case MaxCompletionTokens => 16383.0
    case TopP => 1.0
    case _ => 2.0
  }

  function Value(o: ChatOptions, p: Param): real
  {
    match p
    case Temperature => o.temperature
    case MaxCompletionTokens => o.maxCompletionTokens as real
    case TopP => o.topP
    case FrequencyPenalty => o.frequencyPenalty
    case PresencePenalty => o.presencePenalty
  }

  /** The option lies in its documented range, both ends included. */
  predicate InRange(o: ChatOptions, p: Param)
  {
    Minimum(p) <= Value(o, p) <= Maximum(p)
  }

  /** Every numeric option is checked exactly once. */
  lemma CheckOrderCoversAll(p: Param)
    ensures p in CheckOrder
    ensures forall i, j :: 0 <= i < j < |CheckOrder| ==> CheckOrder[i] != CheckOrder[j]
  {
  }

  /**
   * The options `chat` starts from when only the input (and possibly the key
   * and the model) is given; every default lies in its range.
   */
  function DefaultOptions(input: string, key: Option<string> := None, model: Option<string> := None)
    : (o: ChatOptions)
    ensures o.input == input && o.key == key && o.model == model && o.stream
    ensures forall p :: InRange(o, p)
  {
    ChatOptions(input, key, model, 1.0, 2048, 1.0, 0.0, 0.0, true)
  }

  /** Why `run()` returned without calling the service. */
  datatype ChatError = EmptyInput | NoApiKey | NoModel | OutOfRange(param: Param)

  /** The first of `params` whose option is out of range. */
  function FirstOutOfRange(o: ChatOptions, params: seq<Param>): (r: Option<Param>)
    ensures r.None? <==> forall p :: p in params ==> InRange(o, p)
    ensures r.Some? ==> r.value in params && !InRange(o, r.value)
  {
    if params == [] then None
    else if !InRange(o, params[0]) then Some(params[0])
    else FirstOutOfRange(o, params[1..])
  }

  /** The option reported is preceded in `params` only by options that are in range. */
  lemma {:induction false} FirstOutOfRangeIsFirst(o: ChatOptions, params: seq<Param>)
    requires FirstOutOfRange(o, params).Some?
    ensures exists k :: 0 <= k < |params| && params[k] == FirstOutOfRange(o, params).value
                        && forall j :: 0 <= j < k ==> InRange(o, params[j])
  {
    if InRange(o, params[0]) {
      var tail := params[1..];
      FirstOutOfRangeIsFirst(o, tail);
      var k :| 0 <= k < |tail| && tail[k] == FirstOutOfRange(o, tail).value
               && forall j :: 0 <= j < k ==> InRange(o, tail[j]);
      assert params[k + 1] == tail[k];
      forall j | 0 <= j < k + 1 ensures InRange(o, params[j]) {
        if j > 0 {
          assert params[j] == tail[j - 1];
        }
      }
    } else {
      assert params[0] == FirstOutOfRange(o, params).value;
    }
  }

  /** Checking in `CheckOrder` reports temperature first, then the token limit, top-p and the two penalties. */
  lemma FirstOutOfRangeInCheckOrder(o: ChatOptions)
    ensures FirstOutOfRange(o, CheckOrder)
         == if !InRange(o, Temperature) then Some(Temperature)
            else if !InRange(o, MaxCompletionTokens) then Some(MaxCompletionTokens)
            else if !InRange(o, TopP) then Some(TopP)
            else if !InRange(o, FrequencyPenalty) then Some(FrequencyPenalty)
            else if !InRange(o, PresencePenalty) then Some(PresencePenalty)
            else None
  {
    var s4 := [PresencePenalty];
    var s3 := [FrequencyPenalty] + s4;
    var s2 := [TopP] + s3;
    var s1 := [MaxCompletionTokens] + s2;
    var s0 := [Temperature] + s1;
    assert s0 == CheckOrder;
    assert s4[1..] == [] && s3[1..] == s4 && s2[1..] == s3 && s1[1..] == s2 && s0[1..] == s1;
    assert FirstOutOfRange(o, s4) == if !InRange(o, PresencePenalty) then Some(PresencePenalty) else None;
    assert FirstOutOfRange(o, s3)
        == if !InRange(o, FrequencyPenalty) then Some(FrequencyPenalty) else FirstOutOfRange(o, s4);
    assert FirstOutOfRange(o, s2) == if !InRange(o, TopP) then Some(TopP) else FirstOutOfRange(o, s3);
    assert FirstOutOfRange(o, s1)
        == if !InRange(o, MaxCompletionTokens) then Some(MaxCompletionTokens) else FirstOutOfRange(o, s2);
  }

  /** `key ?? stored`: an explicit option wins over the stored default. */
  function Coalesce(explicit: Option<string>, stored: Option<string>): Option<string>
  {
    if explicit.Some? then explicit else stored
  }

  /**
   * The guards of `run()`, in source order: the input must be non-empty, an
   * API key and a model must be found, and the five numeric options must lie
   * in their ranges. The first guard that fails is the only error reported;
   * when all pass, the result is the call handed to the service.
   */
  function Validate(o: ChatOptions, storedKey: Option<string>, storedModel: Option<string>)
    : (r: Result<Service.ServiceCall, ChatError>)
    ensures r == Failure(EmptyInput) <==> o.input == []
    ensures r == Failure(NoApiKey) <==> o.input != [] && o.key.None? && storedKey.None?
    ensures r == Failure(NoModel) <==> o.input != [] && (o.key.Some? || storedKey.Some?)
                                       && o.model.None? && storedModel.None?
    ensures r.Failure? && r.error.OutOfRange? <==>
              o.input != [] && (o.key.Some? || storedKey.Some?) && (o.model.Some? || storedModel.Some?)
              && FirstOutOfRange(o, CheckOrder).Some?
    ensures r.Failure? && r.error.OutOfRange? ==> Some(r.error.param) == FirstOutOfRange(o, CheckOrder)
    ensures r.Success? <==>
              o.input != [] && (o.key.Some? || storedKey.Some?) && (o.model.Some? || storedModel.Some?)
              && forall p :: InRange(o, p)
    ensures r.Success? ==>
              && r.value.content == o.input
              && r.value.apiKey == (if o.key.Some? then o.key.value else storedKey.value)
              && r.value.model == (if o.model.Some? then o.model.value else storedModel.value)
              && r.value.temperature == o.temperature
              && r.value.maxCompletionTokens == o.maxCompletionTokens
              && r.value.topP == o.topP
              && r.value.frequencyPenalty == o.frequencyPenalty
              && r.value.presencePenalty == o.presencePenalty
              && r.value.stream == o.stream
  {
    FirstOutOfRangeInCheckOrder(o);
    if o.input == [] then Failure(EmptyInput)
    else
      var keyToUse := Coalesce(o.key, storedKey);
      if keyToUse.None? then Failure(NoApiKey)
      else
        var modelToUse := Coalesce(o.model, storedModel);
        if modelToUse.None? then Failure(NoModel)
        else if !(o.temperature >= 0.0 && o.temperature <= 1.0) then Failure(OutOfRange(Temperature))
        else if !(o.maxCompletionTokens >= 1 && o.maxCompletionTokens <= 16383) then Failure(OutOfRange(MaxCompletionTokens))
        else if !(o.topP >= 0.0 && o.topP <= 1.0) then Failure(OutOfRange(TopP))
        else if !(o.frequencyPenalty >= 0.0 && o.frequencyPenalty <= 2.0) then Failure(OutOfRange(FrequencyPenalty))
        else if !(o.presencePenalty >= 0.0 && o.presencePenalty <= 2.0) then Failure(OutOfRange(PresencePenalty))
        else
          Success(Service.ServiceCall(o.input, keyToUse.value, modelToUse.value, o.temperature,
                                      o.maxCompletionTokens, o.topP, o.frequencyPenalty,
                                      o.presencePenalty, o.stream))
  }

  /** With the default options, a non-empty input and a known key and model always reach the service. */
  lemma DefaultsPassValidation(input: string, key: Option<string>, model: Option<string>,
                               storedKey: Option<string>, storedModel: Option<string>)
    requires input != [] && (key.Some? || storedKey.Some?) && (model.Some? || storedModel.Some?)
    ensures Validate(DefaultOptions(input, key, model), storedKey, storedModel).Success?
  {
  }

  /**
   * `run()`: when every guard passes, the service is called once with the
   * validated call, and any error it throws is reported and swallowed; when a
   * guard fails, nothing is sent.
   */
  method Run(o: ChatOptions, storedKey: Option<string>, storedModel: Option<string>, server: Service.Server)
    returns (r: Result<Service.Invocation, ChatError>)
    ensures r.Failure? <==> Validate(o, storedKey, storedModel).Failure?
    ensures r.Failure? ==> r.error == Validate(o, storedKey, storedModel).error
    ensures r.Success? ==>
              var call := Validate(o, storedKey, storedModel).value;
              && r.value.request.url == Service.Endpoint
              && r.value.request.httpMethod == "POST"
              && r.value.request.headers == map["Content-Type" := "application/json",
                                                "Authorization" := Service.Bearer(call.apiKey)]
              && r.value.request.httpBody == Some(Models.EncodeBody(Service.RequestBodyFor(call)))
              && (r.value.printed, r.value.outcome) == Service.Reply(call.stream, r.value.request, server)
  {
    var validated := Validate(o, storedKey, storedModel);
    match validated {
      case Failure(e) =>
        r := Failure(e);
      case Success(call) =>
        var inv := Service.GetAIMessage(call, server);
        r := Success(inv);
    }
  }

  /**
   * `chat "Hello" --model gpt-4o --stream false` with a stored key: the
   * service receives the input, the stored key, the model and the defaults.
   */
  lemma ChatExample(storedKey: string)
    ensures Validate(DefaultOptions("Hello", model := Some("gpt-4o")).(stream := false), Some(storedKey), None)
         == Success(Service.ServiceCall("Hello", storedKey, "gpt-4o", 1.0, 2048, 1.0, 0.0, 0.0, false))
  {
  }
}
