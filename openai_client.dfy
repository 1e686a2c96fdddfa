/** The completion client and the function-call extractor. The completion
    response reaches the code in one of two shapes: a mapping that supports
    `resp["..."]` and `.get`, or the SDK's response object that only exposes
    `resp.choices` by attribute. `json.loads` is the oracle `decode`: `None`
    where it raises. */
module OpenAI {
  import opened Values

  const DefaultModel := "gpt-4o-mini"
  const MissingKeyMessage := "OPENAI_API_KEY is not set in environment or passed to OpenAIClient"

  /** A completion response: a mapping, or the SDK object with its `choices` list
      (each choice as the JSON it serialises to). */
  datatype Completion = Mapping(body: Json) | SdkObject(choices: seq<Json>)

  /** The keyword arguments handed to `chat.completions.create`. */
  type Kwargs = map<string, Json>

  /** A call of `call_chat_completion`: refused before any upstream call, or sent
      with these keyword arguments and answered (a response, or the text of the
      exception the SDK raised). */
  datatype CompletionAttempt =
    | Refused(message: string)
    | Sent(kwargs: Kwargs, answer: Result<Completion, string>)

  /** The request keywords: model, messages and temperature always; functions and
      function_call only when the function list is non-empty, the latter "auto"
      unless a truthy choice is given. */
  function CompletionKwargs(model: string, messages: Json, temperature: real, functions: Json, functionCall: Json): (kw: Kwargs)
    ensures kw.Keys == {"model", "messages", "temperature"} + (if Truthy(functions) then {"functions", "function_call"} else {})
    ensures kw["model"] == JStr(model) && kw["messages"] == messages && kw["temperature"] == JFloat(temperature)
    ensures Truthy(functions) ==> kw["functions"] == functions && Truthy(kw["function_call"])
    ensures Truthy(functions) && Truthy(functionCall) ==> kw["function_call"] == functionCall
    ensures Truthy(functions) && !Truthy(functionCall) ==> kw["function_call"] == JStr("auto")
  {
    var always := map["model" := JStr(model), "messages" := messages, "temperature" := JFloat(temperature)];
    if Truthy(functions) then always + map["functions" := functions, "function_call" := Or(functionCall, JStr("auto"))]
    else always
  }

  class OpenAIClient {
    const apiKey: Option<string>
    const model: string
    const timeout: int

    /** `OpenAIClient(api_key, model, timeout)`; `defaultKey` is the module's
        `DEFAULT_OPENAI_KEY`, read from the environment at import. */
    constructor (defaultKey: Option<string>, apiKey: Option<string> := None, model: string := DefaultModel, timeout: int := 60)
      ensures this.apiKey == OrElse(apiKey, defaultKey)
      ensures this.model == model && this.timeout == timeout
    {
      this.apiKey := OrElse(apiKey, defaultKey);
      this.model := model;
      this.timeout := timeout;
    }

    /** What `call_chat_completion` does, as a value. */
    function ChatCompletion(complete: Kwargs -> Result<Completion, string>, messages: Json,
                            functions: Json := JNull, functionCall: Json := JStr("auto"), temperature: real := 0.2): CompletionAttempt
    {
      if !Present(apiKey) then Refused(MissingKeyMessage)
      else
        var kw := CompletionKwargs(model, messages, temperature, functions, functionCall);
        Sent(kw, complete(kw))
    }

    /** `call_chat_completion`: fail fast without a key, otherwise build the
        keyword arguments one key at a time and make the call. */
    method CallChatCompletion(complete: Kwargs -> Result<Completion, string>, messages: Json,
                              functions: Json := JNull, functionCall: Json := JStr("auto"), temperature: real := 0.2)
      returns (a: CompletionAttempt)
      ensures a.Refused? <==> !Present(apiKey)
      ensures a.Refused? ==> a.message == MissingKeyMessage
      ensures a.Sent? ==> a.kwargs == CompletionKwargs(model, messages, temperature, functions, functionCall)
      ensures a.Sent? ==> a.answer == complete(a.kwargs)
      ensures a == ChatCompletion(complete, messages, functions, functionCall, temperature)
    {
      if !Present(apiKey) {
        return Refused(MissingKeyMessage);
      }
      var kwargs: Kwargs := map["model" := JStr(model), "messages" := messages, "temperature" := JFloat(temperature)];
      ghost var always := kwargs;
      if Truthy(functions) {
        kwargs := kwargs["functions" := functions];
        kwargs := kwargs["function_call" := Or(functionCall, JStr("auto"))];
        assert kwargs == always + map["functions" := functions, "function_call" := Or(functionCall, JStr("auto"))];
      }
      assert kwargs == CompletionKwargs(model, messages, temperature, functions, functionCall);
      var resp := complete(kwargs);
      a := Sent(kwargs, resp);
    }
  }

  /** `resp["choices"][0]`, or None where that raises: the SDK object is not
      subscriptable, and a missing key, a non-list or an empty list fail. (A
      string's first character is a string, which fails at the next `.get` or
      subscript just the same, so it is treated as failing here.) */
  function FirstChoice(resp: Completion): Option<Json> {
    match resp
    case SdkObject(_) => None
    case Mapping(body) =>
      if body.JObj? && "choices" in body.fields && body.fields["choices"].JArr? && body.fields["choices"].items != []
      then Some(body.fields["choices"].items[0])
      else None
  }

  /** `choice.get("message") or choice.get("delta") or {}`, None when `choice`
      is not a dict (the `.get` raises). */
  function ChoiceMessage(choice: Json): (m: Option<Json>)
    ensures m.Some? <==> choice.JObj?
    ensures choice.JObj? && Truthy(Lookup(choice.fields, "message")) ==> m == Some(choice.fields["message"])
    ensures choice.JObj? && !Truthy(Lookup(choice.fields, "message")) && Truthy(Lookup(choice.fields, "delta"))
      ==> m == Some(choice.fields["delta"])
    ensures choice.JObj? && !Truthy(Lookup(choice.fields, "message")) && !Truthy(Lookup(choice.fields, "delta"))
      ==> m == Some(EmptyObject)
  {
    if choice.JObj? then Some(Or(Or(Lookup(choice.fields, "message"), Lookup(choice.fields, "delta")), EmptyObject))
    else None
  }

  /** `fc.get("arguments") or "{}"`, then `json.loads`, keeping the raw value when
      decoding raises (a non-string raises a TypeError in `json.loads`). */
  function DecodeArguments(raw: Json, decode: string -> Option<Json>): (a: Json)
    ensures !Truthy(raw) ==> a == (if decode("{}").Some? then decode("{}").value else JStr("{}"))
    ensures Truthy(raw) && raw.JStr? ==> a == (if decode(raw.s).Some? then decode(raw.s).value else raw)
    ensures Truthy(raw) && !raw.JStr? ==> a == raw
  {
    var text := Or(raw, JStr("{}"));
    match text
    case JStr(s) => (match decode(s) case Some(v) => v case None => text)
    case _ => text
  }

  /** The `function_call` directive of a response, when there is a truthy one in
      a dict message and it is itself a dict. */
  function CallDirective(resp: Completion): Option<map<string, Json>> {
    match FirstChoice(resp)
    case None => None
    case Some(choice) =>
      match ChoiceMessage(choice)
      case None => None
      case Some(message) =>
        if !Truthy(message) || !message.JObj? then None
        else
          var fc := Lookup(message.fields, "function_call");
          if Truthy(fc) && fc.JObj? then Some(fc.fields) else None
  }

  /** `extract_function_call`: `{"name": ..., "arguments": ...}` or None, never raising. */
  function ExtractFunctionCall(resp: Completion, decode: string -> Option<Json>): (r: Option<Json>)
    ensures r.Some? <==> CallDirective(resp).Some?
    ensures r.Some? ==> r.value.JObj? && r.value.fields.Keys == {"name", "arguments"}
    ensures r.Some? ==> r.value.fields["name"] == Lookup(CallDirective(resp).value, "name")
    ensures r.Some? ==> r.value.fields["arguments"] == DecodeArguments(Lookup(CallDirective(resp).value, "arguments"), decode)
  {
    match CallDirective(resp)
    case None => None
    case Some(fc) =>
      Some(JObj(map["name" := Lookup(fc, "name"), "arguments" := DecodeArguments(Lookup(fc, "arguments"), decode)]))
  }

  /** A response that cannot be indexed as `resp["choices"][0]` yields None: the
      SDK object, a non-dict, a missing or non-list `choices`, an empty list, or a
      first choice that is not a dict. */
  lemma UnindexableResponseYieldsNone(resp: Completion, decode: string -> Option<Json>)
    requires || resp.SdkObject?
             || !resp.body.JObj?
             || "choices" !in resp.body.fields
             || !resp.body.fields["choices"].JArr?
             || resp.body.fields["choices"].items == []
             || !resp.body.fields["choices"].items[0].JObj?
    ensures ExtractFunctionCall(resp, decode) == None
  {
  }

  /** A message without a truthy `function_call` yields None. */
  lemma NoFunctionCallYieldsNone(resp: Completion, decode: string -> Option<Json>, message: map<string, Json>)
    requires FirstChoice(resp).Some? && ChoiceMessage(FirstChoice(resp).value) == Some(JObj(message))
    requires !Truthy(Lookup(message, "function_call"))
    ensures ExtractFunctionCall(resp, decode) == None
  {
  }

  /** A missing or empty `arguments` is read as "{}", which decodes to `{}`. */
  lemma MissingArgumentsYieldEmptyObject(raw: Json, decode: string -> Option<Json>)
    requires !Truthy(raw)
    requires decode("{}") == Some(EmptyObject)
    ensures DecodeArguments(raw, decode) == EmptyObject
  {
  }

  /** Arguments that decode are returned decoded; text that does not decode, and
      any truthy non-string value (an already-decoded dict, say), pass through raw. */
  lemma ArgumentsDecodedOrPassedThrough(raw: Json, decode: string -> Option<Json>)
    requires Truthy(raw)
    ensures raw.JStr? && decode(raw.s).Some? ==> DecodeArguments(raw, decode) == decode(raw.s).value
    ensures raw.JStr? && decode(raw.s).None? ==> DecodeArguments(raw, decode) == raw
    ensures !raw.JStr? ==> DecodeArguments(raw, decode) == raw
  {
  }

  /** The response the completion API documents for a function call, with the
      directive in `message` (or, for streaming clients, in `delta`). */
  function CallResponse(name: Json, arguments: Json, inDelta: bool): Completion {
    var directive := JObj(map["function_call" := JObj(map["name" := name, "arguments" := arguments])]);
    Mapping(JObj(map["choices" := JArr([JObj(map[(if inDelta then "delta" else "message") := directive])])]))
  }

  /** Extraction inverts that response: the name comes back as given (None when
      absent is just the `JNull` case), the arguments text decoded. */
  lemma {:induction false} ExtractInvertsCallResponse(name: Json, text: string, v: Json, inDelta: bool, decode: string -> Option<Json>)
    requires text != "" && decode(text) == Some(v)
    ensures ExtractFunctionCall(CallResponse(name, JStr(text), inDelta), decode) == Some(JObj(map["name" := name, "arguments" := v]))
  {
    var resp := CallResponse(name, JStr(text), inDelta);
    var directive := JObj(map["function_call" := JObj(map["name" := name, "arguments" := JStr(text)])]);
    var choice := JObj(map[(if inDelta then "delta" else "message") := directive]);
    assert FirstChoice(resp) == Some(choice);
    assert "function_call" in directive.fields;
    assert ChoiceMessage(choice) == Some(directive);
    var fc := JObj(map["name" := name, "arguments" := JStr(text)]);
    assert "name" in fc.fields;
    assert Lookup(directive.fields, "function_call") == fc;
    assert CallDirective(resp) == Some(fc.fields);
  }

  /** The create_booking scenario: arguments that decode to the customer's details
      come back decoded under the name "create_booking". */
  lemma CreateBookingScenario(decode: string -> Option<Json>, text: string)
    requires text == "{\"start_time\":\"2024-01-01T10:00:00Z\",\"customer_name\":\"Joe\",\"customer_email\":\"joe@example.com\"}"
    requires decode(text) == Some(JObj(map["start_time" := JStr("2024-01-01T10:00:00Z"),
                                           "customer_name" := JStr("Joe"),
                                           "customer_email" := JStr("joe@example.com")]))
    ensures var r := ExtractFunctionCall(CallResponse(JStr("create_booking"), JStr(text), false), decode);
      && r.Some?
      && r.value.fields["name"] == JStr("create_booking")
      && r.value.fields["arguments"].JObj?
      && r.value.fields["arguments"].fields["customer_name"] == JStr("Joe")
      && r.value.fields["arguments"].fields["customer_email"] == JStr("joe@example.com")
  {
    ExtractInvertsCallResponse(JStr("create_booking"), text, decode(text).value, false, decode);
  }

  /** Arguments "not json" come back as the raw string, without raising. */
  lemma NotJsonScenario(decode: string -> Option<Json>, name: Json)
    requires decode("not json") == None
    ensures ExtractFunctionCall(CallResponse(name, JStr("not json"), false), decode)
      == Some(JObj(map["name" := name, "arguments" := JStr("not json")]))
  {
    var resp := CallResponse(name, JStr("not json"), false);
    var directive := JObj(map["function_call" := JObj(map["name" := name, "arguments" := JStr("not json")])]);
    var fc := JObj(map["name" := name, "arguments" := JStr("not json")]);
    assert FirstChoice(resp) == Some(JObj(map["message" := directive]));
    assert "function_call" in directive.fields && "name" in fc.fields;
    assert CallDirective(resp) == Some(fc.fields);
  }
}
