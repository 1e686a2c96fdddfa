/** What the HTTP handlers of both app copies share: the exceptions a handler
    can meet, the responses it gives (FastAPI's HTTPException becomes `Err`),
    the record of upstream calls it made, the branches of the chat dispatcher
    and how a branch is carried out against the Cal.com client. */
module Web {
  import opened Values
  import Cal
  import OpenAI

  /** An exception raised inside a handler's `try` block. */
  datatype Fault =
    | ClientFailure(error: Cal.CalClientError)           // raised by the Cal.com client
    | KeyMissing(key: string)                            // KeyError from `args[key]` on a dict
    | NoAttribute(receiver: Json, attribute: string)     // AttributeError: `args.get` on a non-dict
    | NotSubscriptable(receiver: Json, key: string)      // TypeError: `args[key]` on a non-dict

  /** An HTTPException's detail: a plain message, or f"cal.com error: {e}". */
  datatype Detail = Message(text: string) | CalComError(fault: Fault)

  datatype Response = Ok(body: Json) | Err(status: int, detail: Detail)

  /** An upstream call a handler made. */
  datatype Call =
    | ModelCall(kwargs: OpenAI.Kwargs)
    | ServerModelCall(messages: Json, functions: Json)
    | CalCall(request: Cal.HttpRequest)

  /** A handler's effect: the upstream calls in order, then the response. */
  datatype Handled = Handled(calls: seq<Call>, response: Response)

  /** What Python computes that the model leaves open: `json.loads` (None where it
      raises), `str()` of a non-string value, and `str()` of a completion response. */
  datatype Runtime = Runtime(decode: string -> Option<Json>, show: Json -> string, showResponse: OpenAI.Completion -> string)

  /** The branch a chat dispatcher takes on an extracted call. */
  datatype Action =
    | ListCall(params: Json)
    | CreateCall(payload: Json)
    | CancelCall(bookingId: Json)
    | Answer(result: Json)
    | Raise(fault: Fault)

  const UnknownFunction: Json := JObj(map["error" := JStr("unknown function")])

  /** The names the chat dispatchers have a branch for. */
  const DispatchedNames := {"list_bookings", "create_booking", "cancel_booking"}

  predicate Dispatched(name: Json) {
    name.JStr? && name.s in DispatchedNames
  }

  const SystemPrompt := "You are an assistant that helps users book, list and cancel events using Cal.com. Ask clarifying questions if needed."

  /** The system and user messages of a chat request. */
  function ChatMessages(message: string, userEmail: string): (m: Json)
    ensures m.JArr? && |m.items| == 2
    ensures m.items[0] == JObj(map["role" := JStr("system"), "content" := JStr(SystemPrompt)])
    ensures m.items[1].JObj? && m.items[1].fields.Keys == {"role", "content"} && m.items[1].fields["role"] == JStr("user")
    ensures m.items[1].fields["content"] == JStr(message + " (user email: " + userEmail + ")")
  {
    JArr([JObj(map["role" := JStr("system"), "content" := JStr(SystemPrompt)]),
          JObj(map["role" := JStr("user"), "content" := JStr(message + " (user email: " + userEmail + ")")])])
  }

  /** The f-string field `{booking_uid}`: a string as it is, anything else as `str()` renders it. */
  function Interpolate(v: Json, show: Json -> string): (s: string)
    ensures v.JStr? ==> s == v.s
    ensures !v.JStr? ==> s == show(v)
  {
    if v.JStr? then v.s else show(v)
  }

  /** `fc.get("name")` and `fc.get("arguments") or {}` of the extracted call, when
      the response carries one. */
  function CallIntent(resp: OpenAI.Completion, decode: string -> Option<Json>): (r: Option<(Json, Json)>)
    ensures r.Some? <==> OpenAI.CallDirective(resp).Some?
    ensures r.Some? ==> r.value.0 == Lookup(OpenAI.CallDirective(resp).value, "name")
    ensures r.Some? ==> r.value.1 == Or(OpenAI.DecodeArguments(Lookup(OpenAI.CallDirective(resp).value, "arguments"), decode), EmptyObject)
  {
    match OpenAI.ExtractFunctionCall(resp, decode)
    case None => None
    case Some(fc) => Some((Lookup(fc.fields, "name"), Or(Lookup(fc.fields, "arguments"), EmptyObject)))
  }

  /** A client result inside the dispatcher's `try`: the value, or the client's exception. */
  function AsFault(r: Result<Json, Cal.CalClientError>): (f: Result<Json, Fault>)
    ensures f.Success? <==> r.Success?
    ensures r.Success? ==> f.value == r.value
    ensures r.Failure? ==> f.error == ClientFailure(r.error)
  {
    match r
    case Success(v) => Success(v)
    case Failure(e) => Failure(ClientFailure(e))
  }

  datatype Performed = Performed(calls: seq<Call>, outcome: Result<Json, Fault>)

  /** Carrying out a dispatcher branch: one Cal.com request for the three calls
      (with its relayed result or error), none for an answer or an exception. */
  function Perform(cal: Cal.CalClient, action: Action, send: Cal.HttpRequest -> Cal.Reply, show: Json -> string): (p: Performed)
    ensures p.calls == [] <==> action.Answer? || action.Raise?
    ensures |p.calls| <= 1 && forall c | c in p.calls :: c.CalCall?
    ensures action.Answer? ==> p.outcome == Success(action.result)
    ensures action.Raise? ==> p.outcome == Failure(action.fault)
    ensures p.calls != [] ==> (p.outcome.Success? <==> send(p.calls[0].request).Received?)
    ensures action.ListCall? ==>
      var req := cal.ListRequest(action.params);
      p == Performed([CalCall(req)], AsFault(Cal.Relay("list_bookings", send(req))))
    ensures action.CreateCall? ==>
      var req := cal.CreateRequest(action.payload);
      p == Performed([CalCall(req)], AsFault(Cal.Relay("create_booking", send(req))))
    ensures action.CancelCall? ==>
      var req := cal.CancelRequest(Interpolate(action.bookingId, show), JNull);
      p == Performed([CalCall(req)], AsFault(Cal.Relay("cancel_booking", send(req))))
  {
    match action
    case ListCall(params) =>
      var req := cal.ListRequest(params);
      Performed([CalCall(req)], AsFault(Cal.Relay("list_bookings", send(req))))
    case CreateCall(payload) =>
      var req := cal.CreateRequest(payload);
      Performed([CalCall(req)], AsFault(Cal.Relay("create_booking", send(req))))
    case CancelCall(bookingId) =>
      var req := cal.CancelRequest(Interpolate(bookingId, show), JNull);
      Performed([CalCall(req)], AsFault(Cal.Relay("cancel_booking", send(req))))
    case Answer(result) => Performed([], Success(result))
    case Raise(fault) => Performed([], Failure(fault))
  }

  /** The reply to a dispatched call: the model's intent with the result, or a 500
      "cal.com error: ..." for whatever the try block raised. */
  function DispatchReply(name: Json, args: Json, outcome: Result<Json, Fault>): (r: Response)
    ensures r.Ok? <==> outcome.Success?
    ensures r.Ok? ==> r.body == JObj(map["function_called" := name, "arguments" := args, "result" := outcome.value])
    ensures r.Err? ==> r == Err(500, CalComError(outcome.error))
  {
    match outcome
    case Success(result) => Ok(JObj(map["function_called" := name, "arguments" := args, "result" := result]))
    case Failure(fault) => Err(500, CalComError(fault))
  }

  /** What a dispatched call does, given the branch its copy routes it to: the
      branch's one Cal.com request (none for an answer or an exception), and the
      reply `{function_called, arguments, result}` with Cal.com's answer as
      `result`, or a 500 "cal.com error" carrying the exception. The Cal.com
      operation named in an error is the dispatched name itself. */
  ghost predicate DispatchesAsRouted(cal: Cal.CalClient, intent: (Json, Json), a: Action, show: Json -> string,
                                     send: Cal.HttpRequest -> Cal.Reply, h: Handled)
  {
    var (name, args) := intent;
    && (a.ListCall? ==> h.calls == [CalCall(cal.ListRequest(a.params))])
    && (a.CreateCall? ==> h.calls == [CalCall(cal.CreateRequest(a.payload))])
    && (a.CancelCall? ==> h.calls == [CalCall(cal.CancelRequest(Interpolate(a.bookingId, show), JNull))])
    && (a.Answer? || a.Raise? ==> h.calls == [])
    && (a.Answer? ==> h.response == Ok(JObj(map["function_called" := name, "arguments" := args, "result" := a.result])))
    && (a.Raise? ==> h.response == Err(500, CalComError(a.fault)))
    && (h.calls != [] && h.calls[0].CalCall? && send(h.calls[0].request).Received? ==>
          h.response == Ok(JObj(map["function_called" := name, "arguments" := args, "result" := send(h.calls[0].request).body])))
    && (h.calls != [] && h.calls[0].CalCall? && !send(h.calls[0].request).Received? ==>
          name.JStr? && h.response == Err(500, CalComError(ClientFailure(Cal.Relay(name.s, send(h.calls[0].request)).error))))
  }
}
