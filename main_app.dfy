/** The current app's HTTP handlers. The two clients live in the application
    state once the startup hook has built them; `/chat` asks the model, routes an
    extracted call to the Cal.com client and replies with the model's intent and
    the upstream result, while `/book`, `/list` and `/cancel` call the client
    directly. Every handler is a function returning the upstream calls it made
    and its response. */
module MainApp {
  import opened Values
  import Cal
  import OpenAI
  import Tools
  import Utils
  import opened Web

  /** `app.state`: both clients once startup has run, nothing before. */
  datatype AppState = NotStarted | Started(cal: Cal.CalClient, openai: OpenAI.OpenAIClient)

  datatype ChatRequest = ChatRequest(userEmail: string, message: string)
  datatype BookRequest = BookRequest(eventTypeId: string, startTime: string, customerName: string, customerEmail: string)
  datatype ListRequest = ListRequest(userEmail: string)
  datatype CancelRequest = CancelRequest(bookingId: string)

  const ChatNotConfigured := "Cal.com client not configured (missing CAL_COM_API_KEY)"
  const NotConfigured := "Cal.com client not configured"
  const ChatNote := "chat booking"
  const ApiNote := "API booking"

  /** The dispatcher of `/chat`: the branch taken for an extracted name and its
      arguments. `.get` on a non-dict raises AttributeError, `args["booking_id"]`
      raises TypeError on a non-dict and KeyError on a dict without the key. */
  function Route(name: Json, args: Json): (a: Action)
    ensures a == Answer(UnknownFunction) <==> !Dispatched(name)
    ensures a.ListCall? <==> name == JStr("list_bookings") && args.JObj?
    ensures a.CreateCall? <==> name == JStr("create_booking") && args.JObj?
    ensures a.CancelCall? <==> name == JStr("cancel_booking") && args.JObj? && "booking_id" in args.fields
    ensures a.Raise? <==> Dispatched(name) && (!args.JObj? || (name == JStr("cancel_booking") && "booking_id" !in args.fields))
    ensures a.Raise? && args.JObj? ==> a.fault == KeyMissing("booking_id")
    ensures a.Raise? && !args.JObj? && name == JStr("cancel_booking") ==> a.fault == NotSubscriptable(args, "booking_id")
    ensures a.Raise? && !args.JObj? && name != JStr("cancel_booking") ==> a.fault == NoAttribute(args, "get")
    ensures a.ListCall? ==> && a.params.JObj? && a.params.fields.Keys == {"take", "status", "attendeeEmail"}
                            && a.params.fields["take"] == JStr("100")
                            && a.params.fields["status"] == Lookup(args.fields, "status")
                            && a.params.fields["attendeeEmail"] == Lookup(args.fields, "user_email")
    ensures a.CancelCall? ==> a.bookingId == args.fields["booking_id"]
  {
    if name == JStr("list_bookings") then
      if !args.JObj? then Raise(NoAttribute(args, "get"))
      else ListCall(JObj(map["take" := JStr("100"),
                             "status" := Lookup(args.fields, "status"),
                             "attendeeEmail" := Lookup(args.fields, "user_email")]))
    else if name == JStr("create_booking") then
      if !args.JObj? then Raise(NoAttribute(args, "get"))
      else CreateCall(Utils.BuildBookingPayload(Lookup(args.fields, "start_time"), Lookup(args.fields, "customer_name"),
                                                Lookup(args.fields, "customer_email"), note := ChatNote))
    else if name == JStr("cancel_booking") then
      if !args.JObj? then Raise(NotSubscriptable(args, "booking_id"))
      else if "booking_id" !in args.fields then Raise(KeyMissing("booking_id"))
      else CancelCall(args.fields["booking_id"])
    else Answer(UnknownFunction)
  }

  /** The no-call reply `resp.choices[0]`, falling back to `str(resp)`: attribute
      access, which only the SDK object has. */
  function Assistant(resp: OpenAI.Completion, showResponse: OpenAI.Completion -> string): (a: Json)
    ensures resp.Mapping? ==> a == JStr(showResponse(resp))
    ensures resp.SdkObject? && resp.choices != [] ==> a == resp.choices[0]
    ensures resp.SdkObject? && resp.choices == [] ==> a == JStr(showResponse(resp))
  {
    match resp
    case SdkObject(choices) => if choices != [] then choices[0] else JStr(showResponse(resp))
    case Mapping(_) => JStr(showResponse(resp))
  }

  /** What `/chat` does once the model has answered: dispatch the extracted call,
      or reply with the assistant's message. At most one Cal.com request is made. */
  function Respond(cal: Cal.CalClient, resp: OpenAI.Completion, rt: Runtime, send: Cal.HttpRequest -> Cal.Reply): (h: Handled)
    ensures |h.calls| <= 1 && forall c | c in h.calls :: c.CalCall?
    ensures CallIntent(resp, rt.decode).None? ==> h == Handled([], Ok(JObj(map["assistant" := Assistant(resp, rt.showResponse)])))
    ensures CallIntent(resp, rt.decode).Some? && h.response.Ok? ==>
      && h.response.body.JObj? && h.response.body.fields.Keys == {"function_called", "arguments", "result"}
      && h.response.body.fields["function_called"] == CallIntent(resp, rt.decode).value.0
      && h.response.body.fields["arguments"] == CallIntent(resp, rt.decode).value.1
    ensures h.response.Err? ==> h.response.status == 500 && h.response.detail.CalComError?
    ensures CallIntent(resp, rt.decode).Some? ==> DispatchesAsRouted(cal, CallIntent(resp, rt.decode).value, Route(CallIntent(resp, rt.decode).value.0, CallIntent(resp, rt.decode).value.1), rt.show, send, h)
  {
    match CallIntent(resp, rt.decode)
    case None => Handled([], Ok(JObj(map["assistant" := Assistant(resp, rt.showResponse)])))
    case Some((name, args)) =>
      var done := Perform(cal, Route(name, args), send, rt.show);
      Handled(done.calls, DispatchReply(name, args, done.outcome))
  }

  /** The keyword arguments of the model call `/chat` makes. */
  function ChatKwargs(openai: OpenAI.OpenAIClient, req: ChatRequest): OpenAI.Kwargs {
    OpenAI.CompletionKwargs(openai.model, ChatMessages(req.message, req.userEmail), 0.2, Tools.WireAll(Tools.Functions), JStr("auto"))
  }

  /** `/chat`: refuse without a Cal.com client or an OpenAI key before calling
      anything; otherwise one model call, then at most one Cal.com call. */
  function Chat(app: AppState, req: ChatRequest, rt: Runtime,
                complete: OpenAI.Kwargs -> Result<OpenAI.Completion, string>, send: Cal.HttpRequest -> Cal.Reply): (h: Handled)
    ensures app.NotStarted? ==> h == Handled([], Err(500, Message(ChatNotConfigured)))
    ensures app.Started? && !Present(app.openai.apiKey) ==> h == Handled([], Err(500, Message(OpenAI.MissingKeyMessage)))
    ensures h.calls != [] ==> app.Started? && h.calls[0] == ModelCall(ChatKwargs(app.openai, req))
    ensures |h.calls| <= 2 && forall i | 1 <= i < |h.calls| :: h.calls[i].CalCall?
    ensures h.response.Err? ==> h.response.status == 500
    ensures app.Started? && Present(app.openai.apiKey) ==> h.calls != []
    ensures app.Started? && Present(app.openai.apiKey) && complete(ChatKwargs(app.openai, req)).Failure? ==>
      h == Handled([ModelCall(ChatKwargs(app.openai, req))], Err(500, Message(complete(ChatKwargs(app.openai, req)).error)))
    ensures app.Started? && Present(app.openai.apiKey) && complete(ChatKwargs(app.openai, req)).Success? ==>
      var rest := Respond(app.cal, complete(ChatKwargs(app.openai, req)).value, rt, send);
      h.calls[1..] == rest.calls && h.response == rest.response
  {
    match app
    case NotStarted => Handled([], Err(500, Message(ChatNotConfigured)))
    case Started(cal, openai) =>
      match openai.ChatCompletion(complete, ChatMessages(req.message, req.userEmail), Tools.WireAll(Tools.Functions))
      case Refused(message) => Handled([], Err(500, Message(message)))
      case Sent(kwargs, Failure(message)) => Handled([ModelCall(kwargs)], Err(500, Message(message)))
      case Sent(kwargs, Success(resp)) =>
        var rest := Respond(cal, resp, rt, send);
        Handled([ModelCall(kwargs)] + rest.calls, rest.response)
  }

  /** The body `/book` sends: the request's fields, its event type id (the default
      one when empty) and the note "API booking". */
  function BookPayload(req: BookRequest): (p: Json)
    ensures p.JObj? && p.fields.Keys == Utils.PayloadKeys
    ensures p.fields["start"] == JStr(req.startTime)
    ensures p.fields["attendee"].JObj? && p.fields["attendee"].fields.Keys == Utils.AttendeeKeys
    ensures p.fields["attendee"].fields["name"] == JStr(req.customerName) && p.fields["attendee"].fields["email"] == JStr(req.customerEmail)
    ensures p.fields["eventTypeId"] == (if req.eventTypeId != "" then JStr(req.eventTypeId) else JInt(Utils.DefaultEventTypeId))
    ensures p.fields["metadata"] == JObj(map["note" := JStr(ApiNote)])
  {
    Utils.BuildBookingPayload(JStr(req.startTime), JStr(req.customerName), JStr(req.customerEmail),
                              JStr(req.eventTypeId), note := ApiNote)
  }

  /** `/book`: create the booking and return Cal.com's answer as it is. */
  function Book(app: AppState, req: BookRequest, send: Cal.HttpRequest -> Cal.Reply): (h: Handled)
    ensures app.NotStarted? ==> h == Handled([], Err(500, Message(NotConfigured)))
    ensures app.Started? ==> h.calls == [CalCall(app.cal.CreateRequest(BookPayload(req)))]
    ensures app.Started? && send(h.calls[0].request).Received? ==> h.response == Ok(send(h.calls[0].request).body)
    ensures app.Started? && !send(h.calls[0].request).Received? ==>
      h.response == Err(500, Message(Cal.Relay("create_booking", send(h.calls[0].request)).error.message))
  {
    match app
    case NotStarted => Handled([], Err(500, Message(NotConfigured)))
    case Started(cal, _) =>
      var request := cal.CreateRequest(BookPayload(req));
      Handled([CalCall(request)], Plain(Cal.Relay("create_booking", send(request))))
  }

  /** A client result as a direct endpoint returns it: the body, or a 500 with
      the error's text. */
  function Plain(r: Result<Json, Cal.CalClientError>): Response {
    match r
    case Success(body) => Ok(body)
    case Failure(e) => Err(500, Message(e.message))
  }

  /** The query `/list` sends: the attendee's email and the integer 100. */
  function ListQuery(req: ListRequest): (q: Json)
    ensures q.JObj? && q.fields.Keys == {"attendeeEmail", "take"}
    ensures q.fields["attendeeEmail"] == JStr(req.userEmail) && q.fields["take"] == JInt(100)
  {
    JObj(map["attendeeEmail" := JStr(req.userEmail), "take" := JInt(100)])
  }

  /** `/list`: Cal.com's answer wrapped as `{"bookings": ...}`. */
  function List(app: AppState, req: ListRequest, send: Cal.HttpRequest -> Cal.Reply): (h: Handled)
    ensures app.NotStarted? ==> h == Handled([], Err(500, Message(NotConfigured)))
    ensures app.Started? ==> h.calls == [CalCall(app.cal.ListRequest(ListQuery(req)))]
    ensures app.Started? && send(h.calls[0].request).Received? ==>
      h.response == Ok(JObj(map["bookings" := send(h.calls[0].request).body]))
    ensures app.Started? && !send(h.calls[0].request).Received? ==>
      h.response == Err(500, Message(Cal.Relay("list_bookings", send(h.calls[0].request)).error.message))
    ensures h.response.Err? ==> h.response.status == 500
  {
    match app
    case NotStarted => Handled([], Err(500, Message(NotConfigured)))
    case Started(cal, _) =>
      var request := cal.ListRequest(ListQuery(req));
      var r := Cal.Relay("list_bookings", send(request));
      Handled([CalCall(request)], if r.Success? then Ok(JObj(map["bookings" := r.value])) else Err(500, Message(r.error.message)))
  }

  /** `/cancel`: cancel the booking with that uid and return Cal.com's answer. */
  function Cancel(app: AppState, req: CancelRequest, send: Cal.HttpRequest -> Cal.Reply): (h: Handled)
    ensures app.NotStarted? ==> h == Handled([], Err(500, Message(NotConfigured)))
    ensures app.Started? ==> h.calls == [CalCall(app.cal.CancelRequest(req.bookingId, JNull))]
    ensures app.Started? && send(h.calls[0].request).Received? ==> h.response == Ok(send(h.calls[0].request).body)
    ensures app.Started? && !send(h.calls[0].request).Received? ==>
      h.response == Err(500, Message(Cal.Relay("cancel_booking", send(h.calls[0].request)).error.message))
    ensures h.response.Err? ==> h.response.status == 500
  {
    match app
    case NotStarted => Handled([], Err(500, Message(NotConfigured)))
    case Started(cal, _) =>
      var request := cal.CancelRequest(req.bookingId, JNull);
      Handled([CalCall(request)], Plain(Cal.Relay("cancel_booking", send(request))))
  }

  // Properties of the chat dispatcher

  /** The model is offered the declared functions, chosen automatically. */
  lemma {:induction false} ChatOffersDeclaredFunctions(openai: OpenAI.OpenAIClient, req: ChatRequest)
    ensures ChatKwargs(openai, req).Keys == {"model", "messages", "temperature", "functions", "function_call"}
    ensures ChatKwargs(openai, req)["functions"] == Tools.WireAll(Tools.Functions)
    ensures ChatKwargs(openai, req)["function_call"] == JStr("auto")
    ensures ChatKwargs(openai, req)["model"] == JStr(openai.model)
  {
    assert Tools.WireAll(Tools.Functions).items != [];
  }

  /** An unrecognised name is answered with the marker, without any Cal.com call. */
  lemma UnknownNameAnswersMarker(cal: Cal.CalClient, resp: OpenAI.Completion, rt: Runtime, send: Cal.HttpRequest -> Cal.Reply)
    requires CallIntent(resp, rt.decode).Some? && !Dispatched(CallIntent(resp, rt.decode).value.0)
    ensures var (name, args) := CallIntent(resp, rt.decode).value;
      Respond(cal, resp, rt, send)
        == Handled([], Ok(JObj(map["function_called" := name, "arguments" := args, "result" := UnknownFunction])))
  {
  }

  /** A cancel without a `booking_id` fails with a 500 before any Cal.com call. */
  lemma CancelWithoutIdMakesNoCall(cal: Cal.CalClient, resp: OpenAI.Completion, rt: Runtime, send: Cal.HttpRequest -> Cal.Reply)
    requires CallIntent(resp, rt.decode).Some?
    requires CallIntent(resp, rt.decode).value.0 == JStr("cancel_booking")
    requires var args := CallIntent(resp, rt.decode).value.1; args.JObj? && "booking_id" !in args.fields
    ensures Respond(cal, resp, rt, send) == Handled([], Err(500, CalComError(KeyMissing("booking_id"))))
  {
  }

  /** A dispatched list returns Cal.com's answer unchanged under "result". */
  lemma ListResultPassedThrough(cal: Cal.CalClient, resp: OpenAI.Completion, rt: Runtime, send: Cal.HttpRequest -> Cal.Reply,
                                args: map<string, Json>, answer: Json)
    requires CallIntent(resp, rt.decode) == Some((JStr("list_bookings"), JObj(args)))
    requires send(cal.ListRequest(Route(JStr("list_bookings"), JObj(args)).params)) == Cal.Received(answer)
    ensures Respond(cal, resp, rt, send).response
      == Ok(JObj(map["function_called" := JStr("list_bookings"), "arguments" := JObj(args), "result" := answer]))
  {
  }

  /** A dispatched create sends the built body and returns Cal.com's answer
      unchanged under "result". */
  lemma CreateResultPassedThrough(cal: Cal.CalClient, resp: OpenAI.Completion, rt: Runtime, send: Cal.HttpRequest -> Cal.Reply,
                                  args: map<string, Json>, answer: Json)
    requires CallIntent(resp, rt.decode) == Some((JStr("create_booking"), JObj(args)))
    requires send(cal.CreateRequest(Route(JStr("create_booking"), JObj(args)).payload)) == Cal.Received(answer)
    ensures Respond(cal, resp, rt, send) == Handled(
      [CalCall(cal.CreateRequest(Route(JStr("create_booking"), JObj(args)).payload))],
      Ok(JObj(map["function_called" := JStr("create_booking"), "arguments" := JObj(args), "result" := answer])))
  {
  }

  /** A dispatched cancel posts to the booking's cancel URL and returns Cal.com's
      answer unchanged under "result". */
  lemma CancelResultPassedThrough(cal: Cal.CalClient, resp: OpenAI.Completion, rt: Runtime, send: Cal.HttpRequest -> Cal.Reply,
                                  args: map<string, Json>, uid: string, answer: Json)
    requires CallIntent(resp, rt.decode) == Some((JStr("cancel_booking"), JObj(args)))
    requires "booking_id" in args && args["booking_id"] == JStr(uid)
    requires send(cal.CancelRequest(uid, JNull)) == Cal.Received(answer)
    ensures Respond(cal, resp, rt, send) == Handled(
      [CalCall(cal.CancelRequest(uid, JNull))],
      Ok(JObj(map["function_called" := JStr("cancel_booking"), "arguments" := JObj(args), "result" := answer])))
  {
  }

  /** A chat booking carries the model's start time, name and email, the default
      event type and slug, the note "chat booking" and nothing else. */
  lemma {:induction false} ChatCreateUsesDefaults(args: map<string, Json>)
    ensures Route(JStr("create_booking"), JObj(args)).CreateCall?
    ensures Utils.ReadPayload(Route(JStr("create_booking"), JObj(args)).payload)
      == Some(Utils.BookingArguments(Lookup(args, "start_time"), Lookup(args, "customer_name"), Lookup(args, "customer_email"),
                                     JInt(Utils.DefaultEventTypeId), "30min", ChatNote, "America/Los_Angeles", "en"))
  {
    Utils.ReadInvertsBuild(Lookup(args, "start_time"), Lookup(args, "customer_name"), Lookup(args, "customer_email"),
                           JNull, Utils.DefaultEventTypeSlug, ChatNote, Utils.DefaultTimeZone, Utils.DefaultLanguage);
  }

  /** With the SDK's response object no call is ever dispatched: the reply is the
      first choice; with a mapping the reply is never a choice but `str(resp)`. */
  lemma ResponseShapeDecidesReply(cal: Cal.CalClient, resp: OpenAI.Completion, rt: Runtime, send: Cal.HttpRequest -> Cal.Reply)
    ensures resp.SdkObject? && resp.choices != [] ==>
      Respond(cal, resp, rt, send) == Handled([], Ok(JObj(map["assistant" := resp.choices[0]])))
    ensures resp.Mapping? && CallIntent(resp, rt.decode).None? ==>
      Respond(cal, resp, rt, send) == Handled([], Ok(JObj(map["assistant" := JStr(rt.showResponse(resp))])))
  {
    if resp.SdkObject? {
      OpenAI.UnindexableResponseYieldsNone(resp, rt.decode);
    }
  }

  /** Every declared function name has a dispatch branch. */
  lemma DeclaredNamesAreDispatched(args: Json)
    ensures forall d | d in Tools.Functions :: Route(JStr(d.name), args) != Answer(UnknownFunction)
  {
  }

  /** The arguments restricted to the properties a declaration names. */
  function DeclaredOnly(args: map<string, Json>, d: Tools.Declaration): (r: map<string, Json>)
    ensures r.Keys == args.Keys * d.properties.Keys
    ensures forall k | k in r :: r[k] == args[k]
  {
    map k | k in args && k in d.properties :: args[k]
  }

  /** The dispatcher reads only declared properties: dropping every undeclared
      key from a dict of arguments changes nothing. */
  lemma {:induction false} RouteReadsOnlyDeclaredProperties(args: map<string, Json>)
    ensures forall d | d in Tools.Functions :: Route(JStr(d.name), JObj(args)) == Route(JStr(d.name), JObj(DeclaredOnly(args, d)))
  {
    forall d | d in Tools.Functions
      ensures Route(JStr(d.name), JObj(args)) == Route(JStr(d.name), JObj(DeclaredOnly(args, d)))
    {
      var declared := DeclaredOnly(args, d);
      if d == Tools.Functions[0] {
        assert Lookup(declared, "status") == Lookup(args, "status");
        assert Lookup(declared, "user_email") == Lookup(args, "user_email");
      } else if d == Tools.Functions[1] {
        assert Lookup(declared, "start_time") == Lookup(args, "start_time");
        assert Lookup(declared, "customer_name") == Lookup(args, "customer_name");
        assert Lookup(declared, "customer_email") == Lookup(args, "customer_email");
      } else {
        assert ("booking_id" in declared) == ("booking_id" in args);
      }
    }
  }

  /** A dict holding every required argument of a declared function never makes
      the dispatcher raise. */
  lemma RequiredArgumentsSuffice(args: map<string, Json>)
    ensures forall d | d in Tools.Functions && (forall r | r in d.required :: r in args) ::
      !Route(JStr(d.name), JObj(args)).Raise?
  {
    assert Tools.Functions[2].required == ["booking_id"];
  }

  // Properties of the direct endpoints

  /** `/book` passes the request's event type id, falling back only when it is
      empty, and the note "API booking". */
  lemma {:induction false} BookPassesEventType(req: BookRequest)
    ensures Utils.ReadPayload(BookPayload(req))
      == Some(Utils.BookingArguments(JStr(req.startTime), JStr(req.customerName), JStr(req.customerEmail),
                                     if req.eventTypeId != "" then JStr(req.eventTypeId) else JInt(Utils.DefaultEventTypeId),
                                     "30min", ApiNote, "America/Los_Angeles", "en"))
  {
    Utils.ReadInvertsBuild(JStr(req.startTime), JStr(req.customerName), JStr(req.customerEmail), JStr(req.eventTypeId),
                           Utils.DefaultEventTypeSlug, ApiNote, Utils.DefaultTimeZone, Utils.DefaultLanguage);
  }

  /** `/list` asks for `take` as the integer 100, the chat's list call as the string "100". */
  lemma ListTakeDiffers(req: ListRequest, args: map<string, Json>)
    ensures ListQuery(req).fields["take"] == JInt(100)
    ensures Route(JStr("list_bookings"), JObj(args)).params.fields["take"] == JStr("100")
    ensures ListQuery(req).fields.Keys == {"attendeeEmail", "take"}
  {
  }
}
