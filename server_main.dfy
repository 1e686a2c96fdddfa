/** The older copy of the app under `server/`. Its Cal.com client is a module
    global built once at import (None when construction fails), its model call
    is a module-level function, its function table also declares `end_time`,
    and its chat create body is written out inline instead of using the shared
    builder. The client and completion modules it imports are taken to behave
    like the top-level ones. */
module ServerApp {
  import opened Values
  import Cal
  import OpenAI
  import Tools
  import Utils
  import opened Web
  import MainApp

  /** The `/book` request of this copy: optional end time and notes. */
  datatype BookRequest = BookRequest(eventTypeId: string, startTime: string, endTime: Option<string>,
                                     customerName: string, customerEmail: string, notes: Option<string>)

  /** The module global `cal`: the client built from the import-time settings,
      or None when construction raises. */
  method ImportCal(settings: Cal.Settings) returns (cal: Option<Cal.CalClient>)
    ensures cal.None? <==> !Present(settings.apiKey)
    ensures cal.Some? ==> fresh(cal.value) && cal.value.Valid() && cal.value.apiKey == settings.apiKey.value && cal.value.settings == settings
    ensures cal.Some? ==> cal.value.base == Cal.TrimTrailingSlashes(settings.base) && cal.value.timeout == 10
  {
    var r := Cal.NewCalClient(settings);
    if r.Failure? {
      return None;
    }
    cal := Some(r.value);
  }

  /** This copy's `FUNCTIONS`: the shared table with an `end_time` property on the create call. */
  const ServerFunctions: seq<Tools.Declaration> := [
    Tools.Declaration("list_bookings", "List bookings for a user by email",
                      map["user_email" := Tools.EmailProperty, "status" := Tools.StatusProperty],
                      []),
    Tools.Declaration("create_booking", "Create a new booking using cal.com",
                      map["start_time" := Tools.StringProperty, "end_time" := Tools.StringProperty,
                          "customer_name" := Tools.StringProperty, "customer_email" := Tools.EmailProperty],
                      ["start_time", "customer_name", "customer_email"]),
    Tools.Declaration("cancel_booking", "Cancel an existing booking by booking id",
                      map["booking_id" := Tools.StringProperty],
                      ["booking_id"])
  ]

  /** The two tables differ only in the optional `end_time` of the create call. */
  lemma TablesDifferOnlyInEndTime()
    ensures |ServerFunctions| == |Tools.Functions|
    ensures ServerFunctions[0] == Tools.Functions[0] && ServerFunctions[2] == Tools.Functions[2]
    ensures ServerFunctions[1] == Tools.Functions[1].(properties := Tools.Functions[1].properties["end_time" := Tools.StringProperty])
    ensures "end_time" !in Tools.Functions[1].properties && "end_time" !in ServerFunctions[1].required
  {
  }

  const InlineMetadata: Json := JObj(map["key" := JStr("value")])

  /** The create body the chat writes inline: start and end from the arguments,
      the attendee with fixed time zone and language, and a fixed event type,
      slug, location, metadata and length. */
  function InlineCreatePayload(args: map<string, Json>): (p: Json)
    ensures p.JObj? && p.fields.Keys == Utils.PayloadKeys + {"end", "lengthInMinutes"}
    ensures p.fields["start"] == Lookup(args, "start_time") && p.fields["end"] == Lookup(args, "end_time")
    ensures p.fields["eventTypeId"] == JInt(Utils.DefaultEventTypeId) && p.fields["lengthInMinutes"] == JInt(30)
    ensures p.fields["metadata"] == InlineMetadata && p.fields["location"] == Utils.GoogleMeet
  {
    JObj(map[
      "start" := Lookup(args, "start_time"),
      "end" := Lookup(args, "end_time"),
      "attendee" := JObj(map["name" := Lookup(args, "customer_name"), "email" := Lookup(args, "customer_email"),
                             "timeZone" := JStr(Utils.DefaultTimeZone), "language" := JStr(Utils.DefaultLanguage)]),
      "eventTypeId" := JInt(Utils.DefaultEventTypeId),
      "eventTypeSlug" := JStr(Utils.DefaultEventTypeSlug),
      "location" := Utils.GoogleMeet,
      "metadata" := InlineMetadata,
      "lengthInMinutes" := JInt(30)
    ])
  }

  /** This copy's dispatcher: the current one's, with the inline create body. */
  function Route(name: Json, args: Json): (a: Action)
    ensures name != JStr("create_booking") ==> a == MainApp.Route(name, args)
    ensures name == JStr("create_booking") ==> a == (if args.JObj? then CreateCall(InlineCreatePayload(args.fields))
                                                     else Raise(NoAttribute(args, "get")))
  {
    if name == JStr("create_booking") then
      if !args.JObj? then Raise(NoAttribute(args, "get")) else CreateCall(InlineCreatePayload(args.fields))
    else MainApp.Route(name, args)
  }

  /** Both chat create bodies share the builder's keys and agree on all of them
      but the metadata; the inline one adds `end` and `lengthInMinutes` and is
      not of the builder's shape. */
  lemma {:induction false} CreateBodiesDiffer(args: map<string, Json>)
    ensures var current := MainApp.Route(JStr("create_booking"), JObj(args)).payload;
            var inline := Route(JStr("create_booking"), JObj(args)).payload;
      && inline.fields.Keys == current.fields.Keys + {"end", "lengthInMinutes"}
      && (forall k | k in current.fields && k != "metadata" :: inline.fields[k] == current.fields[k])
      && inline.fields["metadata"] != current.fields["metadata"]
      && Utils.ReadPayload(inline) == None
  {
    var current := Utils.BuildBookingPayload(Lookup(args, "start_time"), Lookup(args, "customer_name"),
                                             Lookup(args, "customer_email"), note := MainApp.ChatNote);
    assert MainApp.Route(JStr("create_booking"), JObj(args)).payload == current;
    assert Route(JStr("create_booking"), JObj(args)).payload == InlineCreatePayload(args);
    InlineExtendsBuilder(args, current);
    InlineMetadataDiffers(args, current);
  }

  /** The inline body holds every key of the chat's builder body, with the same
      value except the metadata, and two more. */
  lemma {:induction false} InlineExtendsBuilder(args: map<string, Json>, current: Json)
    requires current == Utils.BuildBookingPayload(Lookup(args, "start_time"), Lookup(args, "customer_name"),
                                                  Lookup(args, "customer_email"), note := MainApp.ChatNote)
    ensures current.JObj? && InlineCreatePayload(args).fields.Keys == current.fields.Keys + {"end", "lengthInMinutes"}
    ensures forall k | k in current.fields && k != "metadata" :: InlineCreatePayload(args).fields[k] == current.fields[k]
  {
    var inline := InlineCreatePayload(args);
    forall k | k in current.fields && k != "metadata"
      ensures inline.fields[k] == current.fields[k]
    {
      assert k in Utils.PayloadKeys;
    }
  }

  /** The inline body's metadata is not the builder's, and the strict reader of
      builder bodies refuses it. */
  lemma {:induction false} InlineMetadataDiffers(args: map<string, Json>, current: Json)
    requires current == Utils.BuildBookingPayload(Lookup(args, "start_time"), Lookup(args, "customer_name"),
                                                  Lookup(args, "customer_email"), note := MainApp.ChatNote)
    ensures current.JObj? && InlineCreatePayload(args).fields["metadata"] != current.fields["metadata"]
    ensures Utils.ReadPayload(InlineCreatePayload(args)) == None
  {
    var inline := InlineCreatePayload(args);
    assert current.fields["metadata"].fields.Keys == {"note"};
    assert "key" in inline.fields["metadata"].fields;
    assert "end" in inline.fields && "end" !in Utils.PayloadKeys;
  }

  /** `resp["choices"][0]["message"]["content"]` when every subscript succeeds;
      None where one of them would raise. */
  function ContentPath(resp: OpenAI.Completion): (c: Option<Json>)
    ensures resp.SdkObject? ==> c.None?
    ensures c.Some? <==>
      && OpenAI.FirstChoice(resp).Some? && OpenAI.FirstChoice(resp).value.JObj?
      && "message" in OpenAI.FirstChoice(resp).value.fields
      && OpenAI.FirstChoice(resp).value.fields["message"].JObj?
      && "content" in OpenAI.FirstChoice(resp).value.fields["message"].fields
    ensures c.Some? ==> c.value == OpenAI.FirstChoice(resp).value.fields["message"].fields["content"]
  {
    match OpenAI.FirstChoice(resp)
    case None => None
    case Some(choice) =>
      if choice.JObj? && "message" in choice.fields && choice.fields["message"].JObj?
         && "content" in choice.fields["message"].fields
      then Some(choice.fields["message"].fields["content"])
      else None
  }

  /** The no-call reply: the message content when the subscripts succeed,
      otherwise `str(resp)`. */
  function Assistant(resp: OpenAI.Completion, showResponse: OpenAI.Completion -> string): (a: Json)
    ensures resp.SdkObject? ==> a == JStr(showResponse(resp))
    ensures ContentPath(resp).Some? ==> a == ContentPath(resp).value
    ensures ContentPath(resp).None? ==> a == JStr(showResponse(resp))
  {
    match ContentPath(resp)
    case Some(content) => content
    case None => JStr(showResponse(resp))
  }

  /** What this `/chat` does once the model has answered. */
  function Respond(cal: Cal.CalClient, resp: OpenAI.Completion, rt: Runtime, send: Cal.HttpRequest -> Cal.Reply): (h: Handled)
    ensures |h.calls| <= 1 && forall c | c in h.calls :: c.CalCall?
    ensures CallIntent(resp, rt.decode).None? ==> h == Handled([], Ok(JObj(map["assistant" := Assistant(resp, rt.showResponse)])))
    ensures h.response.Err? ==> h.response.status == 500 && h.response.detail.CalComError?
    ensures CallIntent(resp, rt.decode).Some? ==> DispatchesAsRouted(cal, CallIntent(resp, rt.decode).value, Route(CallIntent(resp, rt.decode).value.0, CallIntent(resp, rt.decode).value.1), rt.show, send, h)
  {
    match CallIntent(resp, rt.decode)
    case None => Handled([], Ok(JObj(map["assistant" := Assistant(resp, rt.showResponse)])))
    case Some((name, args)) =>
      var done := Perform(cal, Route(name, args), send, rt.show);
      Handled(done.calls, DispatchReply(name, args, done.outcome))
  }

  /** Given the same answer from the model, the two copies agree on every
      dispatched call but a create. */
  lemma RespondsAgreeExceptCreate(cal: Cal.CalClient, resp: OpenAI.Completion, rt: Runtime, send: Cal.HttpRequest -> Cal.Reply)
    requires CallIntent(resp, rt.decode).Some? && CallIntent(resp, rt.decode).value.0 != JStr("create_booking")
    ensures Respond(cal, resp, rt, send) == MainApp.Respond(cal, resp, rt, send)
  {
  }

  /** Without a call the copies reply differently: the SDK object's first choice
      against its `str()`, and a mapping's message content against its `str()`. */
  lemma {:induction false} NoCallRepliesDiffer(cal: Cal.CalClient, resp: OpenAI.Completion, rt: Runtime,
                                               send: Cal.HttpRequest -> Cal.Reply, content: Json)
    requires CallIntent(resp, rt.decode).None?
    ensures resp.SdkObject? ==>
      Respond(cal, resp, rt, send).response == Ok(JObj(map["assistant" := JStr(rt.showResponse(resp))]))
    ensures resp.SdkObject? && resp.choices != [] ==>
      MainApp.Respond(cal, resp, rt, send).response == Ok(JObj(map["assistant" := resp.choices[0]]))
    ensures resp == OpenAI.Mapping(JObj(map["choices" := JArr([JObj(map["message" := JObj(map["content" := content])])])])) ==>
      && Respond(cal, resp, rt, send).response == Ok(JObj(map["assistant" := content]))
      && MainApp.Respond(cal, resp, rt, send).response == Ok(JObj(map["assistant" := JStr(rt.showResponse(resp))]))
  {
    if resp.Mapping? {
      var choice := JObj(map["message" := JObj(map["content" := content])]);
      if resp == OpenAI.Mapping(JObj(map["choices" := JArr([choice])])) {
        assert OpenAI.FirstChoice(resp) == Some(choice);
        assert "message" in choice.fields && "content" in choice.fields["message"].fields;
      }
    }
  }

  /** `/chat`: refuse without the client; otherwise one model call with this
      copy's table, then at most one Cal.com call. */
  function Chat(cal: Option<Cal.CalClient>, req: MainApp.ChatRequest, rt: Runtime,
                complete: (Json, Json) -> Result<OpenAI.Completion, string>, send: Cal.HttpRequest -> Cal.Reply): (h: Handled)
    ensures cal.None? ==> h == Handled([], Err(500, Message(MainApp.ChatNotConfigured)))
    ensures cal.Some? ==> |h.calls| >= 1 && h.calls[0] == ServerModelCall(ChatMessages(req.message, req.userEmail), Tools.WireAll(ServerFunctions))
    ensures |h.calls| <= 2 && forall i | 1 <= i < |h.calls| :: h.calls[i].CalCall?
    ensures h.response.Err? ==> h.response.status == 500
    ensures cal.Some? && complete(ChatMessages(req.message, req.userEmail), Tools.WireAll(ServerFunctions)).Failure? ==>
      h.response == Err(500, Message(complete(ChatMessages(req.message, req.userEmail), Tools.WireAll(ServerFunctions)).error))
      && |h.calls| == 1
    ensures cal.Some? && complete(ChatMessages(req.message, req.userEmail), Tools.WireAll(ServerFunctions)).Success? ==>
      var rest := Respond(cal.value, complete(ChatMessages(req.message, req.userEmail), Tools.WireAll(ServerFunctions)).value, rt, send);
      h.calls[1..] == rest.calls && h.response == rest.response
  {
    match cal
    case None => Handled([], Err(500, Message(MainApp.ChatNotConfigured)))
    case Some(client) =>
      var messages := ChatMessages(req.message, req.userEmail);
      var functions := Tools.WireAll(ServerFunctions);
      var call := ServerModelCall(messages, functions);
      match complete(messages, functions)
      case Failure(message) => Handled([call], Err(500, Message(message)))
      case Success(resp) =>
        var rest := Respond(client, resp, rt, send);
        Handled([call] + rest.calls, rest.response)
  }

  function OptionalString(s: Option<string>): Json {
    match s
    case None => JNull
    case Some(v) => JStr(v)
  }

  /** The body `/book` sends: the request's fields as they are, with no default. */
  function BookPayload(req: BookRequest): (p: Json)
    ensures p.JObj? && p.fields.Keys == {"eventTypeId", "start", "end", "attendee", "notes"}
    ensures p.fields["eventTypeId"] == JStr(req.eventTypeId) && p.fields["start"] == JStr(req.startTime)
    ensures p.fields["end"] == (if req.endTime.Some? then JStr(req.endTime.value) else JNull)
    ensures p.fields["notes"] == (if req.notes.Some? then JStr(req.notes.value) else JNull)
    ensures p.fields["attendee"] == JObj(map["name" := JStr(req.customerName), "email" := JStr(req.customerEmail)])
  {
    JObj(map[
      "eventTypeId" := JStr(req.eventTypeId),
      "start" := JStr(req.startTime),
      "end" := OptionalString(req.endTime),
      "attendee" := JObj(map["name" := JStr(req.customerName), "email" := JStr(req.customerEmail)]),
      "notes" := OptionalString(req.notes)
    ])
  }

  /** An empty event type id is sent as it is here, where the current copy books
      the default event type. */
  lemma {:induction false} EmptyEventTypeIdDiffers(req: BookRequest)
    requires req.eventTypeId == ""
    ensures BookPayload(req).fields["eventTypeId"] == JStr("")
    ensures var current := MainApp.BookPayload(MainApp.BookRequest(req.eventTypeId, req.startTime, req.customerName, req.customerEmail));
      current.fields["eventTypeId"] == JInt(Utils.DefaultEventTypeId)
  {
    var current := MainApp.BookRequest(req.eventTypeId, req.startTime, req.customerName, req.customerEmail);
    assert !Truthy(JStr(current.eventTypeId));
  }

  /** `/book`: create the booking and return Cal.com's answer as it is. */
  function Book(cal: Option<Cal.CalClient>, req: BookRequest, send: Cal.HttpRequest -> Cal.Reply): (h: Handled)
    ensures cal.None? ==> h == Handled([], Err(500, Message(MainApp.NotConfigured)))
    ensures cal.Some? ==> h.calls == [CalCall(cal.value.CreateRequest(BookPayload(req)))]
    ensures cal.Some? && send(h.calls[0].request).Received? ==> h.response == Ok(send(h.calls[0].request).body)
    ensures cal.Some? && !send(h.calls[0].request).Received? ==>
      h.response == Err(500, Message(Cal.Relay("create_booking", send(h.calls[0].request)).error.message))
    ensures h.response.Err? ==> h.response.status == 500
  {
    match cal
    case None => Handled([], Err(500, Message(MainApp.NotConfigured)))
    case Some(client) =>
      var request := client.CreateRequest(BookPayload(req));
      Handled([CalCall(request)], MainApp.Plain(Cal.Relay("create_booking", send(request))))
  }

  /** `/list`: the same query and reply as the current copy. */
  function List(cal: Option<Cal.CalClient>, req: MainApp.ListRequest, send: Cal.HttpRequest -> Cal.Reply): (h: Handled)
    ensures cal.None? ==> h == Handled([], Err(500, Message(MainApp.NotConfigured)))
    ensures cal.Some? ==> h.calls == [CalCall(cal.value.ListRequest(MainApp.ListQuery(req)))]
    ensures cal.Some? && send(h.calls[0].request).Received? ==>
      h.response == Ok(JObj(map["bookings" := send(h.calls[0].request).body]))
    ensures cal.Some? && !send(h.calls[0].request).Received? ==>
      h.response == Err(500, Message(Cal.Relay("list_bookings", send(h.calls[0].request)).error.message))
    ensures h.response.Err? ==> h.response.status == 500
  {
    match cal
    case None => Handled([], Err(500, Message(MainApp.NotConfigured)))
    case Some(client) =>
      var request := client.ListRequest(MainApp.ListQuery(req));
      var r := Cal.Relay("list_bookings", send(request));
      Handled([CalCall(request)], if r.Success? then Ok(JObj(map["bookings" := r.value])) else Err(500, Message(r.error.message)))
  }

  /** `/cancel`: cancel the booking with that uid and return Cal.com's answer. */
  function Cancel(cal: Option<Cal.CalClient>, req: MainApp.CancelRequest, send: Cal.HttpRequest -> Cal.Reply): (h: Handled)
    ensures cal.None? ==> h == Handled([], Err(500, Message(MainApp.NotConfigured)))
    ensures cal.Some? ==> h.calls == [CalCall(cal.value.CancelRequest(req.bookingId, JNull))]
    ensures cal.Some? && send(h.calls[0].request).Received? ==> h.response == Ok(send(h.calls[0].request).body)
    ensures cal.Some? && !send(h.calls[0].request).Received? ==>
      h.response == Err(500, Message(Cal.Relay("cancel_booking", send(h.calls[0].request)).error.message))
    ensures h.response.Err? ==> h.response.status == 500
  {
    match cal
    case None => Handled([], Err(500, Message(MainApp.NotConfigured)))
    case Some(client) =>
      var request := client.CancelRequest(req.bookingId, JNull);
      Handled([CalCall(request)], MainApp.Plain(Cal.Relay("cancel_booking", send(request))))
  }

  /** Without the client every endpoint answers 500 and calls nothing upstream. */
  lemma EveryEndpointNeedsTheClient(chat: MainApp.ChatRequest, book: BookRequest, list: MainApp.ListRequest,
                                    cancel: MainApp.CancelRequest, rt: Runtime,
                                    complete: (Json, Json) -> Result<OpenAI.Completion, string>, send: Cal.HttpRequest -> Cal.Reply)
    ensures forall h | h in {Chat(None, chat, rt, complete, send), Book(None, book, send), List(None, list, send), Cancel(None, cancel, send)} ::
      h.calls == [] && h.response.Err? && h.response.status == 500
  {
  }
}
