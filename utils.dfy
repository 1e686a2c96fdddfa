/** The create-booking body builder shared by the chat and booking endpoints,
    and the construction of both external clients with its error wrapping. */
module Utils {
  import opened Values
  import Cal
  import OpenAI

  /** The event type booked when the caller names none (kept for backwards compatibility). */
  const DefaultEventTypeId := 3778941
  const DefaultEventTypeSlug := "30min"
  const DefaultTimeZone := "America/Los_Angeles"
  const DefaultLanguage := "en"

  const PayloadKeys := {"start", "attendee", "eventTypeId", "eventTypeSlug", "location", "metadata"}
  const AttendeeKeys := {"name", "email", "timeZone", "language"}

  /** The one meeting location every booking gets. */
  const GoogleMeet: Json := JObj(map["type" := JStr("integration"), "integration" := JStr("google-meet")])

  /** `build_booking_payload`. The start time is passed through unchecked; a
      falsy event type id (None, 0, "") falls back to the default one. */
  function BuildBookingPayload(start: Json, customerName: Json, customerEmail: Json,
                               eventTypeId: Json := JNull, eventTypeSlug: string := DefaultEventTypeSlug,
                               note: string := "", timeZone: string := DefaultTimeZone,
                               language: string := DefaultLanguage): (p: Json)
    ensures p.JObj? && p.fields.Keys == PayloadKeys
    ensures p.fields["start"] == start
    ensures p.fields["attendee"].JObj? && p.fields["attendee"].fields.Keys == AttendeeKeys
    ensures p.fields["attendee"].fields["name"] == customerName && p.fields["attendee"].fields["email"] == customerEmail
    ensures Truthy(eventTypeId) ==> p.fields["eventTypeId"] == eventTypeId
    ensures p.fields["eventTypeId"] == JInt(DefaultEventTypeId) <==> !Truthy(eventTypeId) || eventTypeId == JInt(DefaultEventTypeId)
    ensures p.fields["location"] == GoogleMeet
    ensures p.fields["metadata"] == JObj(map["note" := JStr(note)])
  {
    JObj(map[
      "start" := start,
      "attendee" := JObj(map["name" := customerName, "email" := customerEmail,
                             "timeZone" := JStr(timeZone), "language" := JStr(language)]),
      "eventTypeId" := Or(eventTypeId, JInt(DefaultEventTypeId)),
      "eventTypeSlug" := JStr(eventTypeSlug),
      "location" := GoogleMeet,
      "metadata" := JObj(map["note" := JStr(note)])
    ])
  }

  /** The builder's arguments, with the event type id already resolved. */
  datatype BookingArguments = BookingArguments(
    start: Json, customerName: Json, customerEmail: Json, eventTypeId: Json,
    eventTypeSlug: string, note: string, timeZone: string, language: string)

  /** Reads a create body of exactly the builder's shape back into its arguments;
      None for any body of another shape. */
  function ReadPayload(p: Json): Option<BookingArguments> {
    if && p.JObj? && p.fields.Keys == PayloadKeys
       && p.fields["attendee"].JObj? && p.fields["attendee"].fields.Keys == AttendeeKeys
       && p.fields["attendee"].fields["timeZone"].JStr? && p.fields["attendee"].fields["language"].JStr?
       && p.fields["eventTypeSlug"].JStr?
       && p.fields["location"] == GoogleMeet
       && p.fields["metadata"].JObj? && p.fields["metadata"].fields.Keys == {"note"}
       && p.fields["metadata"].fields["note"].JStr?
    then
      var attendee := p.fields["attendee"].fields;
      Some(BookingArguments(p.fields["start"], attendee["name"], attendee["email"], p.fields["eventTypeId"],
                            p.fields["eventTypeSlug"].s, p.fields["metadata"].fields["note"].s,
                            attendee["timeZone"].s, attendee["language"].s))
    else None
  }

  /** Nothing is lost or invented: reading a built body gives back every argument,
      with the event type id resolved. */
  lemma {:induction false} ReadInvertsBuild(start: Json, customerName: Json, customerEmail: Json, eventTypeId: Json,
                                            eventTypeSlug: string, note: string, timeZone: string, language: string)
    ensures ReadPayload(BuildBookingPayload(start, customerName, customerEmail, eventTypeId, eventTypeSlug, note, timeZone, language))
      == Some(BookingArguments(start, customerName, customerEmail, Or(eventTypeId, JInt(DefaultEventTypeId)),
                               eventTypeSlug, note, timeZone, language))
  {
    var p := BuildBookingPayload(start, customerName, customerEmail, eventTypeId, eventTypeSlug, note, timeZone, language);
    assert p.fields["metadata"].fields.Keys == {"note"};
  }

  /** Two calls give the same body exactly when they agree on every argument,
      event type ids compared after the fallback: no hidden or injected field. */
  lemma {:induction false} BuildIsInjective(
      s1: Json, n1: Json, e1: Json, id1: Json, slug1: string, note1: string, tz1: string, lang1: string,
      s2: Json, n2: Json, e2: Json, id2: Json, slug2: string, note2: string, tz2: string, lang2: string)
    ensures (BuildBookingPayload(s1, n1, e1, id1, slug1, note1, tz1, lang1) == BuildBookingPayload(s2, n2, e2, id2, slug2, note2, tz2, lang2))
        <==> (BookingArguments(s1, n1, e1, Or(id1, JInt(DefaultEventTypeId)), slug1, note1, tz1, lang1)
              == BookingArguments(s2, n2, e2, Or(id2, JInt(DefaultEventTypeId)), slug2, note2, tz2, lang2))
  {
    ReadInvertsBuild(s1, n1, e1, id1, slug1, note1, tz1, lang1);
    ReadInvertsBuild(s2, n2, e2, id2, slug2, note2, tz2, lang2);
  }

  /** Omitted optional arguments give the documented defaults. */
  lemma DefaultsWhenOmitted(start: Json, customerName: Json, customerEmail: Json)
    ensures ReadPayload(BuildBookingPayload(start, customerName, customerEmail))
      == Some(BookingArguments(start, customerName, customerEmail, JInt(3778941), "30min", "", "America/Los_Angeles", "en"))
  {
    ReadInvertsBuild(start, customerName, customerEmail, JNull, DefaultEventTypeSlug, "", DefaultTimeZone, DefaultLanguage);
  }

  /** None, 0 and "" as event type id all book the default event type. */
  lemma FalsyEventTypeIdsFallBack(start: Json, customerName: Json, customerEmail: Json)
    ensures var omitted := BuildBookingPayload(start, customerName, customerEmail);
      && BuildBookingPayload(start, customerName, customerEmail, JInt(0)) == omitted
      && BuildBookingPayload(start, customerName, customerEmail, JStr("")) == omitted
      && omitted.fields["eventTypeId"] == JInt(3778941)
  {
  }

  datatype ClientInitError = ClientInitError(message: string)

  const ClientInitMessage := "Failed to initialize external clients"

  /** `create_clients`: the Cal.com client from the environment's key and base URL
      (default "https://api.cal.com"), the OpenAI client from the environment's key;
      a failure is re-raised as ClientInitError. `settings` holds the client module's
      import-time constants, `defaultOpenAIKey` the completion module's. */
  method CreateClients(env: Cal.Environment, settings: Cal.Settings, defaultOpenAIKey: Option<string>)
    returns (r: Result<(Cal.CalClient, OpenAI.OpenAIClient), ClientInitError>)
    ensures r.Failure? <==> !Present(OrElse(Cal.EnvGet(env, "CAL_COM_API_KEY"), settings.apiKey))
    ensures r.Failure? ==> r.error == ClientInitError(ClientInitMessage)
    ensures r.Success? ==> r.value.0.Valid() && r.value.0.settings == settings
    ensures r.Success? ==> r.value.0.apiKey == OrElse(Cal.EnvGet(env, "CAL_COM_API_KEY"), settings.apiKey).value
    ensures r.Success? ==> r.value.0.timeout == 10 && r.value.1.timeout == 60
    ensures r.Success? ==>
      r.value.0.base == Cal.TrimTrailingSlashes(OrElse(Some(Cal.EnvGetOr(env, "CAL_COM_BASE_URL", Cal.DefaultBase)), Some(settings.base)).value)
    ensures r.Success? ==> r.value.1.apiKey == OrElse(Cal.EnvGet(env, "OPENAI_API_KEY"), defaultOpenAIKey)
    ensures r.Success? ==> r.value.1.model == OpenAI.DefaultModel
  {
    var calKey := Cal.EnvGet(env, "CAL_COM_API_KEY");
    var calBase := Cal.EnvGetOr(env, "CAL_COM_BASE_URL", Cal.DefaultBase);
    var cal := Cal.NewCalClient(settings, calKey, Some(calBase));
    if cal.Failure? {
      return Failure(ClientInitError(ClientInitMessage));
    }
    var openai := new OpenAI.OpenAIClient(defaultOpenAIKey, Cal.EnvGet(env, "OPENAI_API_KEY"));
    r := Success((cal.value, openai));
  }
}
