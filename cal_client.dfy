/** The Cal.com API client: credentials and base URL fixed at construction,
    per-endpoint `cal-api-version` headers, the three booking requests, and the
    translation of every upstream failure into a `CalClientError`. The HTTP
    transfer itself is the oracle `send`, which answers a request with a
    decoded body, an HTTP error (with the response text when there is one), or
    some other failure. */
module Cal {
  import opened Values

  const DefaultBase := "https://api.cal.com"
  const DefaultVersionBookings := "2024-08-13"
  const DefaultVersionSlots := "2024-09-04"
  const VersionHeader := "cal-api-version"
  const MissingKeyMessage := "CAL_COM_API_KEY is not set in environment or passed to CalClient"

  /** The process environment, `os.environ`. */
  type Environment = map<string, string>

  /** `os.environ.get(name)`. */
  function EnvGet(env: Environment, name: string): Option<string> {
    if name in env then Some(env[name]) else None
  }

  /** `os.environ.get(name, default)`: the default only when the variable is unset. */
  function EnvGetOr(env: Environment, name: string, default: string): string {
    if name in env then env[name] else default
  }

  /** The module-level constants of the client module, read once from the environment. */
  datatype Settings = Settings(apiKey: Option<string>, base: string, versionBookings: string, versionSlots: string)

  function SettingsFrom(env: Environment): (s: Settings)
    ensures "CAL_COM_API_KEY" !in env ==> s.apiKey == None
    ensures "CAL_COM_BASE_URL" !in env ==> s.base == DefaultBase
    ensures "CAL_COM_API_VERSION_BOOKINGS" !in env ==> s.versionBookings == DefaultVersionBookings
    ensures "CAL_COM_API_VERSION_SLOTS" !in env ==> s.versionSlots == DefaultVersionSlots
    ensures "CAL_COM_API_KEY" in env ==> s.apiKey == Some(env["CAL_COM_API_KEY"])
    ensures "CAL_COM_BASE_URL" in env ==> s.base == env["CAL_COM_BASE_URL"]
    ensures "CAL_COM_API_VERSION_BOOKINGS" in env ==> s.versionBookings == env["CAL_COM_API_VERSION_BOOKINGS"]
    ensures "CAL_COM_API_VERSION_SLOTS" in env ==> s.versionSlots == env["CAL_COM_API_VERSION_SLOTS"]
  {
    Settings(
      EnvGet(env, "CAL_COM_API_KEY"),
      EnvGetOr(env, "CAL_COM_BASE_URL", DefaultBase),
      EnvGetOr(env, "CAL_COM_API_VERSION_BOOKINGS", DefaultVersionBookings),
      EnvGetOr(env, "CAL_COM_API_VERSION_SLOTS", DefaultVersionSlots))
  }

  /** The exception the client raises; `str()` of it is its message. */
  datatype CalClientError = CalClientError(message: string)

  /** `s.rstrip("/")`: the longest prefix of `s` that does not end in a slash,
      everything after it being slashes. */
  function TrimTrailingSlashes(s: string): (r: string)
    ensures r <= s
    ensures r == [] || r[|r| - 1] != '/'
    ensures forall i | |r| <= i < |s| :: s[i] == '/'
  {
    if s != [] && s[|s| - 1] == '/' then TrimTrailingSlashes(s[..|s| - 1]) else s
  }

  lemma {:induction false} TrimTrailingSlashesIdempotent(s: string)
    ensures TrimTrailingSlashes(TrimTrailingSlashes(s)) == TrimTrailingSlashes(s)
  {
    var r := TrimTrailingSlashes(s);
    assert r == [] || r[|r| - 1] != '/';
  }

  /** Only trailing slashes go: a string without one is kept as it is, and
      appending slashes to anything does not change the result. */
  lemma {:induction false} TrimTrailingSlashesIgnoresAppendedSlashes(s: string, n: nat)
    ensures TrimTrailingSlashes(s + seq(n, _ => '/')) == TrimTrailingSlashes(s)
    decreases n
  {
    if n > 0 {
      var t := s + seq(n, _ => '/');
      assert t[..|t| - 1] == s + seq(n - 1, _ => '/');
      TrimTrailingSlashesIgnoresAppendedSlashes(s, n - 1);
    } else {
      assert s + seq(n, _ => '/') == s;
    }
  }

  /** The headers common to every request. */
  function BaseHeaders(apiKey: string): map<string, string> {
    map["Authorization" := "Bearer " + apiKey,
        "Content-Type" := "application/json",
        "Accept" := "application/json"]
  }

  /** The headers `_headers_for` returns: a copy of the base headers, with the
      bookings version when `bookings` is set, overridden by the slots version
      when `slots` is set. */
  function VersionedHeaders(base: map<string, string>, settings: Settings, bookings: bool, slots: bool): (h: map<string, string>)
    ensures h.Keys == base.Keys + (if bookings || slots then {VersionHeader} else {})
    ensures forall k | k in base && k != VersionHeader :: h[k] == base[k]
    ensures slots ==> h[VersionHeader] == settings.versionSlots
    ensures bookings && !slots ==> h[VersionHeader] == settings.versionBookings
    ensures !bookings && !slots ==> h == base
  {
    if slots then base[VersionHeader := settings.versionSlots]
    else if bookings then base[VersionHeader := settings.versionBookings]
    else base
  }

  function BookingsUrl(base: string): string {
    base + "/v2/bookings"
  }

  function CancelUrl(base: string, bookingUid: string): string {
    base + "/v2/bookings/" + bookingUid + "/cancel"
  }

  /** What the client hands to the HTTP session. */
  datatype HttpRequest =
    | GetRequest(url: string, headers: map<string, string>, params: Json, timeout: int)
    | PostRequest(url: string, headers: map<string, string>, body: Json, timeout: int)

  /** What the session makes of a request: a decoded 2xx body, an HTTP error status
      (with `response.text` when the error carries a response), or any other failure. */
  datatype Reply = Received(body: Json) | HttpStatusError(responseText: Option<string>) | TransportError

  /** The try/except around each request: a received body is returned unchanged,
      an HTTP error becomes "<op> failed: <response text>" (an f-string, so a
      missing text reads "None"), any other failure "<op> failed". */
  function Relay(op: string, reply: Reply): (r: Result<Json, CalClientError>)
    ensures r.Success? <==> reply.Received?
    ensures reply.Received? ==> r.value == reply.body
    ensures reply.HttpStatusError? ==>
      r.error.message == op + " failed: " + (if reply.responseText.Some? then reply.responseText.value else "None")
    ensures reply.TransportError? ==> r.error.message == op + " failed"
  {
    match reply
    case Received(body) => Success(body)
    case HttpStatusError(text) =>
      Failure(CalClientError(op + " failed: " + (match text case Some(t) => t case None => "None")))
    case TransportError => Failure(CalClientError(op + " failed"))
  }

  /** An HTTP error carries the upstream response text: the message is the
      operation name, " failed: " and that text, so it ends with it. */
  lemma HttpErrorMessageEndsWithResponseText(op: string, text: string)
    ensures Relay(op, HttpStatusError(Some(text))).error.message == op + " failed: " + text
    ensures var m := Relay(op, HttpStatusError(Some(text))).error.message;
      |text| <= |m| && m[|m| - |text|..] == text && m[..|op|] == op
  {
    var m := Relay(op, HttpStatusError(Some(text))).error.message;
    assert m == op + " failed: " + text;
  }

  class CalClient {
    const apiKey: string
    const base: string
    const timeout: int
    const baseHeaders: map<string, string>
    /** The module-level constants the methods read. */
    const settings: Settings

    /** What `__init__` establishes when it does not raise. */
    predicate Valid() {
      && apiKey != ""
      && (base == [] || base[|base| - 1] != '/')
      && baseHeaders == BaseHeaders(apiKey)
    }

    /** The success path of `__init__`; `NewCalClient` below adds the raise. */
    constructor (settings: Settings, apiKey: Option<string>, baseUrl: Option<string>, timeout: int)
      requires Present(OrElse(apiKey, settings.apiKey))
      ensures Valid()
      ensures this.apiKey == OrElse(apiKey, settings.apiKey).value
      ensures base == TrimTrailingSlashes(OrElse(baseUrl, Some(settings.base)).value)
      ensures this.timeout == timeout && this.settings == settings
    {
      this.apiKey := OrElse(apiKey, settings.apiKey).value;
      base := TrimTrailingSlashes(OrElse(baseUrl, Some(settings.base)).value);
      this.timeout := timeout;
      baseHeaders := BaseHeaders(OrElse(apiKey, settings.apiKey).value);
      this.settings := settings;
    }

    /** `_headers_for`: copy the base headers, then set the version header. */
    method HeadersFor(bookings: bool := false, slots: bool := false) returns (h: map<string, string>)
      ensures h == VersionedHeaders(baseHeaders, settings, bookings, slots)
    {
      h := baseHeaders;
      if bookings {
        h := h[VersionHeader := settings.versionBookings];
      }
      if slots {
        h := h[VersionHeader := settings.versionSlots];
      }
    }

    function ListRequest(params: Json): HttpRequest {
      GetRequest(BookingsUrl(base), VersionedHeaders(baseHeaders, settings, true, false), Or(params, EmptyObject), timeout)
    }

    function CreateRequest(payload: Json): HttpRequest {
      PostRequest(BookingsUrl(base), VersionedHeaders(baseHeaders, settings, true, false), payload, timeout)
    }

    function CancelRequest(bookingUid: string, body: Json): HttpRequest {
      PostRequest(CancelUrl(base, bookingUid), VersionedHeaders(baseHeaders, settings, true, false), Or(body, EmptyObject), timeout)
    }

    /** `list_bookings`: GET /v2/bookings with the given query parameters. */
    method ListBookings(send: HttpRequest -> Reply, params: Json := JNull) returns (req: HttpRequest, r: Result<Json, CalClientError>)
      ensures req == ListRequest(params)
      ensures r == Relay("list_bookings", send(req))
    {
      var url := BookingsUrl(base);
      var headers := HeadersFor(bookings := true);
      req := GetRequest(url, headers, Or(params, EmptyObject), timeout);
      r := Relay("list_bookings", send(req));
    }

    /** `create_booking`: POST /v2/bookings with the payload as JSON body. */
    method CreateBooking(send: HttpRequest -> Reply, payload: Json) returns (req: HttpRequest, r: Result<Json, CalClientError>)
      ensures req == CreateRequest(payload)
      ensures r == Relay("create_booking", send(req))
    {
      var url := BookingsUrl(base);
      var headers := HeadersFor(bookings := true);
      req := PostRequest(url, headers, payload, timeout);
      r := Relay("create_booking", send(req));
    }

    /** `cancel_booking`: POST /v2/bookings/{uid}/cancel. */
    method CancelBooking(send: HttpRequest -> Reply, bookingUid: string, body: Json := JNull) returns (req: HttpRequest, r: Result<Json, CalClientError>)
      ensures req == CancelRequest(bookingUid, body)
      ensures r == Relay("cancel_booking", send(req))
    {
      var url := CancelUrl(base, bookingUid);
      var headers := HeadersFor(bookings := true);
      req := PostRequest(url, headers, Or(body, EmptyObject), timeout);
      r := Relay("cancel_booking", send(req));
    }
  }

  /** `CalClient(api_key, base_url, timeout)`: raises when neither the argument
      nor the environment supplies a non-empty key. */
  method NewCalClient(settings: Settings, apiKey: Option<string> := None, baseUrl: Option<string> := None, timeout: int := 10)
    returns (r: Result<CalClient, CalClientError>)
    ensures r.Failure? <==> !Present(OrElse(apiKey, settings.apiKey))
    ensures r.Failure? ==> r.error == CalClientError(MissingKeyMessage)
    ensures r.Success? ==> fresh(r.value) && r.value.Valid() && r.value.settings == settings && r.value.timeout == timeout
    ensures r.Success? ==> r.value.apiKey == OrElse(apiKey, settings.apiKey).value
    ensures r.Success? ==> r.value.base == TrimTrailingSlashes(OrElse(baseUrl, Some(settings.base)).value)
  {
    if !Present(OrElse(apiKey, settings.apiKey)) {
      return Failure(CalClientError(MissingKeyMessage));
    }
    var c := new CalClient(settings, apiKey, baseUrl, timeout);
    r := Success(c);
  }

  /** Every request of a constructed client carries the bearer credential, the JSON
      content headers and the bookings version tag, and goes to the bookings path. */
  lemma RequestsCarryCredentials(c: CalClient, params: Json, payload: Json, uid: string, body: Json)
    requires c.Valid()
    ensures forall req | req in {c.ListRequest(params), c.CreateRequest(payload), c.CancelRequest(uid, body)} ::
      && req.headers.Keys == {"Authorization", "Content-Type", "Accept", VersionHeader}
      && req.headers["Authorization"] == "Bearer " + c.apiKey
      && req.headers["Content-Type"] == "application/json" == req.headers["Accept"]
      && req.headers[VersionHeader] == c.settings.versionBookings
      && req.timeout == c.timeout
    ensures c.ListRequest(params).GetRequest? && c.ListRequest(params).url == c.base + "/v2/bookings"
    ensures c.CreateRequest(payload).PostRequest? && c.CreateRequest(payload).url == c.base + "/v2/bookings"
    ensures c.CancelRequest(uid, body).PostRequest? && c.CancelRequest(uid, body).url == c.base + "/v2/bookings/" + uid + "/cancel"
  {
  }

  /** Missing query parameters and a missing cancel body are sent as `{}`; a payload is sent as given. */
  lemma MissingParamsAndBodyDefaultToEmpty(c: CalClient, params: Json, payload: Json, uid: string, body: Json)
    ensures c.ListRequest(params).params == (if Truthy(params) then params else EmptyObject)
    ensures c.CancelRequest(uid, body).body == (if Truthy(body) then body else EmptyObject)
    ensures c.CreateRequest(payload).body == payload
  {
  }

  /** The slots version wins over the bookings version; no flag, no version header. */
  lemma VersionSelection(base: map<string, string>, s: Settings)
    requires VersionHeader !in base
    ensures VersionedHeaders(base, s, true, true)[VersionHeader] == s.versionSlots
    ensures VersionedHeaders(base, s, false, true)[VersionHeader] == s.versionSlots
    ensures VersionedHeaders(base, s, true, false)[VersionHeader] == s.versionBookings
    ensures VersionHeader !in VersionedHeaders(base, s, false, false)
  {
  }
}
