# Cal.com booking chatbot — verified model of the translation layer

The chatbot takes a user's message, asks an OpenAI chat model with three
declared functions (list, create and cancel a Cal.com booking), and when the
model answers with a function call it turns that call into one Cal.com REST
request. The direct `/book`, `/list` and `/cancel` endpoints call the Cal.com
client without the model. This project models the deterministic part of that
path in Dafny:

- `values.dfy` (`Values`): JSON values as the Python code sees them; Python
  truthiness (`Truthy`); `a or b` (`Or`); `dict.get` (`Lookup`); and the `x or y`
  of optional strings (`Present`, `OrElse`).
- `cal_client.dfy` (`Cal`): the Cal.com client. This covers the module
  settings read from the environment and the constructor (key check, base URL
  with trailing slashes stripped, base headers). It also covers
  `_headers_for` with its version selection, the request each operation
  sends, and how a reply or failure becomes a result or a `CalClientError`
  message. The client's fields are set once in the constructor and never
  reassigned, so they are `const` fields of a class.
- `openai_client.dfy` (`OpenAI`): the completion client's key check and
  keyword assembly (`CallChatCompletion`, an imperative method proved against
  the function `ChatCompletion`), and `extract_function_call`.
- `mcp_tools.dfy` (`Tools`): the declared function table.
- `utils.dfy` (`Utils`): `build_booking_payload` with a strict reader that
  inverts it, and `create_clients`.
- `web.dfy` (`Web`): what both app copies share. Responses (`Ok` for a
  normal return, `Err(status, detail)` for an `HTTPException`), the
  exceptions a handler can meet, the record of upstream calls, the chat
  dispatcher's branches and how a branch is carried out.
- `main_app.dfy` (`MainApp`) and `server_main.dfy` (`ServerApp`): the HTTP
  handlers of the current app and of the older copy under `server/`. Each
  handler is a function returning the upstream calls it made, in order, and
  its response. "No upstream call" is therefore a statement about a list.

Everything outside the program is a parameter:

- the HTTP transfer (`send: HttpRequest -> Reply`);
- the model call (`complete`);
- `json.loads` (`decode`, `None` where it raises);
- Python's `str()` of a non-string value or of a response (`Runtime.show`,
  `Runtime.showResponse`).

A completion response is either a mapping or the SDK's response object.
`extract_function_call` and the older reply subscript it
(`resp["choices"]`), which only a mapping supports. The current reply reads
`resp.choices[0]` by attribute, which only the SDK object has. The model
keeps both shapes, and the lemmas state what each handler then does.

## Model

| member | source | states |
|---|---|---|
| Cal.SettingsFrom | cal_client.py:11-15 | an absent variable gives the documented default (no key, https://api.cal.com, 2024-08-13, 2024-09-04); each of the four variables, when present, is used exactly as given |
| Cal.TrimTrailingSlashes | cal_client.py:42 | `rstrip("/")`: the result is a prefix of the input, does not end in `/`, and everything cut off is `/` |
| Cal.TrimTrailingSlashesIdempotent | cal_client.py:42 | stripping twice equals stripping once |
| Cal.TrimTrailingSlashesIgnoresAppendedSlashes | cal_client.py:42 | appending any number of slashes to a base URL does not change the stored base |
| Cal.CalClient.constructor | cal_client.py:35-53 | with a non-empty key from the argument or else the environment: the client keeps that key, the stripped base (argument over environment), the timeout, and the bearer/JSON base headers |
| Cal.NewCalClient | cal_client.py:41-44 | construction fails exactly when neither the argument nor the environment gives a non-empty key, with the exact CalClientError message; otherwise a valid client |
| Cal.VersionedHeaders | cal_client.py:55-62 | the copy keeps every base header; `bookings` sets the bookings version, `slots` overrides it with the slots version, neither adds no version header |
| Cal.CalClient.HeadersFor | cal_client.py:55-62 | the method copies the base headers and updates the copy, giving exactly `VersionedHeaders`; the client's own headers are `const` and unchanged |
| Cal.VersionSelection | cal_client.py:58-62 | all four flag combinations: slots wins, bookings alone gives the bookings version, none gives no header |
| Cal.Relay | cal_client.py:78-86 | a received body is returned unchanged; an HTTP error becomes "<op> failed: <response text>" ("None" without a response); any other failure "<op> failed" |
| Cal.HttpErrorMessageEndsWithResponseText | cal_client.py:80-83 | the HTTP-error message is the operation name, " failed: " and the response text |
| Cal.CalClient.ListBookings | cal_client.py:64-86 | GET base + "/v2/bookings" with the bookings headers and params (`{}` when falsy); the result is the relayed reply |
| Cal.CalClient.CreateBooking | cal_client.py:88-108 | POST base + "/v2/bookings" with the payload as JSON body; the result is the relayed reply |
| Cal.CalClient.CancelBooking | cal_client.py:110-130 | POST base + "/v2/bookings/" + uid + "/cancel" with body (`{}` when falsy); the result is the relayed reply |
| Cal.RequestsCarryCredentials | cal_client.py:49-53 | every request of a valid client carries exactly Authorization "Bearer " + key, both JSON headers and the bookings version, and goes to the bookings URLs |
| Cal.MissingParamsAndBodyDefaultToEmpty | cal_client.py:77 | falsy params and a falsy cancel body are sent as `{}`; other params and bodies, and any create payload, are sent as given |
| OpenAI.CompletionKwargs | openai_client.py:46-54 | model, messages and temperature always; functions and function_call exactly when the function list is non-empty, function_call "auto" when the given one is falsy |
| OpenAI.OpenAIClient.constructor | openai_client.py:22-25 | the key is the argument when non-empty, else the module default; model and timeout as given |
| OpenAI.OpenAIClient.CallChatCompletion | openai_client.py:32-58 | refused with the exact message, before any upstream call, exactly when the key is missing or empty; otherwise sends `CompletionKwargs` and returns the answer |
| OpenAI.ChoiceMessage | openai_client.py:69 | `message` if truthy, else `delta` if truthy, else `{}`; nothing when the choice is not a dict |
| OpenAI.DecodeArguments | openai_client.py:73-78 | falsy arguments are read as "{}"; a string is decoded when `json.loads` accepts it and kept as the raw string when it raises; any other value is kept unchanged |
| OpenAI.ExtractFunctionCall | openai_client.py:61-82 | a result exactly when the first choice's message has a truthy dict `function_call`; it has exactly the keys name and arguments, the name as found, possibly null, and the arguments decoded |
| OpenAI.UnindexableResponseYieldsNone | openai_client.py:66-82 | the SDK object, a non-dict, missing/non-list/empty choices or a non-dict first choice give None |
| OpenAI.NoFunctionCallYieldsNone | openai_client.py:70-82 | a message without a truthy function_call gives None |
| OpenAI.MissingArgumentsYieldEmptyObject | openai_client.py:73-75 | missing or empty arguments are read as "{}" and give `{}` |
| OpenAI.ArgumentsDecodedOrPassedThrough | openai_client.py:74-78 | decodable text comes back decoded; undecodable text and non-string values come back unchanged |
| OpenAI.ExtractInvertsCallResponse | openai_client.py:61-79 | a documented function-call response (in message or delta) is read back to its name and its decoded arguments |
| OpenAI.CreateBookingScenario | openai_client.py:61-79 | a create_booking call with the customer's JSON arguments comes back with those details |
| OpenAI.NotJsonScenario | openai_client.py:74-79 | arguments "not json" come back as the raw string, without raising |
| Tools.WireAll | mcp_tools.py:9-44 | the table as sent: one dict per declaration, in order |
| Tools.Names | mcp_tools.py:11-36 | the declared names in order |
| Tools.Find | mcp_tools.py:9-44 | a declaration is found exactly when its name is declared, and it is one with that name |
| Tools.ThreeDistinctNames | mcp_tools.py:11-36 | exactly list_bookings, create_booking, cancel_booking, pairwise distinct |
| Tools.ListBookingsDeclaration | mcp_tools.py:11-20 | no required parameters; properties user_email and status; status restricted to the five booking states |
| Tools.RequiredAreDeclared | mcp_tools.py:27-41 | every required parameter is a declared property |
| Tools.CreateBookingDeclaration | mcp_tools.py:23-33 | requires start_time, customer_name and customer_email, its only properties |
| Tools.CancelBookingDeclaration | mcp_tools.py:36-42 | requires booking_id, its only property |
| Utils.BuildBookingPayload | utils.py:8-43 | exactly the six top-level keys; start, attendee name and email passed through; event type id when truthy, else 3778941; Google Meet location; metadata exactly `{"note": note}` |
| Utils.ReadInvertsBuild | utils.py:8-43 | reading a built body gives back every argument, the event type id after the fallback |
| Utils.BuildIsInjective | utils.py:8-43 | two bodies are equal exactly when the arguments are (ids after the fallback): deterministic, nothing hidden |
| Utils.DefaultsWhenOmitted | utils.py:12-35 | omitted arguments give slug "30min", America/Los_Angeles, "en", note "" and event type 3778941 |
| Utils.FalsyEventTypeIdsFallBack | utils.py:34 | None, 0 and "" all give the same body, with event type 3778941 |
| Utils.CreateClients | utils.py:46-70 | fails with "Failed to initialize external clients" exactly when the Cal.com key is missing; otherwise the Cal.com client holds the environment key (else the module default), the stripped environment base URL and timeout 10, and the OpenAI client the environment key, the default model and timeout 60 |
| Web.CallIntent | main.py:64-67 | a call is found exactly when the response carries a directive; the name as extracted and the arguments or `{}` when falsy |
| Web.ChatMessages | main.py:55-56 | exactly two messages: the fixed system prompt, then a user message with only role and content, the content being the message followed by " (user email: <email>)" |
| Web.Interpolate | cal_client.py:117 | the booking id in the cancel URL: a string as it is, any other value as `str()` renders it |
| Web.Perform | main.py:68-92 | one Cal.com request for a list, create or cancel, none for an answer or a raised exception; for each call branch the request sent is that branch's and the outcome is Cal.com's answer relayed, or the client's error under the branch's operation name |
| Web.DispatchReply | main.py:91-95 | success gives `{function_called, arguments, result}`; an exception gives 500 "cal.com error: ..." |
| MainApp.Route | main.py:66-92 | the branch for each name: list params `{take:"100", status, attendeeEmail}` from the arguments, the builder's body, the booking id, the unknown-function marker; AttributeError/TypeError on non-dict arguments, KeyError without booking_id |
| MainApp.Assistant | main.py:98-103 | `resp.choices[0]` for the SDK object with a choice, otherwise `str(resp)` |
| MainApp.Respond | main.py:64-103 | at most one Cal.com call; no call gives `{"assistant": ...}`; a dispatched call sends exactly its branch's request; the reply is `{function_called, arguments, result}` with Cal.com's answer as result, and a Cal.com failure is 500 "cal.com error" carrying the client error of that operation |
| MainApp.Chat | main.py:43-103 | 500 with no call at all without the Cal.com client or the OpenAI key; otherwise the model is called first with the chat's keywords; a model failure is 500 with its message and nothing more; on an answer the remaining calls and the response are exactly `Respond`'s |
| MainApp.Book | main.py:106-123 | 500 without the client; one create request with `BookPayload`; Cal.com's answer returned as is, an error as 500 with its message |
| MainApp.BookPayload | main.py:113-119 | the builder's six keys; the request's start, name and email; its event type id, or 3778941 when empty; metadata exactly `{"note": "API booking"}` |
| MainApp.List | main.py:126-136 | 500 without the client; one list request with the attendee email and integer take 100; the answer under "bookings"; a Cal.com failure is 500 with the client's "list_bookings failed" message |
| MainApp.ListQuery | main.py:132 | exactly attendeeEmail (the request's email) and take (the integer 100) |
| MainApp.Cancel | main.py:139-148 | 500 without the client; one cancel request for the uid; Cal.com's answer returned as is; a Cal.com failure is 500 with the client's "cancel_booking failed" message |
| MainApp.ChatOffersDeclaredFunctions | main.py:59 | the model call carries exactly model, messages, temperature, the declared table and function_call "auto" |
| MainApp.UnknownNameAnswersMarker | main.py:89-95 | an undeclared name returns normally with result `{"error":"unknown function"}` and no Cal.com call |
| MainApp.CancelWithoutIdMakesNoCall | main.py:87-92 | cancel without booking_id gives 500 "cal.com error" (KeyError) and no Cal.com call |
| MainApp.ListResultPassedThrough | main.py:69-95 | a dispatched list returns Cal.com's answer unchanged under "result" |
| MainApp.CreateResultPassedThrough | main.py:77-95 | a dispatched create sends the routed body and returns Cal.com's answer unchanged under "result" |
| MainApp.CancelResultPassedThrough | main.py:87-95 | a dispatched cancel posts to that booking id's cancel URL and returns Cal.com's answer unchanged under "result" |
| MainApp.ChatCreateUsesDefaults | main.py:77-86 | a chat booking carries the model's start time, name and email, the default event type, and note "chat booking" |
| MainApp.ResponseShapeDecidesReply | main.py:64-103 | with the SDK object nothing is dispatched and the reply is the first choice; a mapping without a call is answered with `str(resp)` |
| MainApp.DeclaredNamesAreDispatched | main.py:69-88 | every declared function name has a dispatch branch |
| MainApp.RouteReadsOnlyDeclaredProperties | main.py:69-88 | dropping undeclared argument keys never changes the branch taken or its request |
| MainApp.RequiredArgumentsSuffice | main.py:69-88 | a dict holding every required argument of a declared function never makes the dispatcher raise |
| MainApp.BookPassesEventType | main.py:112-120 | `/book` sends the request's event type id (the default only when it is empty) and note "API booking" |
| MainApp.ListTakeDiffers | main.py:72-132 | `/list` sends take as the integer 100, the chat's list call as the string "100", in the dicts handed to the client |
| ServerApp.ImportCal | server/main.py:16-21 | the global client is None exactly when the environment has no non-empty key; otherwise a valid client with the stripped default base; the client keeps the import-time settings, which supply its version headers |
| ServerApp.TablesDifferOnlyInEndTime | server/main.py:24-60 | this copy's table equals the shared one except for an optional end_time property on create |
| ServerApp.InlineCreatePayload | server/main.py:98-117 | start and end from the arguments, always event type 3778941, lengthInMinutes 30, metadata `{"key":"value"}`, the Google Meet location; the builder's keys plus end and lengthInMinutes |
| ServerApp.Route | server/main.py:86-124 | the same branches as the current copy, except create, which uses the inline body |
| ServerApp.CreateBodiesDiffer | server/main.py:98-117 | the two chat create bodies agree on every builder key but metadata; the inline one adds two keys and is not of the builder's shape |
| ServerApp.InlineExtendsBuilder | server/main.py:98-117 | the inline body keeps every builder key with the same value, except the metadata, and adds end and lengthInMinutes |
| ServerApp.InlineMetadataDiffers | server/main.py:98-117 | the inline metadata differs from the builder's note, and the strict builder reader refuses the inline body |
| ServerApp.ContentPath | server/main.py:131 | the content is found exactly when the first choice is a dict whose "message" is a dict holding "content"; never for the SDK object |
| ServerApp.Assistant | server/main.py:130-134 | `resp["choices"][0]["message"]["content"]` exactly when `ContentPath` finds it, `str(resp)` otherwise, and always `str(resp)` for the SDK object |
| ServerApp.Respond | server/main.py:84-134 | at most one Cal.com call; no call gives `{"assistant": ...}`; a dispatched call sends exactly its branch's request (the inline body for create); the reply carries Cal.com's answer as result, and a Cal.com failure is 500 "cal.com error" carrying the client error |
| ServerApp.RespondsAgreeExceptCreate | server/main.py:86-127 | given the same model answer, both copies behave identically on every call but create |
| ServerApp.NoCallRepliesDiffer | server/main.py:130-134 | without a call the SDK object gets `str(resp)` here and its choice in the current copy; a mapping with content gets the content here and `str(resp)` there |
| ServerApp.Chat | server/main.py:63-134 | 500 with no call without the global client; otherwise the model is called first with this copy's table; a model failure is 500 with its message; on an answer the remaining calls and the response are exactly `Respond`'s |
| ServerApp.BookPayload | server/main.py:141-147 | exactly eventTypeId (as given, no default), start, end, notes (null when absent) and an attendee with only name and email |
| ServerApp.EmptyEventTypeIdDiffers | server/main.py:142 | an empty event type id is sent as "" here, where the current copy books 3778941 |
| ServerApp.Book | server/main.py:137-152 | 500 without the client; one create request with `BookPayload`; the answer as is; a Cal.com failure is 500 with the client's "create_booking failed" message |
| ServerApp.List | server/main.py:155-164 | 500 without the client; one list request with integer take 100; the answer under "bookings"; a Cal.com failure is 500 with the client's "list_bookings failed" message |
| ServerApp.Cancel | server/main.py:167-175 | 500 without the client; one cancel request; the answer as is; a Cal.com failure is 500 with the client's "cancel_booking failed" message |
| ServerApp.EveryEndpointNeedsTheClient | server/main.py:72-170 | without the global client all four endpoints answer 500 and call nothing upstream |

## Left out

- Network transport: sessions, `raise_for_status`, `resp.json()` and timeouts. The Cal.com reply is the parameter `send`. The timeout is carried in the request but has no effect.
- The `requests` library drops `None`-valued query parameters when it encodes them. The model sends the parameter dict as the code builds it, nulls included. It also renders the integer 100 and the string "100" as the same query text `take=100`, so the difference `MainApp.ListTakeDiffers` states lies only in the dicts handed to the client and is not visible to Cal.com.
- The OpenAI SDK and its client construction. The model call is the parameter `complete`, and an SDK exception is its `Failure` text. The temperature is a `real` carried as is.
- `json.loads`. It is the parameter `decode`; no JSON parser is written.
- Python's `str()` of a booking id that is not a string, and of a response object. These are `Runtime.show` and `Runtime.showResponse`. The texts of Python's own exceptions (KeyError, TypeError, AttributeError) are kept as the `Fault` values they carry, not as strings.
- FastAPI wiring: the app, its decorators and the startup hook. `app.state` is the `AppState` parameter, and main.py's startup, which re-raises the construction error, is not modelled. HTTPException and JSONResponse become `Err` and `Ok`, and async plays no part.
- Pydantic request validation, including `EmailStr`. Request fields are taken as already validated strings.
- Environment and `.env` loading. The environment is a map, and the client module's import-time constants are a `Settings` value.
- Logging and `uvicorn` start-up.
- The slots version header is selected by `VersionedHeaders`, but no slots operation exists in the core, so it is never sent.
- server/cal_client.py and server/openai_client.py are not part of this model. The older copy is taken to use clients that behave like the top-level ones; its module-level `call_chat_completion` is the parameter `complete` of `ServerApp.Chat`.
- Utils.CreateClients: the SDK client built in the completion client's constructor (openai_client.py:30) is taken never to raise, although the SDK refuses to start without any key; the model therefore fails only on a missing Cal.com key.
- The cause chaining of `raise CalClientError(...) from e` (cal_client.py:83-130) is not modelled: a `CalClientError` carries its message only.
- Floating-point numbers in JSON are `real`; integer width is irrelevant here and not modelled.
