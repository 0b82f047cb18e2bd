# WhatsApp Cloud API client — a Dafny model

This project models the deterministic core of `whatsapp-cloud-api-py`, an async Python client for Meta's WhatsApp Cloud API (the Graph API). The model covers the following parts:

- **Key case conversion.** `to_camel`, `to_snake` and their deep versions over decoded JSON. Also the `_to_camel` alias rule of the pydantic models.
- **Error classification and retry advice.**
  - the 43-code table of Graph API errors and its HTTP-status fallback;
  - the retry action of each category and the `Retry-After` header;
  - `GraphApiError`, its `from_response` and its `to_dict`.
- **Webhook handling.**
  - `normalize_webhook` flattens `entry[].changes[].value` into lists of contacts, messages and statuses;
  - the response and webhook models, with their required fields and defaults;
  - the frozen event classes;
  - the dispatcher maps each message and status to an event and emits it.
- **Request shaping.**
  - `WhatsAppClient`: URL building, the bearer header and what `request` does with a response.
  - The resources for messages, templates, phone numbers, flows and media. For each operation the model states the exact JSON body, form fields or query parameters it sends, and to which path.

Decoded JSON is the datatype `JsonValues.Json`. A dict is an insertion-ordered list of pairs, and `Put` is `d[k] = v`.

Python exceptions become error values: `Fault` for the built-in exceptions and pydantic's `ValidationError`, and `ClientError` for what a request can raise.

The HTTP transport is `Client.Http`. It records every call it is given, in order, and a fixed oracle `serve` answers each call given the calls before it. A resource method is therefore specified by the calls it appends and by what it returns for the oracle's answers. The methods that make several calls (`Flows.Create`, `Flows.Deploy`, `Media.Download`) are specified by functions of the calls made before them, and the contracts of those functions state what they promise.

The code is modelled as written, including these quirks:

- `_send` copies `context_message_id` to the top level of the body, while the interactive sends nest it as `{"context": {"message_id": ...}}`.
- Caller headers override `Authorization`.
- An unknown status is dispatched as `MessageSent`.
- The media upload sends the MIME type in the form field `type`, so the media category never reaches the wire.
- `PreviewFlowInput.params` is never sent.
- The `endpoint_uri` of a flow is never sent.
- The `request_message` of a location request is never sent.

## Model

| member | source | states |
|---|---|---|
| Case.ToCamel | src/whatsapp_cloud_api/utils/case.py:7-13 | `to_camel` never lengthens its input and keeps a non-empty string non-empty |
| Case.ToCamelNoUnderscore | src/whatsapp_cloud_api/utils/case.py:7-13 | a string without `_` is returned unchanged |
| Case.ToCamelFirst | src/whatsapp_cloud_api/utils/case.py:7-13 | the first character is upper-cased exactly when the string starts with `_` followed by a lower-case letter or digit, and otherwise kept |
| Case.ToCamelLeavesNoUnderscoreLower | src/whatsapp_cloud_api/utils/case.py:7-13 | the substitution is exhaustive: no `_` followed by a lower-case letter survives in the output |
| Case.SnakeFromFacts | src/whatsapp_cloud_api/utils/case.py:8-18 | one `_` is inserted per lower/digit-to-upper boundary and the output has no upper-case letter |
| Case.SnakeFrom | src/whatsapp_cloud_api/utils/case.py:8-18 | each input character yields itself lower-cased, preceded by `_` at a boundary, so the output is between one and two times as long |
| Case.ToSnake | src/whatsapp_cloud_api/utils/case.py:16-18 | `to_snake` output contains no upper-case letter and is between one and two times as long as its input |
| Case.ToSnakeLength | src/whatsapp_cloud_api/utils/case.py:8-18 | output length is input length plus the number of lower/digit-to-upper boundaries |
| Case.SnakeFromNoUpper | src/whatsapp_cloud_api/utils/case.py:8-18 | the look-behind substitution changes nothing in a string without upper-case letters |
| Case.ToSnakeNoUpper | src/whatsapp_cloud_api/utils/case.py:16-18 | a string without upper-case letters is returned unchanged |
| Case.ToSnakeIdempotent | src/whatsapp_cloud_api/utils/case.py:16-18 | `to_snake(to_snake(s)) == to_snake(s)` for every string |
| Case.SnakeFromCons | src/whatsapp_cloud_api/utils/case.py:8-18 | one left-to-right step of the `to_snake` substitution |
| Case.ToCamelMatchCons | src/whatsapp_cloud_api/utils/case.py:7-13 | a match `_x` at the front becomes upper(x) followed by the conversion of the rest |
| Case.ToCamelPlainCons | src/whatsapp_cloud_api/utils/case.py:7-13 | a character that starts no match is copied and the rest is converted |
| Case.CamelAfterSnake | src/whatsapp_cloud_api/utils/case.py:7-18 | `to_camel` undoes the `to_snake` substitution on camelCase text, from any look-behind state |
| Case.CamelSnakeRoundTrip | src/whatsapp_cloud_api/utils/case.py:7-18 | `to_camel(to_snake(s)) == s` for every camelCase identifier |
| Case.SnakeAfterCamel | src/whatsapp_cloud_api/utils/case.py:7-18 | `to_snake` undoes `to_camel` on snake_case words of at least two characters |
| Case.SnakeCamelRoundTrip | src/whatsapp_cloud_api/utils/case.py:7-18 | `to_snake(to_camel(s)) == s` for every such snake_case identifier |
| Case.SingleLetterWordsDoNotRoundTrip | src/whatsapp_cloud_api/utils/case.py:7-18 | `"a_b_c"` goes to `"aBC"` and back to `"a_bc"`: the word-length condition above is needed |
| Case.ToCamelDigitExample | src/whatsapp_cloud_api/utils/case.py:7-13 | a digit after `_` is absorbed (`"e_2"` becomes `"e2"`) |
| Case.ToCamelLeadingExample | src/whatsapp_cloud_api/utils/case.py:7-13 | a leading `_` is consumed with the letter after it |
| Case.ToSnakeDigitExample | src/whatsapp_cloud_api/utils/case.py:8-18 | a digit is a valid look-behind (`"e2Id"` becomes `"e2_id"`) |
| Case.ToSnakeAcronymExample | src/whatsapp_cloud_api/utils/case.py:8-18 | an all-capital word has no boundary and is only lower-cased |
| CaseDeep.FromPairs | src/whatsapp_cloud_api/utils/case.py:29 | a dict comprehension yields a dict with unique keys, and every stored entry is one of its pairs |
| CaseDeep.Deep | src/whatsapp_cloud_api/utils/case.py:25-38 | lists stay lists of the same length, dicts stay dicts with unique keys that are converted input keys, every other value is returned as is |
| CaseDeep.ToCamelDeep | src/whatsapp_cloud_api/utils/case.py:25-30 | `to_camel_deep` keeps the shape of its input and every key of a dict result is `to_camel` of an input key |
| CaseDeep.ToSnakeDeep | src/whatsapp_cloud_api/utils/case.py:33-38 | `to_snake_deep` keeps the shape of its input and no key of a dict result holds an upper-case letter |
| CaseDeep.DeepPairs | src/whatsapp_cloud_api/utils/case.py:25-38 | the comprehension's pairs are `(conv(k), deep(v))` for every entry, in order |
| CaseDeepProps.FromPairsEntries | src/whatsapp_cloud_api/utils/case.py:29 | the comprehension's keys are exactly the pairs' keys and each entry comes from a pair |
| CaseDeepProps.FromPairsLastWins | src/whatsapp_cloud_api/utils/case.py:29 | the value stored for a key is the one of the last pair with that key |
| CaseDeepProps.FromPairsLaterWins | src/whatsapp_cloud_api/utils/case.py:29 | the same for every pair at once, and keys of no pair are absent |
| CaseDeepProps.FromPairsUnique | src/whatsapp_cloud_api/utils/case.py:29 | pairs with distinct keys are reproduced exactly, order included |
| CaseDeepProps.FromPairsSnoc | src/whatsapp_cloud_api/utils/case.py:29 | one more pair is one more `d[k] = v` |
| CaseDeepProps.DeepShape | src/whatsapp_cloud_api/utils/case.py:25-38 | every item of a converted list is the converted item, in order |
| CaseDeepProps.DeepObject | src/whatsapp_cloud_api/utils/case.py:25-38 | a converted dict has unique keys, exactly the converted keys, and each holds the converted value of its last source key |
| CaseDeepProps.DeepRoundTripObject | src/whatsapp_cloud_api/utils/case.py:25-38 | one dict level of the deep round trip |
| CaseDeepProps.DeepRoundTrip | src/whatsapp_cloud_api/utils/case.py:25-38 | if `back` inverts `there` on every key satisfying P, deep conversion there and back is the identity on JSON whose keys satisfy P |
| CaseDeepProps.CamelSnakeDeepRoundTrip | src/whatsapp_cloud_api/utils/case.py:25-38 | `to_camel_deep(to_snake_deep(x)) == x` for camelCase-keyed JSON |
| CaseDeepProps.SnakeCamelDeepRoundTrip | src/whatsapp_cloud_api/utils/case.py:25-38 | `to_snake_deep(to_camel_deep(x)) == x` for snake_case-keyed JSON |
| CaseDeepProps.DeepIdempotentObject | src/whatsapp_cloud_api/utils/case.py:25-38 | one dict level of deep idempotence |
| CaseDeepProps.DeepIdempotent | src/whatsapp_cloud_api/utils/case.py:25-38 | converting twice with an idempotent key map is converting once |
| CaseDeepProps.ToSnakeDeepIdempotent | src/whatsapp_cloud_api/utils/case.py:33-38 | `to_snake_deep` is idempotent on every JSON value |
| CaseDeepProps.CollidingKeysExample | src/whatsapp_cloud_api/utils/case.py:33-38 | keys `"aB"` and `"a_b"` collapse into one entry holding the later value |
| Categorize.ParseCategory | src/whatsapp_cloud_api/errors/categorize.py:5-21 | a string reads back as a category only if it is that category's wire name |
| Categorize.CategoryNameRoundTrip | src/whatsapp_cloud_api/errors/categorize.py:5-21 | each of the 15 categories has its own wire name that reads back to it |
| Categorize.CodeToCategory | src/whatsapp_cloud_api/errors/categorize.py:23-77 | the table holds exactly the 43 listed codes and never yields server, unknown, business_eligibility, waba_config or synchronization |
| Categorize.TableByCategory | src/whatsapp_cloud_api/errors/categorize.py:23-77 | for each category, the exact set of codes mapped to it |
| Categorize.CategorizeError | src/whatsapp_cloud_api/errors/categorize.py:80-85 | a known code gives its table category; server iff no known code and status >= 500; unknown iff no known code and no 5xx status |
| Categorize.StatusIgnoredForKnownCode | src/whatsapp_cloud_api/errors/categorize.py:81-82 | a known code decides the category whatever the HTTP status |
| Categorize.StatusOnlyThroughFallback | src/whatsapp_cloud_api/errors/categorize.py:80-85 | two statuses on the same side of the 5xx test give the same category |
| Categorize.NeverReturned | src/whatsapp_cloud_api/errors/categorize.py:80-85 | business_eligibility, waba_config and synchronization are never produced |
| Categorize.CategorizeExamples | tests/test_errors_categorize.py:1-73 | (190, 500) is authorization, (130429, None) throttling, (None, 502) server, (99999, None), (None, 400) and (None, None) unknown |
| Retry.ParseAction | src/whatsapp_cloud_api/errors/retry.py:9-15 | a string reads back as an action only if it is that action's wire name |
| Retry.ActionNameRoundTrip | src/whatsapp_cloud_api/errors/retry.py:9-15 | each of the five actions has its own wire name that reads back to it |
| Retry.CategoryRetry | src/whatsapp_cloud_api/errors/retry.py:24-40 | retry_after iff throttling; refresh_token iff authorization; do_not_retry iff integrity, business_eligibility or reengagement_window; retry iff synchronization, server or unknown |
| Retry.ParseDecimal | src/whatsapp_cloud_api/errors/retry.py:52 | an unsigned decimal numeral denotes a non-negative value |
| Retry.Fraction | src/whatsapp_cloud_api/errors/retry.py:52 | the digits after the point denote a non-negative value |
| Retry.TruncateTowardZero | src/whatsapp_cloud_api/errors/retry.py:52 | `int(x)` truncates toward zero on either sign |
| Retry.ParseFloat | src/whatsapp_cloud_api/errors/retry.py:52 | `float()` of blank text is a ValueError; a value is negative only after a leading `-` |
| Retry.ParseFloatDigitFirst | src/whatsapp_cloud_api/errors/retry.py:52 | stripped text that starts with a digit is read as a decimal numeral, never as a special word |
| Retry.HeaderMillis | src/whatsapp_cloud_api/errors/retry.py:49-52 | no header gives no value; the guard lets an exception out exactly when the header is infinite or its value times 1000 leaves the double range, and then it is OverflowError |
| Retry.GetRetryHint | src/whatsapp_cloud_api/errors/retry.py:43-57 | `get_retry_hint` raises exactly when the header overflows; otherwise the hint carries the category's action, and a retry_after action always has a delay |
| Retry.HeaderMillisSpec | src/whatsapp_cloud_api/errors/retry.py:49-52 | a header gives milliseconds exactly when it reads as a finite value whose product with 1000 stays in the double range, and those are the truncated milliseconds |
| Retry.RetryHintSpec | src/whatsapp_cloud_api/errors/retry.py:43-57 | the header's milliseconds win when present, whatever the action; otherwise throttling waits 60 000 ms and every other action has no delay |
| Retry.PlainWord | src/whatsapp_cloud_api/errors/retry.py:52 | a body starting with a digit is read as a numeral, never as a special word |
| Retry.ParseFloatPlain | src/whatsapp_cloud_api/errors/retry.py:52 | a header starting with a digit is an unsigned numeral |
| Retry.ParseDigits | src/whatsapp_cloud_api/errors/retry.py:52 | a string of digits is read as its decimal value |
| Retry.HintOfParsedHeader | src/whatsapp_cloud_api/errors/retry.py:43-57 | a header parsed to a value gives that value in the hint, whatever the action |
| Retry.TruncateWhole | src/whatsapp_cloud_api/errors/retry.py:52 | truncating a whole number gives it back |
| Retry.MillisOfValue | src/whatsapp_cloud_api/errors/retry.py:49-52 | a value that is a whole number of milliseconds is kept exactly, or raises OverflowError outside the double range |
| Retry.HintOfValue | src/whatsapp_cloud_api/errors/retry.py:43-57 | a header read as x seconds with 1000x whole advises exactly 1000x ms, or raises OverflowError outside the double range |
| Retry.HintOfSeconds | src/whatsapp_cloud_api/errors/retry.py:43-57 | a header of n whole seconds, of either sign, advises 1000n ms, or raises OverflowError outside the double range |
| Retry.WholeSecondsHeader | tests/test_errors_retry.py:25-42 | the numeral of n seconds advises n * 1000 ms, whatever the category, while n * 1000 is below the double overflow; beyond it the header raises OverflowError |
| Retry.NoHeader | src/whatsapp_cloud_api/errors/retry.py:54-55 | without a header only throttling gets a delay, the 60 s default |
| Retry.OneDecimalValue | src/whatsapp_cloud_api/errors/retry.py:52 | `n.d` reads as n + d/10 |
| Retry.NotANumeral | src/whatsapp_cloud_api/errors/retry.py:52 | a body with a character that is neither a digit nor a point is no number |
| Retry.InvalidHeader | tests/test_errors_retry.py:34-36 | a header that is not a number is ignored and a throttled request gets the 60 s default |
| Retry.InfinityRaises | src/whatsapp_cloud_api/errors/retry.py:51-52 | an infinite header escapes the guard: `int(inf)` raises OverflowError, which is not suppressed |
| Retry.FiniteOverflowRaises | src/whatsapp_cloud_api/errors/retry.py:51-52 | a finite header whose value times 1000 reaches the double overflow also escapes the guard with OverflowError |
| RetryExamples.ParseOneAndAHalf | tests/test_errors_retry.py:30-32 | the header "1.5" reads as 1.5 seconds |
| RetryExamples.OneAndAHalfSeconds | tests/test_errors_retry.py:30-32 | "1.5" is 1500 ms |
| RetryExamples.NotANumberText | tests/test_errors_retry.py:34-36 | "n/a" is not a number |
| RetryExamples.InfinityText | src/whatsapp_cloud_api/errors/retry.py:52 | "-Inf" is an infinity: letter case and sign do not matter |
| RetryExamples.NegatedNumeral | src/whatsapp_cloud_api/errors/retry.py:52 | negative values are not clamped: a leading minus before a numeral of x seconds reads as -x |
| GraphApiErrors.CodeKey | src/whatsapp_cloud_api/errors/categorize.py:81-82 | the `code in table` test on a JSON code: lists and dicts raise TypeError (unhashable); an int is looked up as itself, a bool as 0 or 1, an integral float as its integer; a string or None matches nothing |
| GraphApiErrors.GraphApiError.ToDict | src/whatsapp_cloud_api/errors/graph_api_error.py:66-75 | `to_dict()` has exactly the seven keys in their order, carrying the message text, status, code, type, category name and fbtrace id as stored, and under `retry` a dict of the action's name and the delay in ms or None |
| GraphApiErrors.GraphApiError.IsAuthError | src/whatsapp_cloud_api/errors/graph_api_error.py:52-53 | `is_auth_error()` holds exactly for the category whose action is refresh_token |
| GraphApiErrors.GraphApiError.IsRateLimit | src/whatsapp_cloud_api/errors/graph_api_error.py:55-56 | `is_rate_limit()` holds exactly for the category whose action is retry_after |
| GraphApiErrors.GraphApiError.IsTemplateError | src/whatsapp_cloud_api/errors/graph_api_error.py:58-59 | a template error's action is fix_and_retry |
| GraphApiErrors.GraphApiError.RequiresTokenRefresh | src/whatsapp_cloud_api/errors/graph_api_error.py:61-62 | when the hint carries the category's action, `requires_token_refresh()` agrees with `is_auth_error()` |
| GraphApiErrors.New | src/whatsapp_cloud_api/errors/graph_api_error.py:23-48 | the constructor stores every field as given and derives category and retry hint from code, status and header; an unhashable code raises TypeError |
| GraphApiErrors.NewFails | src/whatsapp_cloud_api/errors/graph_api_error.py:47-48 | construction fails iff the code is unhashable or the `Retry-After` header is infinite or its value times 1000 leaves the double range |
| GraphApiErrors.DefaultsGiveUnknown | src/whatsapp_cloud_api/errors/graph_api_error.py:23-48 | with every keyword at its default the error is unknown, action retry, no delay |
| GraphApiErrors.TokenRefreshIffAuth | src/whatsapp_cloud_api/errors/graph_api_error.py:52-62 | `requires_token_refresh()` holds exactly when `is_auth_error()` does |
| GraphApiErrors.RateLimitHasDelay | src/whatsapp_cloud_api/errors/graph_api_error.py:55-56 | a rate-limit error always carries action retry_after and a delay |
| GraphApiErrors.ToDictReadsBack | src/whatsapp_cloud_api/errors/graph_api_error.py:72-73 | the dict's category and retry action read back as the stored category and action |
| GraphApiErrors.FromResponse | src/whatsapp_cloud_api/errors/graph_api_error.py:77-97 | a dict body whose error source is a dict with a hashable code always yields an error unless the header overflows; a non-dict body or error entry raises AttributeError |
| GraphApiErrors.FromResponseFields | src/whatsapp_cloud_api/errors/graph_api_error.py:85-97 | each field is read from the error source with its default, `raw` is the whole body, and category and hint are derived |
| GraphApiErrors.ErrorSource | src/whatsapp_cloud_api/errors/graph_api_error.py:85 | the nested `"error"` entry when present, the body itself otherwise |
| GraphApiErrors.Details | src/whatsapp_cloud_api/errors/graph_api_error.py:91 | a truthy `error_user_msg` wins; otherwise `details`, or None |
| GraphApiErrors.EmptyBodyDefaults | src/whatsapp_cloud_api/errors/graph_api_error.py:77-97 | an empty body gives every default message and field; a 5xx status makes it a server error, any other unknown |
| Events.NoArgsBuildsClass | src/whatsapp_cloud_api/events/events.py:11-170 | every event class can be built with no arguments, giving an event of that class with every default |
| Events.Hierarchy | src/whatsapp_cloud_api/events/events.py:21-170 | an event is a `MessageEvent` exactly when its class is one of the message classes or the catch-all |
| Dispatcher.BaseOf | src/whatsapp_cloud_api/events/dispatcher.py:34-45 | the base fields carry the phone number id, message id and timestamp; the sender or ""; the context dump only when the message has a context whose dump is non-empty |
| Dispatcher.ResponseJson | src/whatsapp_cloud_api/events/dispatcher.py:172-179 | a string `response_json` is decoded, or `{}` when it is not JSON; any other value is kept |
| Dispatcher.StatusBaseOf | src/whatsapp_cloud_api/events/dispatcher.py:210-217 | status events carry the phone number id, id, timestamp, recipient id or "", conversation and pricing |
| Dispatcher.Sink.constructor | src/whatsapp_cloud_api/events/dispatcher.py:193-206 | a new emitter has emitted nothing |
| Dispatcher.Sink.Emit | src/whatsapp_cloud_api/events/dispatcher.py:206 | `emit` appends the event to what was emitted |
| Dispatcher.StatusEvents | src/whatsapp_cloud_api/events/dispatcher.py:209-229 | one status event per status, in order |
| Dispatcher.EmitMessages | src/whatsapp_cloud_api/events/dispatcher.py:204-206 | the message loop emits exactly the events of the specification and stops with the first mapping exception |
| Dispatcher.EmitStatuses | src/whatsapp_cloud_api/events/dispatcher.py:209-229 | the status loop emits one mapped event per status, in order |
| Dispatcher.DispatchWebhook | src/whatsapp_cloud_api/events/dispatcher.py:193-229 | `dispatch_webhook` emits exactly the events of its specification and ends with its exception, if any |
| Dispatcher.RunDispatch | src/whatsapp_cloud_api/events/dispatcher.py:201-229 | the body of `dispatch_webhook` for any message mapping: messages first, statuses only when every message mapped |
| Dispatcher.MessageEvents | src/whatsapp_cloud_api/events/dispatcher.py:204-206 | the message loop emits, in order, the mapped event of each message up to the first one that fails, and then stops with that message's exception |
| Dispatcher.DispatchWith | src/whatsapp_cloud_api/events/dispatcher.py:201-229 | for any message mapping: message events in order up to the first failure; when none fails, one status event per status after them, in order |
| Dispatcher.DispatchSpec | src/whatsapp_cloud_api/events/dispatcher.py:193-229 | `dispatch_webhook` emits the mapped message events in order; it can only fail with AttributeError before the statuses; otherwise it emits one event per message and then one per status |
| Dispatcher.MessageEventsSnoc | src/whatsapp_cloud_api/events/dispatcher.py:204-206 | one more message either adds its event or ends the loop with its exception |
| Dispatcher.MessageEventsStop | src/whatsapp_cloud_api/events/dispatcher.py:204-206 | once the message loop has failed, later messages change nothing |
| Dispatcher.MapMessage | src/whatsapp_cloud_api/events/dispatcher.py:48-145 | every event carries the base fields of the message; every type but interactive maps without exception to the class of its type; the only failure is an interactive message, with AttributeError |
| Dispatcher.MapInteractive | src/whatsapp_cloud_api/events/dispatcher.py:148-190 | fails exactly when the subtype is button_reply, list_reply or nfm_reply and its reply entry is present but not a dict, always with AttributeError; otherwise a message event with the given base |
| Dispatcher.ClassForType | src/whatsapp_cloud_api/events/dispatcher.py:52-145 | the ten known type names give their own message class and every other name the catch-all; never an interactive reply class |
| Dispatcher.KindOfClass | src/whatsapp_cloud_api/events/dispatcher.py:52-145 | the event built for any type has the class `ClassForType` gives it, the catch-all included |
| Dispatcher.MapMessageByType | src/whatsapp_cloud_api/events/dispatcher.py:48-145 | every type but interactive maps without exception to its own class (the catch-all for any other type, carrying the type and the dumped message), with the message's base fields |
| Dispatcher.KindOfKnown | src/whatsapp_cloud_api/events/dispatcher.py:52-138 | a known type takes the arm of its own class |
| Dispatcher.KindOf | src/whatsapp_cloud_api/events/dispatcher.py:52-145 | a type gives the catch-all exactly when its class is the unknown one, and then the catch-all carries the type and the message dump |
| Dispatcher.MapMessageFailure | src/whatsapp_cloud_api/events/dispatcher.py:148-171 | the only exception is AttributeError, from an interactive message whose reply entry is present but not a dict |
| Dispatcher.MissingPayloadDefaults | src/whatsapp_cloud_api/events/dispatcher.py:52-138 | a known type whose payload is missing still gives its class with every field at its default |
| Dispatcher.InteractiveSubtypes | src/whatsapp_cloud_api/events/dispatcher.py:148-190 | button_reply, list_reply and nfm_reply give their classes with the reply's fields; any other subtype gives the catch-all tagged "interactive:<type>" carrying the interactive dict |
| Dispatcher.InteractiveMissing | src/whatsapp_cloud_api/events/dispatcher.py:150-151 | an interactive message without an interactive entry gives the catch-all "interactive:" with an empty dict |
| Dispatcher.MapStatus | src/whatsapp_cloud_api/events/dispatcher.py:209-229 | every status gives a status event with the status base; delivered, read and failed give their classes (failed with its errors or []), sent and any other status give MessageSent |
| Dispatcher.MessageEventsAllOk | src/whatsapp_cloud_api/events/dispatcher.py:204-206 | when every message maps, the loop emits one event per message, in order |
| Dispatcher.MessageEventsFirstFailure | src/whatsapp_cloud_api/events/dispatcher.py:204-206 | the first message that fails ends the loop with its exception; nothing after it is emitted |
| Dispatcher.DispatchOrder | src/whatsapp_cloud_api/events/dispatcher.py:193-229 | every message event first, then every status event, each in list order, one per item |
| Dispatcher.DispatchWithoutInteractive | src/whatsapp_cloud_api/events/dispatcher.py:193-229 | without interactive messages the dispatch never fails and emits one event per message and per status |
| Normalize.Fold | src/whatsapp_cloud_api/webhooks/normalize.py:36-67 | a loop over no items leaves the state as it was; a failed loop failed at one of its items |
| Normalize.RenameFrom | src/whatsapp_cloud_api/webhooks/normalize.py:59-60 | the `from` test fails only for a value that is not a dict, with AttributeError or TypeError; any other non-dict passes unchanged |
| Normalize.AddMessage | src/whatsapp_cloud_api/webhooks/normalize.py:56-62 | one message succeeds exactly when its `to_snake_deep` conversion survives the `from` rename and validates as a `WebhookMessage`; then that validated model is appended after the messages before it; otherwise the step raises the rename's or the validation's exception |
| Normalize.AddStatus | src/whatsapp_cloud_api/webhooks/normalize.py:65-67 | one status succeeds exactly when its `to_snake_deep` conversion validates as a `MessageStatusUpdate`; then that model is appended after the statuses before it; otherwise the step raises the validation error |
| Normalize.AppendContacts | src/whatsapp_cloud_api/webhooks/normalize.py:52-53 | the contacts before are kept and new item `i` is `to_snake_deep` of contact `i` |
| Normalize.TakeMetadata | src/whatsapp_cloud_api/webhooks/normalize.py:46-49 | a truthy phone number id is kept as it is; otherwise a metadata value that is not a dict raises AttributeError; the lists and raw are untouched |
| Normalize.ProcessMessages | src/whatsapp_cloud_api/webhooks/normalize.py:46-67 | a successful messages change keeps raw, appends the converted contacts, and its message and status lists are the message and status loops run from the stored lists; once the metadata and the lists are read, a raising message loop, or a raising status loop after a completed message loop, ends the change with that exception |
| Normalize.ProcessChange | src/whatsapp_cloud_api/webhooks/normalize.py:38-67 | a change that is not a dict raises AttributeError; any failure is one `normalize_webhook` can raise |
| Normalize.ProcessEntry | src/whatsapp_cloud_api/webhooks/normalize.py:36-67 | an entry that is not a dict raises AttributeError; a dict entry whose changes can be iterated is the change loop over them |
| Normalize.NormalizeSpec | src/whatsapp_cloud_api/webhooks/normalize.py:11-77 | a payload that is not a dict gives the empty webhook; for a dict, an entry loop that raises makes the whole call raise that exception; once the loop succeeds, the call succeeds exactly when `object`, the phone number id, the display number, the contacts and `raw` validate, and the webhook then carries the loop's contacts, messages and statuses and the payload's `object` and `raw` |
| Normalize.ListIn | src/whatsapp_cloud_api/webhooks/normalize.py:36-65 | `d.get(key, [])` iterated: a list gives its items, and a value that cannot be iterated raises TypeError |
| Normalize.RawAddSpec | src/whatsapp_cloud_api/webhooks/normalize.py:43 | `raw.setdefault(k, []).append(v)` appends `v` to the list under `k` only, and adds `k` as a new last key when it was not there |
| Normalize.RawAddGet | src/whatsapp_cloud_api/webhooks/normalize.py:43 | after `raw.setdefault(k, []).append(v)` the list under `k` has `v` appended and every other list is unchanged |
| Normalize.RawAddKeys | src/whatsapp_cloud_api/webhooks/normalize.py:43 | the keys stay in insertion order, and a new key goes last |
| Normalize.RecordRaw | src/whatsapp_cloud_api/webhooks/normalize.py:40-44 | recording a non-messages change raises TypeError exactly when its `field` is unhashable (a list or a dict) |
| Normalize.PyIn | src/whatsapp_cloud_api/webhooks/normalize.py:59 | `"from" in normalized`: a dict key test, a list item test or a substring test; any other value raises TypeError |
| Normalize.SnakeAll | src/whatsapp_cloud_api/webhooks/normalize.py:52-53 | every contact is converted with `to_snake_deep`, in order |
| Normalize.AddMessages | src/whatsapp_cloud_api/webhooks/normalize.py:56-62 | the message loop computes the specified fold: convert, rename `from`, validate and append, stopping at the first exception |
| Normalize.AppendMessage | src/whatsapp_cloud_api/webhooks/normalize.py:57-62 | one turn of the message loop computes `AddMessage`: convert, rename `from`, validate, append |
| Normalize.AddStatuses | src/whatsapp_cloud_api/webhooks/normalize.py:65-67 | the status loop computes the specified fold: convert, validate and append |
| Normalize.AppendStatus | src/whatsapp_cloud_api/webhooks/normalize.py:66-67 | one turn of the status loop computes `AddStatus`: convert, validate, append |
| Normalize.AddContacts | src/whatsapp_cloud_api/webhooks/normalize.py:52-53 | the contact loop computes `AppendContacts`: every contact converted with `to_snake_deep` and appended after the ones before, in order |
| Normalize.ApplyChange | src/whatsapp_cloud_api/webhooks/normalize.py:38-67 | one iteration of the change loop computes the specified step, exceptions included |
| Normalize.NormalizeWebhook | src/whatsapp_cloud_api/webhooks/normalize.py:11-77 | `normalize_webhook` with its nested loops computes the specification `NormalizeSpec`, exceptions included |
| NormalizeProps.ResultEntriesInOrder | src/whatsapp_cloud_api/webhooks/normalize.py:36-77 | the messages and statuses of the first `k` entries come first in the returned webhook, unchanged and in order |
| NormalizeProps.ResultKeepsFirstNumber | src/whatsapp_cloud_api/webhooks/normalize.py:46-49 | once an entry gives a truthy phone number id, the returned webhook carries that id and its display number, whatever later entries say |
| NormalizeProps.ResultIsConverted | src/whatsapp_cloud_api/webhooks/normalize.py:50-67 | every returned contact is a snake_case dict and every message and status is the model validated from a converted item |
| NormalizeProps.EmptyPayloads | src/whatsapp_cloud_api/webhooks/normalize.py:23-24 | a payload that is not a dict, or a dict without entries, gives the empty model |
| NormalizeProps.MalformedEntries | src/whatsapp_cloud_api/webhooks/normalize.py:27-37 | `entry` must be iterable and each entry a dict, otherwise the call raises |
| NormalizeProps.OtherFieldGoesToRaw | src/whatsapp_cloud_api/webhooks/normalize.py:42-44 | a change with any other field appends its converted value to `raw[field]` and changes nothing else |
| NormalizeProps.UnhashableField | src/whatsapp_cloud_api/webhooks/normalize.py:43 | a list or dict `field` raises TypeError |
| NormalizeProps.MessagesValueNotADict | src/whatsapp_cloud_api/webhooks/normalize.py:39-46 | a messages change whose value is not a dict raises AttributeError |
| NormalizeProps.AddMessagesExtend | src/whatsapp_cloud_api/webhooks/normalize.py:56-62 | the message loop only appends |
| NormalizeProps.AddStatusesExtend | src/whatsapp_cloud_api/webhooks/normalize.py:65-67 | the status loop only appends |
| NormalizeProps.ChangeExtends | src/whatsapp_cloud_api/webhooks/normalize.py:38-67 | one change appends to the flattened lists and never drops or reorders what is there |
| NormalizeProps.EntryExtends | src/whatsapp_cloud_api/webhooks/normalize.py:36-67 | one entry appends to the flattened lists |
| NormalizeProps.EntriesInOrder | src/whatsapp_cloud_api/webhooks/normalize.py:36-67 | the lists after entries `a + b` extend those after `a`: entries are flattened in order |
| NormalizeProps.ChangeKeepsNumber | src/whatsapp_cloud_api/webhooks/normalize.py:46-49 | once a truthy phone number id is known, no change replaces it or its display number |
| NormalizeProps.FirstNumberWins | src/whatsapp_cloud_api/webhooks/normalize.py:46-49 | across all later entries the first truthy phone number id and its display number stay |
| NormalizeProps.NumberFromMetadata | src/whatsapp_cloud_api/webhooks/normalize.py:46-49 | while the id is falsy, a messages change reads both numbers from its metadata; metadata that is not a dict raises AttributeError |
| NormalizeProps.RenameFromSpec | src/whatsapp_cloud_api/webhooks/normalize.py:59-60 | a dict without `from` is kept; with `from`, the key is removed and `from_` gets its value unless `from_` was already there |
| NormalizeProps.RenameFromErrors | src/whatsapp_cloud_api/webhooks/normalize.py:59-60 | a list holding "from" raises AttributeError; a number, bool or None raises TypeError |
| NormalizeProps.ConvertedIsStable | src/whatsapp_cloud_api/utils/case.py:33-38 | a converted value is a fixed point of `to_snake_deep` |
| NormalizeProps.ChangeKeepsSnake | src/whatsapp_cloud_api/webhooks/normalize.py:38-53 | one change keeps every stored contact and raw value in snake_case |
| NormalizeProps.RawKeepsSnake | src/whatsapp_cloud_api/webhooks/normalize.py:43 | recording a converted value keeps every stored raw value converted |
| NormalizeProps.MessagesKeepSnake | src/whatsapp_cloud_api/webhooks/normalize.py:46-67 | a messages change keeps every stored contact in snake_case and every stored message and status validated from a converted item |
| NormalizeProps.StoredValuesAreSnake | src/whatsapp_cloud_api/webhooks/normalize.py:11-77 | after a successful normalisation every contact and raw value is already in snake_case, and every message and status is the model validated from a `to_snake_deep`-converted item (renamed for messages) |
| NormalizeProps.AddMessagesConverted | src/whatsapp_cloud_api/webhooks/normalize.py:56-62 | the message loop only appends models validated from converted and renamed items |
| NormalizeProps.AddStatusesConverted | src/whatsapp_cloud_api/webhooks/normalize.py:65-67 | the status loop only appends models validated from converted items |
| NormalizeProps.MessageMissingField | src/whatsapp_cloud_api/webhooks/normalize.py:57-62 | a message whose converted dict lacks `id`, `type` or `timestamp` is not skipped: the step raises a validation error, naming `id` when `id` is missing |
| NormalizeProps.StatusMissingField | src/whatsapp_cloud_api/webhooks/normalize.py:66-67 | a status whose converted dict lacks `id`, `status` or `timestamp` makes the step raise a validation error, naming `id` when `id` is missing |
| NormalizeProps.MissingMessageFieldAborts | src/whatsapp_cloud_api/webhooks/normalize.py:56-62 | once the loop reaches a message missing a required field, the whole messages change raises a validation error |
| NormalizeProps.MissingStatusFieldAborts | src/whatsapp_cloud_api/webhooks/normalize.py:65-67 | once the loop reaches a status missing a required field, the whole messages change raises a validation error |
| NormalizeProps.ChangeFailureAborts | src/whatsapp_cloud_api/webhooks/normalize.py:36-67 | a change that raises, reached after the entries and changes before it succeeded, makes `normalize_webhook` raise the same exception |
| NormalizeProps.MissingFieldAbortsNormalize | src/whatsapp_cloud_api/webhooks/normalize.py:11-77 | a message or status anywhere in the payload that lacks a required field aborts `normalize_webhook` with a validation error instead of being skipped |
| Types.SplitUnderscore | src/whatsapp_cloud_api/types.py:9 | `s.split("_")` has one more part than `s` has underscores, and no part holds one |
| Types.SplitJoin | src/whatsapp_cloud_api/types.py:9 | joining the parts with `_` gives back the original string |
| Types.SplitOfJoin | src/whatsapp_cloud_api/types.py:9 | splitting underscore-free words joined by `_` gives the words back |
| Types.Capitalize | src/whatsapp_cloud_api/types.py:10 | `w.capitalize()` keeps the length, upper-cases the first character and lower-cases every later one |
| Types.CamelAlias | src/whatsapp_cloud_api/types.py:8-10 | an alias never contains an underscore and is the name with its underscores taken out |
| Types.AliasOfPlainName | src/whatsapp_cloud_api/types.py:8-10 | a name without an underscore is its own alias |
| Types.AliasOfTwoWords | src/whatsapp_cloud_api/types.py:8-10 | `a_b` becomes `a` followed by `b` capitalised |
| Types.AliasOfWords | src/whatsapp_cloud_api/types.py:8-10 | the alias of `w0_w1_..._wn` is `w0` followed by every later word capitalised |
| Types.FirstNameAlias | src/whatsapp_cloud_api/types.py:8-10 | `_to_camel("first_name") == "firstName"` |
| Types.PlainKeyAliased | src/whatsapp_cloud_api/types.py:13-17 | a field whose name has no underscore is aliased by its own name |
| Types.TwoWordKey | src/whatsapp_cloud_api/types.py:13-17 | a two-word field name `a_b` is aliased `aB` |
| Types.WaIdAliased | src/whatsapp_cloud_api/types.py:25 | `wa_id` is aliased `waId` |
| Types.MessageStatusAliased | src/whatsapp_cloud_api/types.py:30 | `message_status` is aliased `messageStatus` |
| Types.MessagingProductAliased | src/whatsapp_cloud_api/types.py:34 | `messaging_product` is aliased `messagingProduct` |
| Types.MimeTypeAliased | src/whatsapp_cloud_api/types.py:68 | `mime_type` is aliased `mimeType` |
| Types.FileSizeAliased | src/whatsapp_cloud_api/types.py:70 | `file_size` is aliased `fileSize` |
| Types.FromAliased | src/whatsapp_cloud_api/types.py:144 | `from_` is aliased `from` |
| Types.ReferredProductAliased | src/whatsapp_cloud_api/types.py:132 | `referred_product` is aliased `referredProduct` |
| Types.RecipientIdAliased | src/whatsapp_cloud_api/types.py:173 | `recipient_id` is aliased `recipientId` |
| Types.FieldValue | src/whatsapp_cloud_api/types.py:13-17 | with `populate_by_name`, a field is read from its alias when the dict holds it, else from its name |
| Types.RequiredStr | src/whatsapp_cloud_api/types.py:24-25 | a required `str` field validates iff it is present as a string, and the error names where it was looked up |
| Types.OptionalStr | src/whatsapp_cloud_api/types.py:30 | an optional `str` is None iff missing or null, else the string, else a validation error |
| Types.OptionalDict | src/whatsapp_cloud_api/types.py:126 | an optional dict is None iff missing or null, else the dict, else a validation error |
| Types.ValidateItems | src/whatsapp_cloud_api/types.py:35-36 | a list validates iff every item does, item by item in order; the first failure is reported under its index |
| Types.DictValue | src/whatsapp_cloud_api/types.py:54 | a `dict[str, Any]` item validates iff it is a dict |
| Types.OptionalDictList | src/whatsapp_cloud_api/types.py:157 | a missing or null value gives None; a list whose items are all dicts is accepted with item `i` being dict `i`; any other present value is rejected with a validation error |
| Types.UsedKeys | src/whatsapp_cloud_api/types.py:13-17 | the keys consumed by a model are exactly the keys its fields were read from |
| Types.Unused | src/whatsapp_cloud_api/types.py:162-166 | the extras are exactly the entries whose key no field consumed |
| Types.WhatsAppProduct | src/whatsapp_cloud_api/types.py:34 | `Literal["whatsapp"]` with default: valid iff missing or exactly "whatsapp" |
| Types.ModelList | src/whatsapp_cloud_api/types.py:35-36 | `list[Model] = []`: missing is the empty list, otherwise every item validated in order |
| Types.StrOrNone | src/whatsapp_cloud_api/types.py:186-188 | a `str \| None` keyword value validates iff it is null or a string |
| Types.RawLists | src/whatsapp_cloud_api/types.py:192 | `raw` validates iff every list holds dicts only |
| Types.NewNormalizedWebhook | src/whatsapp_cloud_api/types.py:185-198 | `NormalizedWebhook(...)` validates iff its string fields are strings or null and every raw list holds dicts, and stores what it was given |
| Types.ContactInfoEitherSpelling | src/whatsapp_cloud_api/types.py:23-25 | `ContactInfo` reads `wa_id` from either `waId` or `wa_id` |
| Types.AliasBeforeName | src/whatsapp_cloud_api/types.py:13-17 | when both spellings are present the alias wins |
| Types.MediaMetadataRequired | src/whatsapp_cloud_api/types.py:65-71 | `MediaMetadata` validates iff its literal product is valid and `url`, `mime_type`, `sha256`, `file_size` and `id` are strings |
| Types.SendMessageResponseDefaults | src/whatsapp_cloud_api/types.py:33-36 | an empty dict gives product "whatsapp" and empty contact and message lists |
| Types.SendMessageResponseLiteral | src/whatsapp_cloud_api/types.py:34 | any other messaging product is rejected |
| Types.MessageRequiresFields | src/whatsapp_cloud_api/types.py:140-143 | a message needs `id`, `type` and `timestamp`, each a string; a missing one is reported in declaration order |
| Types.NoPayloadsSupplied | src/whatsapp_cloud_api/types.py:147-160 | payload fields the dict does not supply are all None |
| Types.MinimalMessage | src/whatsapp_cloud_api/types.py:140-166 | a message with only its required fields has every optional field None and keeps its extras |
| Types.StatusRequiresFields | src/whatsapp_cloud_api/types.py:169-172 | a status update needs `id`, `status` and `timestamp`, each a string |
| Types.MinimalStatus | src/whatsapp_cloud_api/types.py:169-182 | `recipient_id`, `conversation`, `pricing` and `errors` default to None and extras are kept |
| Types.ValidateContactInfo | src/whatsapp_cloud_api/types.py:23-25 | `ContactInfo` validates exactly when the value is a dict whose `input` and `wa_id` (under either spelling) are strings, and stores them |
| Types.ValidateMessageInfo | src/whatsapp_cloud_api/types.py:28-30 | `MessageInfo` validates exactly when the value is a dict whose `id` is a string and `message_status` is a string, null or missing, and stores them |
| Types.ValidateSendMessageResponse | src/whatsapp_cloud_api/types.py:33-36 | an accepted response has product "whatsapp" and the validated contact and message lists; an invalid product or a non-dict is rejected |
| Types.ValidateMediaUploadResponse | src/whatsapp_cloud_api/types.py:61-62 | `MediaUploadResponse` validates exactly when the value is a dict whose `id` is a string, and stores it |
| Types.ValidateMediaMetadata | src/whatsapp_cloud_api/types.py:65-71 | accepted metadata has product "whatsapp" and stores `url`, `mime_type`, `sha256`, `file_size` and `id` as read; any failure is a validation error |
| Types.ValidateContext | src/whatsapp_cloud_api/types.py:129-137 | a context validates exactly when its three optional fields do, and stores what they read |
| Types.ValidatePayloads | src/whatsapp_cloud_api/types.py:147-160 | each of the fourteen payload fields stores what its optional dict (or list of dicts) read |
| Types.ValidateWebhookMessage | src/whatsapp_cloud_api/types.py:140-166 | an accepted message came from a dict, stores its sender, recipient, context and payloads as read, and keeps every other key as an extra; a non-dict is rejected |
| Types.ValidateStatusUpdate | src/whatsapp_cloud_api/types.py:169-182 | an accepted status update came from a dict, stores its optional fields as read and keeps every other key as an extra; a non-dict is rejected |
| Types.UnknownKeyKept | src/whatsapp_cloud_api/types.py:162-166 | with `extra="allow"`, a key that names no field under either spelling survives as an extra |
| Types.EmptyWebhookFromNothing | src/whatsapp_cloud_api/types.py:185-192 | `NormalizedWebhook()` is the model with every field at its default |
| Types.DictListValue | src/whatsapp_cloud_api/types.py:157 | a dumped list of dicts has one item per dict, and item `i` is dict `i` |
| Types.NonNull | src/whatsapp_cloud_api/types.py:162-166 | `exclude_none` keeps exactly the extras that are not null |
| Types.ContextDump | src/whatsapp_cloud_api/types.py:129-137 | a context dumps to the empty dict iff id, sender and referred product are all None; no dumped value is null |
| Types.ContextDumpValues | src/whatsapp_cloud_api/types.py:129-137 | `id`, `from_` and `referred_product` read back as the context's value, or are absent when it is None, and no other key is dumped |
| Types.PutAll | src/whatsapp_cloud_api/types.py:162-166 | adding the extras to a dump keeps the dumped keys first, in order, and adds every extra key |
| Types.MessageDumpFieldValues | src/whatsapp_cloud_api/types.py:140-146 | unless an extra of the same name overrides it, `id`, `type` and `timestamp` read back as their strings, `from_` and `to` as the value or absent when None, and `context` as the context's own dump or absent |
| Types.MessageDumpOtherValues | src/whatsapp_cloud_api/types.py:140-166 | a non-null extra reads back under its own key; a payload field not overridden by an extra reads back as in the payload dump; any other key is absent |
| Types.PayloadsDump | src/whatsapp_cloud_api/types.py:147-160 | `exclude_none` leaves no null payload value, dumps only the fourteen payload names, and each of them reads back as its dict (the contacts as their list) or is absent when None |
| Types.MessageDump | src/whatsapp_cloud_api/events/dispatcher.py:144 | `msg.model_dump(exclude_none=True)` starts with `id`, `type` and `timestamp` and holds every non-null extra |
| Client.RStripSlash | src/whatsapp_cloud_api/client.py:35 | `rstrip("/")` removes exactly the trailing slashes: a prefix that ends in no slash, all removed characters being slashes |
| Client.LStripSlash | src/whatsapp_cloud_api/client.py:70 | `lstrip("/")` removes exactly the leading slashes |
| Client.Url | src/whatsapp_cloud_api/client.py:67-70 | a path starting with "http" is used as is; any other is `base/version/path` with exactly its leading slashes removed |
| Client.AuthHeaders | src/whatsapp_cloud_api/client.py:72-74 | the auth headers are exactly `Authorization: Bearer <token>` |
| Client.StrippedBase | src/whatsapp_cloud_api/client.py:35 | the stored base URL ends in no slash, and stripping it again changes nothing |
| Client.DefaultUrlExample | src/whatsapp_cloud_api/client.py:18-19 | the default endpoint gives `https://graph.facebook.com/v23.0/123/messages`; an absolute URL is kept |
| Client.HGetPut | src/whatsapp_cloud_api/client.py:90 | in a header dict, setting a key changes that key's value only |
| Client.Merge | src/whatsapp_cloud_api/client.py:90 | in `{**a, **b}` every key of `b` is present and every other key keeps `a`'s value |
| Client.MergeLookup | src/whatsapp_cloud_api/client.py:90 | in `{**a, **b}` every key of `b` takes `b`'s value and other keys keep `a`'s |
| Client.HGetAbsent | src/whatsapp_cloud_api/client.py:90 | a name that is in no header pair is absent |
| Client.CallerHeadersWin | src/whatsapp_cloud_api/client.py:90 | the caller's headers override the bearer `Authorization` header, which is sent when the caller gives none |
| Client.Http.constructor | src/whatsapp_cloud_api/client.py:42-50 | a new HTTP client has made no call and is open |
| Client.Http.Send | src/whatsapp_cloud_api/client.py:92-100 | a call is appended to the calls made and answered by the server given every call so far |
| Client.Http.Close | src/whatsapp_cloud_api/client.py:63 | closing changes no call and leaves the client closed |
| Client.Finish | src/whatsapp_cloud_api/client.py:102-116 | a status below 400 returns the snake_cased body (`{}` for empty content); malformed JSON raises ValueError; 400 and above never returns, and a Graph error carries the status and the decoded body |
| Client.DecodeBody | src/whatsapp_cloud_api/client.py:105-107 | empty content gives `{}`; otherwise the parsed JSON, and content that does not parse raises ValueError |
| Client.Validated | src/whatsapp_cloud_api/client.py:116 | `Model.model_validate(resp)` returns the model exactly when the call succeeded and the body validates; otherwise the call's exception or the validation error |
| Client.EmptyErrorResponse | src/whatsapp_cloud_api/client.py:105-114 | an error status with an empty body gives the default Graph error for that status |
| Client.SuccessIsSnakeCase | src/whatsapp_cloud_api/client.py:116 | a successful result is already snake_case: converting it again changes nothing |
| Client.WhatsAppClient.constructor | src/whatsapp_cloud_api/client.py:25-51 | stores the token, the stripped base URL and the version; a given HTTP client is used and not owned, otherwise a new one is made and owned |
| Client.WhatsAppClient.Request | src/whatsapp_cloud_api/client.py:78-116 | exactly one call with the built URL and merged headers; with `raw_response` the response itself, otherwise the post-response rules |
| Client.WhatsAppClient.RequestDecoded | src/whatsapp_cloud_api/client.py:78-116 | `request` without `raw_response` returns the decoded body or what it raised |
| Client.WhatsAppClient.Get | src/whatsapp_cloud_api/client.py:118-119 | one GET of the path with the params |
| Client.WhatsAppClient.Post | src/whatsapp_cloud_api/client.py:121-129 | one POST of the path with json, data and files |
| Client.WhatsAppClient.Delete | src/whatsapp_cloud_api/client.py:131-132 | one DELETE of the path with the params |
| Client.WhatsAppClient.FetchRaw | src/whatsapp_cloud_api/client.py:134-138 | a GET of the URL as given with the caller's headers only, returning the response |
| Client.WhatsAppClient.FetchAuthenticated | src/whatsapp_cloud_api/client.py:140-145 | the same GET with the bearer header merged under the caller's |
| Client.WhatsAppClient.Aclose | src/whatsapp_cloud_api/client.py:61-63 | closes the HTTP client only if this client created it |
| MessageModels.MaxLen | src/whatsapp_cloud_api/resources/messages/models.py:212-213 | `Field(max_length=n)` accepts a string iff it has at most n characters, unchanged; otherwise a validation error at that field |
| MessageModels.OptMaxLen | src/whatsapp_cloud_api/resources/messages/models.py:17 | `Field(None, max_length=n)` accepts None or a string of at most n characters |
| MessageModels.Sized | src/whatsapp_cloud_api/resources/messages/models.py:220 | `Field(min_length=lo, max_length=hi)` accepts a list iff its length is within the bounds |
| MessageModels.Required | src/whatsapp_cloud_api/resources/messages/models.py:13-14 | a required field that was not given is a validation error |
| MessageModels.ParseRecipientType | src/whatsapp_cloud_api/resources/messages/models.py:15 | `recipient_type` defaults to "individual" and accepts only "individual" or "group" |
| MessageModels.MakeBase | src/whatsapp_cloud_api/resources/messages/models.py:12-17 | `BaseMessage` validates iff phone_number_id and to are given, the recipient type is one of the literals and the callback data has at most 512 characters, and then stores them |
| MessageModels.MakeDocument | src/whatsapp_cloud_api/resources/messages/models.py:63-72 | a document filename has at most 240 characters |
| MessageModels.MakeLocation | src/whatsapp_cloud_api/resources/messages/models.py:94-98 | a location name has at most 100 and an address at most 300 characters |
| MessageModels.MakeText | src/whatsapp_cloud_api/resources/messages/models.py:23-25 | `preview_url` defaults to False |
| MessageModels.MakeHeader | src/whatsapp_cloud_api/resources/messages/models.py:203-208 | a header type must be text, image, video or document |
| MessageModels.MakeButton | src/whatsapp_cloud_api/resources/messages/models.py:211-213 | a button id has at most 256 and a title at most 20 characters |
| MessageModels.MakeButtonsMessage | src/whatsapp_cloud_api/resources/messages/models.py:216-220 | body at most 1024, footer at most 60, one to three buttons |
| MessageModels.MakeListRow | src/whatsapp_cloud_api/resources/messages/models.py:226-229 | row id at most 200, title at most 24, description at most 72 characters |
| MessageModels.MakeListSection | src/whatsapp_cloud_api/resources/messages/models.py:232-234 | section title at most 24 characters, one to ten rows |
| MessageModels.MakeListMessage | src/whatsapp_cloud_api/resources/messages/models.py:237-242 | body at most 4096, button text at most 20, footer at most 60, one to ten sections |
| MessageModels.MakeProductMessage | src/whatsapp_cloud_api/resources/messages/models.py:248-252 | optional body at most 1024 and footer at most 60 characters |
| MessageModels.MakeProductSection | src/whatsapp_cloud_api/resources/messages/models.py:259-261 | section title at most 24 characters, one to thirty items |
| MessageModels.MakeProductListMessage | src/whatsapp_cloud_api/resources/messages/models.py:264-269 | body at most 1024, a required header, one to ten sections |
| MessageModels.MakeFlowParameters | src/whatsapp_cloud_api/resources/messages/models.py:275-281 | flow CTA at most 20 characters, message version defaulting to "3", flow action only navigate or data_exchange |
| MessageModels.MakeFlowMessage | src/whatsapp_cloud_api/resources/messages/models.py:284-288 | body at most 1024 characters |
| MessageModels.MakeCtaUrlMessage | src/whatsapp_cloud_api/resources/messages/models.py:294-303 | body at most 1024 and display text at most 20 characters |
| MessageModels.MakeLocationRequestMessage | src/whatsapp_cloud_api/resources/messages/models.py:309-316 | body and request message each at most 1024 characters |
| MessageModels.MakeCatalogMessage | src/whatsapp_cloud_api/resources/messages/models.py:322-328 | optional body at most 1024 characters; parameters and thumbnail both optional |
| MessageModels.LimitsAtTheEdge | tests/test_messages_models.py:1-253 | a 20-character title passes and a 21-character one fails; zero and four buttons fail while three pass; eleven sections fail while ten pass |
| MessageModels.RecipientTypeDefault | src/whatsapp_cloud_api/resources/messages/models.py:12-17 | omitting `recipient_type` gives "individual"; "broadcast" is rejected; phone_number_id and to are required |
| MessageModels.BaseDump | src/whatsapp_cloud_api/resources/messages/models.py:12-17 | the dump starts with phone_number_id, to and recipient_type as stored; context_message_id and biz_opaque_callback_data appear with their value iff given and not at all otherwise |
| MessageModels.MakeContactName | src/whatsapp_cloud_api/resources/messages/models.py:108-114 | `ContactName` validates iff `formatted_name` is given, and stores the five optional parts as given |
| MessageModels.ContactNameDumpFacts | src/whatsapp_cloud_api/resources/messages/models.py:108-114 | a dumped name starts with `formatted_name` and every value in it is a string |
| MessageModels.ContactDumpFacts | src/whatsapp_cloud_api/resources/messages/models.py:108-157 | a dumped contact starts with its name dict and, with `exclude_none`, holds no None at any level, through the address, email, phone and URL lists and the organisation |
| MessageModels.TemplateDump | src/whatsapp_cloud_api/resources/messages/models.py:178-193 | the template dump holds the name, then the language dict with its code and the policy iff given, then the components iff given, one per component |
| MessageModels.PayloadDump | src/whatsapp_cloud_api/resources/messages/models.py:23-197 | a text dumps to its body and preview flag; every other payload to one entry under its message type |
| MessageModels.PayloadObjectDumped | src/whatsapp_cloud_api/resources/messages/models.py:23-197 | the object under the message type holds exactly what the payload carries: the media `id` or `link` first, then caption, voice or filename only when given; latitude and longitude, then name and address when given; each contact's own dump; message id, then the emoji when given; the template's own dump |
| MessageModels.Serialize | src/whatsapp_cloud_api/resources/messages/resource.py:40-42 | `_serialize` is the base dump followed by the payload dump, nothing else: `messaging_product`, `to` and `recipient_type` first with their given values, and the payload last, under its type or as a text's body and preview flag |
| MessageModels.HeaderDump | src/whatsapp_cloud_api/resources/messages/models.py:203-208 | the header dump starts with its type; text, image, video and document appear with their value iff given |
| MessageModels.FlowParametersDump | src/whatsapp_cloud_api/resources/messages/models.py:275-281 | flow_id, flow_cta and flow_message_version come first as stored; flow_token, flow_action and flow_action_payload appear iff given |
| MessagesResource.SendHead | src/whatsapp_cloud_api/resources/messages/resource.py:59-72 | fails with KeyError exactly when the payload has no `to`; otherwise the body starts with messaging_product, recipient_type (default "individual"), to and type, in that order |
| MessagesResource.SendTail | src/whatsapp_cloud_api/resources/messages/resource.py:74-85 | a text payload without `body` raises KeyError; text gets body and preview_url (default false), interactive the payload itself, any other type its own entry or the payload; nothing else changes |
| MessagesResource.SendBodySpec | src/whatsapp_cloud_api/resources/messages/resource.py:59-85 | a payload without `to` raises KeyError; a shaped body holds the type-specific entry and the four fixed entries as given |
| MessagesResource.BuildSendHead | src/whatsapp_cloud_api/resources/messages/resource.py:59-72 | builds the four fixed entries by popping, runs the two-field loop and pops phone_number_id, as `SendHead` specifies; a payload without "to" raises KeyError |
| MessagesResource.BuildSendTail | src/whatsapp_cloud_api/resources/messages/resource.py:74-85 | adds the type-specific entry as `SendTail` specifies; a text payload without a body raises KeyError |
| MessagesResource.BuildSendBody | src/whatsapp_cloud_api/resources/messages/resource.py:59-85 | builds exactly the body `SendBodySpec` gives |
| MessagesResource.Send | src/whatsapp_cloud_api/resources/messages/resource.py:53-88 | a payload it cannot shape raises before any request; otherwise exactly one POST of the body to `{phone_number_id}/messages`, validated as a send response |
| MessagesResource.BaseDumpShape | src/whatsapp_cloud_api/resources/messages/resource.py:40-42 | the serialised base fields come first, in declaration order, with the None ones left out |
| MessagesResource.PopRecipientType | src/whatsapp_cloud_api/resources/messages/resource.py:61 | popping `recipient_type` reads the stored value and removes it |
| MessagesResource.PopTo | src/whatsapp_cloud_api/resources/messages/resource.py:62 | popping `to` reads it and removes it |
| MessagesResource.MoveOptional | src/whatsapp_cloud_api/resources/messages/resource.py:67-70 | one turn of the loop moves a given field to the body and drops a missing one |
| MessagesResource.MoveFieldsUnrolled | src/whatsapp_cloud_api/resources/messages/resource.py:67-70 | the loop runs exactly its two turns, context first |
| MessagesResource.MoveBaseFields | src/whatsapp_cloud_api/resources/messages/resource.py:67-70 | over a serialised base both optional fields move in order and the rest of the payload is untouched |
| MessagesResource.HeadOfSerialized | src/whatsapp_cloud_api/resources/messages/resource.py:59-72 | on a serialised base the first half of `_send` yields the wire head and exactly the payload fields |
| MessagesResource.PayloadDumpShape | src/whatsapp_cloud_api/resources/messages/models.py:23-197 | payload fields never reuse a base field name |
| MessagesResource.HeadAvoidsType | src/whatsapp_cloud_api/resources/messages/resource.py:59-70 | the head never holds the key the payload goes under |
| MessagesResource.SendBodyOfMessage | src/whatsapp_cloud_api/resources/messages/resource.py:53-180 | `send_text` ... `send_template` on a validated model post exactly the wire body: base fields consumed, payload under its type |
| MessagesResource.TailOfMessage | src/whatsapp_cloud_api/resources/messages/resource.py:74-85 | on a validated model the second half of `_send` yields exactly the wire body |
| MessagesResource.WireBody | src/whatsapp_cloud_api/resources/messages/resource.py:59-85 | every wire body has messaging_product "whatsapp", the recipient, the recipient type, the message type, `context_message_id` at the top level exactly when given, and never `context` or `phone_number_id` |
| MessagesResource.FixedEntries | src/whatsapp_cloud_api/resources/messages/resource.py:59-64 | the four fixed entries read back as given |
| MessagesResource.BuildInteractive | src/whatsapp_cloud_api/resources/messages/resource.py:104-113 | builds the interactive object as `InteractiveSpec` specifies |
| MessagesResource.BuildEnvelope | src/whatsapp_cloud_api/resources/messages/resource.py:115-125 | builds the outer body as `EnvelopeSpec` specifies |
| MessagesResource.SendInteractive | src/whatsapp_cloud_api/resources/messages/resource.py:90-128 | exactly one POST of the enveloped interactive object, validated as a send response |
| MessagesResource.SendInteractiveRaw | src/whatsapp_cloud_api/resources/messages/resource.py:383-406 | one POST of the caller's interactive object unchanged inside the same envelope |
| MessagesResource.InteractiveSpec | src/whatsapp_cloud_api/resources/messages/resource.py:104-113 | type and action always; body iff body_text is not None; footer iff footer_text is truthy; header iff the header is truthy |
| MessagesResource.EnvelopeSpec | src/whatsapp_cloud_api/resources/messages/resource.py:115-125 | the interactive object under `interactive` with type "interactive"; the reply context nested under `context` when truthy and never at the top level; callback data iff truthy |
| MessagesResource.ContextPlacementDiffers | src/whatsapp_cloud_api/resources/messages/resource.py:67-70 | for the same base with a reply context, `_send` puts `context_message_id` at the top level while `_send_interactive` nests `context.message_id` |
| MessagesResource.SendMessage | src/whatsapp_cloud_api/resources/messages/resource.py:132-180 | each plain `send_*` posts exactly the wire body of its message once |
| MessagesResource.SendButtons | src/whatsapp_cloud_api/resources/messages/resource.py:184-208 | posts type "button" with one reply per button, body, footer and the serialised header when given |
| MessagesResource.BuildListSections | src/whatsapp_cloud_api/resources/messages/resource.py:219-225 | the loop builds one section per input section, in order, each with its rows and a title only when truthy |
| MessagesResource.SendList | src/whatsapp_cloud_api/resources/messages/resource.py:212-239 | posts type "list" with the button text and the built sections |
| MessagesResource.SendProduct | src/whatsapp_cloud_api/resources/messages/resource.py:243-260 | posts type "product" with catalog and product ids and no header |
| MessagesResource.BuildProductSections | src/whatsapp_cloud_api/resources/messages/resource.py:267-272 | the loop builds one section per input section, with title and items, in order |
| MessagesResource.SendProductList | src/whatsapp_cloud_api/resources/messages/resource.py:264-288 | posts type "product_list" with the sections and always the header |
| MessagesResource.SendFlow | src/whatsapp_cloud_api/resources/messages/resource.py:292-313 | posts type "flow" with action name "flow" and the serialised parameters |
| MessagesResource.SendCtaUrl | src/whatsapp_cloud_api/resources/messages/resource.py:317-339 | posts type "cta_url" with display text and URL |
| MessagesResource.SendLocationRequest | src/whatsapp_cloud_api/resources/messages/resource.py:343-359 | posts type "location_request_message" with action name "send_location" only and no header |
| MessagesResource.SendCatalog | src/whatsapp_cloud_api/resources/messages/resource.py:363-379 | posts type "catalog_message" with no footer and no header |
| MessagesResource.MarkRead | src/whatsapp_cloud_api/resources/messages/resource.py:410-416 | posts the read receipt and returns the decoded response without validation |
| MessagesResource.ButtonsOnTheWire | src/whatsapp_cloud_api/resources/messages/resource.py:191-196 | a validated buttons message posts one to three reply buttons in input order, each id at most 256 and title at most 20 characters |
| MessagesResource.ListSectionTitles | src/whatsapp_cloud_api/resources/messages/resource.py:221-224 | each list section carries its rows, and a title exactly when the title is truthy |
| MessagesResource.CatalogParameters | src/whatsapp_cloud_api/resources/messages/resource.py:366-368 | the catalog action carries parameters exactly when a thumbnail product id is given and truthy |
| MessagesResource.LocationRequestIgnoresParameters | src/whatsapp_cloud_api/resources/messages/resource.py:346-359 | the request message is validated but never sent: messages differing only there post the same body |
| MessagesResource.HeaderRules | src/whatsapp_cloud_api/resources/messages/resource.py:243-288 | product and location-request messages never carry a header; a product list always does |
| Templates.ListEntriesDistinct | src/whatsapp_cloud_api/resources/templates/resource.py:21-37 | the eight candidate parameter names of `list` are distinct |
| Templates.ListStep | src/whatsapp_cloud_api/resources/templates/resource.py:21-37 | each assignment of `list` adds a new key |
| Templates.BuildListParams | src/whatsapp_cloud_api/resources/templates/resource.py:21-37 | the eight conditional assignments build exactly the specified parameters, in source order |
| Templates.ListParamGet | src/whatsapp_cloud_api/resources/templates/resource.py:21-37 | each candidate parameter is sent exactly when its value is there |
| Templates.ListParams | src/whatsapp_cloud_api/resources/templates/resource.py:22-37 | `limit` is sent whenever given, 0 included; every string filter only when non-empty |
| Templates.ListParamsNothingElse | src/whatsapp_cloud_api/resources/templates/resource.py:21-41 | no other parameter is sent, and `params or None` sends no query at all exactly when nothing is given |
| Templates.List | src/whatsapp_cloud_api/resources/templates/resource.py:20-43 | one GET of `{waba}/message_templates` with the parameters or none, validated by the response model |
| Templates.CreateStep | src/whatsapp_cloud_api/resources/templates/resource.py:46-55 | neither optional key of `create` is in the dict when its turn comes |
| Templates.BuildCreateBody | src/whatsapp_cloud_api/resources/templates/resource.py:46-55 | the dict literal and the two conditional assignments build exactly the specified body |
| Templates.CreateBody | src/whatsapp_cloud_api/resources/templates/resource.py:46-55 | the body always has name, language and category as given and `components` holding exactly the given components in order; `parameter_format` only when non-empty; `allow_category_change` whenever given, false included |
| Templates.Create | src/whatsapp_cloud_api/resources/templates/resource.py:45-61 | one POST of the body to `{waba}/message_templates`, validated by the response model |
| Templates.BuildDeleteParams | src/whatsapp_cloud_api/resources/templates/resource.py:64-66 | the literal and the conditional assignment build exactly the specified parameters |
| Templates.DeleteParams | src/whatsapp_cloud_api/resources/templates/resource.py:64-66 | `delete` always sends the name; the language goes out as `hsm_id`, only when non-empty, and never as `language` |
| Templates.Delete | src/whatsapp_cloud_api/resources/templates/resource.py:63-72 | one DELETE of `{waba}/message_templates` with the parameters, always sent, validated by the response model |
| PhoneNumbers.MakeRequestCodeInput | src/whatsapp_cloud_api/resources/phone_numbers.py:18-21 | a code request is accepted exactly when the language has at least two characters; otherwise a validation error on `language` |
| PhoneNumbers.RequestCodeBodySpec | src/whatsapp_cloud_api/resources/phone_numbers.py:102-106 | a code request sends exactly the code method and the language, and that language has at least two characters |
| PhoneNumbers.RequestCode | src/whatsapp_cloud_api/resources/phone_numbers.py:102-106 | one POST of the code method and language to `{phone}/request_code` |
| PhoneNumbers.VerifyCode | src/whatsapp_cloud_api/resources/phone_numbers.py:108-112 | one POST of the code alone to `{phone}/verify_code` |
| PhoneNumbers.BuildRegisterBody | src/whatsapp_cloud_api/resources/phone_numbers.py:115-120 | the literal and the conditional assignment build exactly the specified body |
| PhoneNumbers.RegisterBody | src/whatsapp_cloud_api/resources/phone_numbers.py:115-120 | `register` always sends `messaging_product` "whatsapp" and the pin, and the data localization region only when non-empty |
| PhoneNumbers.Register | src/whatsapp_cloud_api/resources/phone_numbers.py:114-121 | one POST of that body to `{phone}/register` |
| PhoneNumbers.Deregister | src/whatsapp_cloud_api/resources/phone_numbers.py:123-124 | one POST of an empty object to `{phone}/deregister` |
| PhoneNumbers.GetProfile | src/whatsapp_cloud_api/resources/phone_numbers.py:59-67 | one GET of `{phone}/whatsapp_business_profile` asking for the seven profile fields, validated by the profile model |
| PhoneNumbers.ProfileEntriesDistinct | src/whatsapp_cloud_api/resources/phone_numbers.py:39-48 | the seven profile field names are distinct |
| PhoneNumbers.ProfileFieldSent | src/whatsapp_cloud_api/resources/phone_numbers.py:69-71 | each profile field is sent exactly when it is not `None`, with its value |
| PhoneNumbers.ProfileBody | src/whatsapp_cloud_api/resources/phone_numbers.py:69-71 | the profile update always sends `messaging_product` "whatsapp", never the phone number id, an empty string as given, and nothing outside the profile fields |
| PhoneNumbers.UpdateProfile | src/whatsapp_cloud_api/resources/phone_numbers.py:69-75 | one POST of that body to `{phone}/whatsapp_business_profile` |
| PhoneNumbers.GetSettings | src/whatsapp_cloud_api/resources/phone_numbers.py:84-85 | one GET of `{phone}/settings` |
| PhoneNumbers.UpdateSettings | src/whatsapp_cloud_api/resources/phone_numbers.py:87-88 | one POST of the keyword arguments, as given, to `{phone}/settings` |
| Media.ParseMediaType | src/whatsapp_cloud_api/resources/media.py:17 | the media type is accepted exactly when it is one of the five literal names, and the parsed value carries that name |
| Media.MediaTypeRoundTrip | src/whatsapp_cloud_api/resources/media.py:17 | every media type parses back from its own name |
| Media.MakeMediaUploadInput | src/whatsapp_cloud_api/resources/media.py:15-21 | an upload input is built exactly when the type is valid; file name, MIME type and messaging product take their defaults "file", "application/octet-stream" and "whatsapp" when not given |
| Media.Upload | src/whatsapp_cloud_api/resources/media.py:30-36 | one multipart POST to `{phone}/media` with the messaging product, the MIME type as the field "type" and the file part, validated by the upload response model |
| Media.UploadSendsMimeType | src/whatsapp_cloud_api/resources/media.py:33-34 | the form field "type" and the file part both carry the MIME type, and the media category does not change what is sent |
| Media.GetMedia | src/whatsapp_cloud_api/resources/media.py:38-40 | one GET of the media id, validated by the metadata model |
| Media.DeleteMedia | src/whatsapp_cloud_api/resources/media.py:42-43 | one DELETE of the media id |
| Media.Download | src/whatsapp_cloud_api/resources/media.py:45-69 | the calls made and the result are those of the download specification: metadata, a fetch, a retried authenticated fetch on 401/403, then the status check |
| Media.FetchSpec | src/whatsapp_cloud_api/resources/media.py:59-69 | the URL is fetched at most twice: authenticated first exactly when asked, and a second, authenticated fetch exactly on 401/403; the last fetch's content is returned exactly when it was 2xx, otherwise an HTTP status error with its status |
| Media.DownloadSpec | src/whatsapp_cloud_api/resources/media.py:58-69 | the metadata is read first; a failed metadata read fails with no fetch; otherwise the fetches of its URL follow, as `FetchSpec` gives them |
| Flows.Publish | src/whatsapp_cloud_api/resources/flows.py:102-103 | one POST of an empty object to `{flow}/publish` |
| Flows.Deprecate | src/whatsapp_cloud_api/resources/flows.py:105-106 | one POST of an empty object to `{flow}/deprecate` |
| Flows.Categories | src/whatsapp_cloud_api/resources/flows.py:70 | the categories sent are never empty: the given list when non-empty, otherwise `["OTHER"]` |
| Flows.Create | src/whatsapp_cloud_api/resources/flows.py:65-84 | the calls made and the result are those of the create specification: the multipart create call, then the optional publish |
| Flows.CreateSpec | src/whatsapp_cloud_api/resources/flows.py:65-84 | `create` makes the create call and at most one more, a publish of the response's non-empty string id, only when asked; without `publish` it returns the create response; success is always that response |
| Flows.PublishTarget | src/whatsapp_cloud_api/resources/flows.py:79-84 | nothing is published unless asked; when asked, a non-empty string id is published, a non-dict response raises AttributeError and a truthy non-string id a validation error |
| Flows.AssetSource | src/whatsapp_cloud_api/resources/flows.py:89-94 | `update_asset` fails with ValueError exactly when neither non-empty JSON data nor non-empty bytes are given; non-empty JSON data wins |
| Flows.UpdateAssetSpec | src/whatsapp_cloud_api/resources/flows.py:86-100 | no call and a ValueError exactly when neither non-empty JSON data nor non-empty bytes are given; otherwise one asset POST, of the JSON data when given, whose decoded response is returned |
| Flows.UpdateAsset | src/whatsapp_cloud_api/resources/flows.py:86-100 | the calls and result are those of the asset specification: ValueError before any request, otherwise one multipart POST to `{flow}/assets` |
| Flows.BuildPreviewParams | src/whatsapp_cloud_api/resources/flows.py:109-113 | the conditional assignments of `preview` build exactly the specified parameters |
| Flows.PreviewParamsSpec | src/whatsapp_cloud_api/resources/flows.py:109-114 | `interactive` is sent whenever given, false included; `fields` only when non-empty; no query when neither; the input's `params` never changes what is sent |
| Flows.Preview | src/whatsapp_cloud_api/resources/flows.py:108-114 | one GET of `{flow}/preview` with those parameters or none |
| Flows.GetFlow | src/whatsapp_cloud_api/resources/flows.py:116-118 | one GET of the flow id, with `fields` only when non-empty |
| Flows.BuildListParams | src/whatsapp_cloud_api/resources/flows.py:127-131 | the conditional assignments of `list` build exactly the specified parameters |
| Flows.ListParamsSpec | src/whatsapp_cloud_api/resources/flows.py:127-132 | `limit` is sent whenever given, 0 included; `after` only when non-empty; no query when neither |
| Flows.List | src/whatsapp_cloud_api/resources/flows.py:120-132 | one GET of `{waba}/flows` with those parameters or none |
| Flows.Deploy | src/whatsapp_cloud_api/resources/flows.py:134-157 | the calls made and the result are those of the deploy specification |
| Flows.DeployFinishExtends | src/whatsapp_cloud_api/resources/flows.py:152-157 | after its first step, `deploy` adds at most one call and none after a failure; that call publishes a non-empty id, only when asked, and it is the given flow id when there is one |
| Flows.DeployFinish | src/whatsapp_cloud_api/resources/flows.py:152-157 | a failed first step is returned unchanged; a success is the first response with the flow id (the given one, else the response's `id`, else "") and `published` added |
| Flows.DeployFirstCalls | src/whatsapp_cloud_api/resources/flows.py:136-150 | the first step of `deploy` is the asset upload of the flow JSON for a given flow id (a ValueError with no call when that JSON is empty), otherwise the create call alone |
| Flows.DeploySpec | src/whatsapp_cloud_api/resources/flows.py:134-157 | `deploy` makes at most two calls: the asset upload of the flow JSON for a given flow id (ValueError with no call when it is empty), otherwise a create without publishing; a second call is a publish of a non-empty id, only when asked, of the given flow id when there is one. A failed first step is what `deploy` returns; a success is the first response with `flow_id` (the given id, else the response's `id`, else "") and `published` set to the input's flag |
| Flows.DeployResult | src/whatsapp_cloud_api/resources/flows.py:157 | the result is the inner response with `flow_id` and `published` set and every other key kept; a non-dict response raises TypeError |
| Flows.DeployFlowId | src/whatsapp_cloud_api/resources/flows.py:152 | a given flow id is reported as is; otherwise the response's id, or "" when it has none; a non-dict response raises AttributeError |

## Left out

- The HTTP transport is not modelled: httpx `AsyncClient`, HTTP/2, connection limits, timeouts and async/await. A request is a recorded call answered by an oracle.
- The async context manager (`__aenter__`/`__aexit__`) is not modelled; `aclose` is.
- The cached resource accessors of the client are not modelled. They only build resource objects that hold the client.
- webhooks/verify.py, the HMAC-SHA256 signature check, is not part of this model. Its point is constant-time comparison, a timing property.
- The JSON text codec is opaque:
  - `resp.json()` and `json.loads` are parameters that decode or fail;
  - `json.dumps` output is the value `EncodedJson` of what was encoded, never its characters.
- `float()` is modelled on decimal text only. It accepts surrounding whitespace, an optional sign, digits with an optional fraction, and `inf`, `infinity` or `nan` in any case. The model uses exact rationals, so exponents, `_` separators and binary rounding are not modelled. Latitude, longitude and the client timeout are opaque numbers.
- Retry.HeaderMillis: the double range is checked by comparing the exact value times 1000 against 2^1024 - 2^970, the smallest magnitude that rounds to infinity. A value within rounding distance of that bound may raise in Python where the model does not, or the reverse, because rounding to the nearest double before the multiplication is not modelled.
- `str()` of a float, list or dict is not modelled; the model renders it as "". This matters only where a non-string interactive type or error message is interpolated.
- Unicode case mapping is not modelled. Case conversion works on ASCII letters, and `lru_cache` only memoises, so it is left out.
- The pydantic machinery is left out: `model_validate` and `model_dump` internals, union resolution and coercions beyond the field constraints and defaults listed above.
- The template response models and the business-profile response model are passed in as the `validate` function of the operation that uses them. `MediaUploadResponse` and `MediaMetadata` are modelled in `Types`.
- The request models in resources/templates/models.py hold fields only. The template operations take those fields as arguments.
- `_to_api_key` in the messages resource is never called and is not modelled.
- `EventEmitter` is a sink that records events in order. Listener registration and delivery are outside this model.
