# flespi-client core, modelled in Dafny

This project models the core of the Go client library for the flespi API
(`flespi-client`). The model has three parts.

**The client.** `client.go`, `retry.go`, `errors.go`, `validation.go` and
`logger.go` cover these steps:

- building a `Client` from functional options;
- sending an authenticated request and turning a non-2xx answer into an `APIError`;
- retrying transient failures with capped exponential backoff;
- validating inputs;
- level-gated logging.

**The decoders.** These are the polymorphic JSON decoders of the resources:

- calculator counters and selectors, whose struct is chosen by a `type` tag;
- `Calculator.UnmarshalJSON` and its message-source union;
- geofence geometries and `Geofence.UnmarshalJSON`;
- the platform webhooks in their two versions: `resources/platform/webhook` and the older root file `platform_webhooks.go`.

**The option constructors.** These build each resource.

A JSON document is the datatype `Json.Json`. Go's "decode into a struct" is a
pair: a predicate `XFits(v)` says that `json.Unmarshal` into struct X succeeds
on `v`, and a function `XFrom(v)` gives the filled struct. An absent key or a
`null` leaves the zero value. A Go method with a pointer receiver that
decodes in place becomes a specification function `XDecoded(prior, data)`. It
returns what the receiver holds afterwards together with the error, including
the partly written receiver on failure. Where the Go code has a loop, a Dafny
`method` runs the statements in source order. Its `ensures` ties the method to
that function.

The modules:

- `Json` (json.dfy): the JSON values, field access with Go's zero values, and encoders with their round trips;
- `Ordered` (ordered.dfy): element-by-element array decoding that stops at the first error, and left-to-right option application;
- `Text` (text.dfy): `strings.TrimSpace`, `strings.HasPrefix` and decimal formatting;
- `Errors`, `Validation`, `Logging`, `Retry` and `Clients`: the root package;
- `Geofences`, `Selectors`, `Counters` and `Calculators`: the gateway resources;
- `Webhooks` and `PlatformWebhooks`: the two webhook decoders.

The code that cannot be seen is passed in as a function parameter:

- the HTTP transport and `io.ReadAll` become `transport`;
- the JSON byte parser becomes `parse`;
- `http.NewRequestWithContext`'s refusal becomes `newRequestError`;
- the caller's `json.Unmarshal` target becomes `decoder`;
- the server's answers and the context become `send` and `cancelled`.

## Model

| member | source | states |
|---|---|---|
| Errors.ParseAPIError | errors.go:40-56 | status, method, endpoint and raw body are always kept; the reason list is filled exactly when the body decodes as `{errors: [...]}` with at least one reason, and then the message is empty; otherwise the message is the body text |
| Errors.UnparsedBodyIsMessage | errors.go:44-53 | a body that is not JSON, or JSON without reasons, becomes the error message |
| Errors.ErrorText | errors.go:25-32 | the text starts with "flespi API error: " and ends with the first reason when there is one, else with the message |
| Errors.StatusPredicates | errors.go:59-80 | on an APIError, IsNotFoundError, IsUnauthorizedError and IsRateLimitError hold exactly for 404, 401 and 429, whatever the body |
| Errors.OtherErrorsUnclassified | errors.go:59-80 | nil and every non-APIError satisfy none of the three predicates |
| Validation.ValidationErrorText | validation.go:14-16 | the text is "validation error: " then the field, " - " and the message |
| Validation.ValidateID | validation.go:19-27 | fails exactly when id <= 0, with "must be greater than 0" on the given field |
| Validation.ValidateRequired | validation.go:30-38 | any failure is "is required and cannot be empty" on the given field |
| Validation.RequiredRefusesBlank | validation.go:30-38 | a value is refused exactly when it is empty or white space only (TrimSpace gives "") |
| Validation.ValidateURL | validation.go:41-54 | the required check comes first and its error is returned unchanged; every failure is a validation error on the field |
| Validation.URLAcceptsExactlyHttp | validation.go:41-54 | a URL passes exactly when it starts with http:// or https://; a non-blank URL that fails gets the scheme message |
| Validation.ValidateToken | validation.go:57-59 | fails exactly on a blank token, as a required error on "token" |
| Validation.ValidateHost | validation.go:62-64 | passes exactly on an http:// or https:// host; failures name "host" |
| Validation.ValidatorsFailWithValidationErrors | validation.go:67-70 | every failure of the validators satisfies IsValidationError and none is an API not-found error |
| Logging.LevelOf | logger.go:67-89 | each Logger method writes at one of the four levels 0 to 3 |
| Logging.NewStdLogger | logger.go:60-65 | a standard logger holding the given level |
| Logging.Emit | logger.go:32-89 | a call prints exactly when the logger is a StdLogger whose level is at most the method's level; the line is the method's tag followed by the message |
| Logging.EmitMonotone | logger.go:67-89 | a logger that prints a message at one level prints it at every more severe level |
| Logging.StdLoggerGates | logger_test.go:20-95 | the level table: Debug prints at Debug, not at Info; Info not at Warn; Warn not at Error; Error at Error; NoOpLogger never prints |
| Logging.LevelName | logger.go:142-155 | the four levels are named DEBUG, INFO, WARN and ERROR; any other level is "UNKNOWN(" followed by its decimal number (Text.Decimal, pinned by DecimalRoundTrip) and ")" |
| Logging.LevelNamesDistinct | logger.go:142-155 | different levels always have different names, the unknown ones included |
| Logging.UnknownLevelName | logger_test.go:97-117 | level 99 is named "UNKNOWN(99)", and level -1 "UNKNOWN(-1)" |
| Logging.LogRequest | logger.go:92-102 | a call exists exactly when a logger is set; it is a Debugf starting "Request: " and the method, and mentions a payload exactly when there is one |
| Logging.LogResponse | logger.go:105-115 | a call exists exactly when a logger is set; it is an Errorf ending with the error's text when there is an error, and a Debugf otherwise |
| Logging.LogError | logger.go:118-122 | an Errorf of the message exactly when a logger is set |
| Logging.LogDebug | logger.go:125-129 | a Debugf of the message exactly when a logger is set |
| Logging.HelpersThroughLevels | logger.go:92-115 | at Info or above no request line is printed; an Error-level logger prints failed responses but not successful ones |
| Retry.ShouldRetry | retry.go:55-65 | retry exactly when a config is set, MaxRetries is not 0, and the error is an APIError whose status is retryable |
| Retry.DefaultRetriesTransientStatuses | retry.go:31-45 | the default config retries exactly 429, 500, 502, 503 and 504, and never 400, 401 or 404 |
| Retry.PowMonotone | retry.go:73 | with a multiplier of at least 1 the power never decreases and is at least 1 |
| Retry.CalculateBackoff | retry.go:68-79 | no config waits 0; otherwise initial times multiplier^attempt, capped at MaxBackoff |
| Retry.BackoffNonDecreasing | retry.go:68-79 | with a multiplier of at least 1 the backoff never shrinks from one attempt to the next |
| Retry.DefaultBackoffSchedule | retry_test.go:62-86 | the default backoffs are 1, 2, 4, 8 and 16 s, then 30 s from attempt 5 on |
| Retry.DoRequestWithRetry | retry.go:82-126 | the loop returns the same body, error, attempt count and waits as the reference definition RetryOutcome |
| Retry.RetryFromShape | retry.go:82-126 | from any attempt the loop ends on a success, a non-retryable error, an exhausted budget or a cancelled backoff, and every earlier attempt failed retryably |
| Retry.RetryRun | retry.go:82-126 | with a non-negative budget there are 1 to MaxRetries+1 attempts; a body is returned only from a successful last attempt, and every attempt before the last failed with a retryable error and waited out its backoff |
| Retry.RetryFromWaits | retry.go:104-118 | each wait the loop starts is CalculateBackoff of the attempt that failed, in order |
| Retry.RetryWaits | retry.go:104-118 | over a whole run, wait k is CalculateBackoff(k), and there is one wait per retried attempt |
| Retry.NoConfigSingleAttempt | retry.go:82-126 | without a config the request is sent once and its result returned unchanged |
| Retry.NegativeBudgetSendsNothing | retry.go:83-90 | a negative MaxRetries sends nothing and returns neither body nor error |
| Retry.NonRetryableStopsAtOnce | retry_test.go:133-154 | a non-retryable first error comes back after exactly one attempt, with no wait |
| Retry.TransientFailuresThenSuccess | retry_test.go:88-131 | two 503 answers and then a success give the body after three attempts, with waits of 10 ms and 20 ms |
| Clients.HttpClient.constructor | client.go:72 | an HTTP client with the given timeout |
| Clients.Client.constructor | client.go:69-73 | a client with host, token and HTTP client set, and no retry config or logger |
| Clients.Client.DoRequest | client.go:82-103 | for a client with an HTTP client set, the transport receives the request with the token and JSON headers; a transport failure comes back as is; a non-2xx status becomes the parsed APIError; a 2xx status returns the body |
| Clients.Client.RequestAPIWithContext | client.go:111-140 | the request goes to host + "/" + endpoint; a refused request, a failed request or a failed decode returns that error; a nil target skips decoding |
| Clients.NewRequest | client.go:122 | the URL is host, one '/', then endpoint; the method and payload are kept and no header is set |
| Clients.Authorized | client.go:83-84 | adds exactly Authorization "FlespiToken <token>" and Content-Type "application/json", keeps every other header, method, URL and body |
| Clients.CheckStatus | client.go:97-102 | success exactly for 200..299, returning the body; any other status is an APIError carrying the status, method, endpoint and raw body |
| Clients.StatusExamples | client_test.go:180-258 | 201 and 204 succeed; 404 is a not-found error, 401 an unauthorized one; 500 is not a not-found error |
| Clients.RequestAPIOutcomes | client.go:111-140 | the request handed to the transport goes to host + "/" + endpoint with "FlespiToken " and the client's token; success implies a 2xx answer to it; an API error carries the status of a non-2xx answer to it; without a target nothing is decoded |
| Clients.EnableDebugLogging | logger.go:132-135 | sets a logger that prints every method |
| Clients.EnableInfoLogging | logger.go:137-139 | sets a logger that prints every method except Debugf |
| Clients.CurrentIsSupplied | client.go:41-45 | a caller's HTTP client that ends up in place was supplied by a WithHTTPClient option |
| Clients.NewClient | client.go:68-80 | host and token are stored; the retry config and logger are those of the last option that sets them; the HTTP client is the last one given, or a fresh one with a 10 s timeout changed only by timeouts set while it was in place; each caller client's timeout is the last one set while it was in place, and otherwise unchanged |
| Clients.TimeoutOrdering | client.go:48-52 | WithTimeout applies to the HTTP client in place at that moment; a later WithHTTPClient discards it |
| Ordered.DecodeEach | resources/gateway/calculator/counter.go:465-478 | the decoded list is the elements before the first failing one, each decoded in order; the error is that element's error |
| Ordered.DecodeEachSucceedsIff | resources/gateway/calculator/selector.go:253-265 | the array decodes exactly when every element does |
| Ordered.DecodeEachFirstError | resources/platform/webhook/utils.go:5-19 | the error returned is the first failing element's, after exactly the elements before it |
| Ordered.DecodeEachAppend | resources/gateway/calculator/selector.go:160-168 | decoding a concatenation decodes the first part first, and the second only when the first succeeded completely |
| Ordered.DecodeAppend | resources/gateway/calculator/selector.go:160-168 | the append loop leaves the prior elements followed by the decoded prefix, with the first element error |
| Ordered.ApplyAllAppend | client.go:75-77 | applying options a then b is applying a, then b to the result |
| Ordered.ApplyAllPreserves | client.go:75-77 | a property that every option preserves holds after any list of options |
| Ordered.ApplyOptions | client.go:75-77 | the option loop gives the left-to-right application of the options |
| Text.SkipSpaces | validation.go:31 | the index skips only white space and stops at a non-space or the end |
| Text.SkipSpacesBack | validation.go:31 | the index skips only white space backwards and stops after a non-space or at the lower bound |
| Text.TrimSpace | validation.go:31 | the result is the slice between the first and last non-space characters; all characters cut off are spaces and the result starts and ends with a non-space |
| Text.TrimSpaceEmptyIff | validation.go:31 | TrimSpace gives "" exactly when the string is all white space |
| Text.NatDigitsRoundTrip | logger.go:153 | the decimal digits of a natural number parse back to it |
| Text.DecimalRoundTrip | logger.go:153 | the decimal form of any integer parses back to it, so different integers print differently |
| Geofences.NewCircle | resources/gateway/geofence/types.go:64-70 | a circle with the given center and radius whose stored type is "circle", the name GetType reports |
| Geofences.NewPolygon | resources/gateway/geofence/types.go:77-83 | a polygon with the given path whose stored type is "polygon" |
| Geofences.NewCorridor | resources/gateway/geofence/types.go:91-97 | a corridor with the given path and width whose stored type is "corridor" |
| Geofences.UnmarshalGeometry | resources/gateway/geofence/utils.go:5-26 | succeeds exactly when the Circle or the Polygon decode succeeds; never yields a Corridor; yields a Polygon only when the Circle decode failed; keeps the stored type; a failure is the Corridor decode's error |
| Geofences.PointRoundTrip | resources/gateway/geofence/types.go:52-56 | a point survives encoding and decoding |
| Geofences.PathRoundTrip | resources/gateway/geofence/types.go:72-75 | a path of points survives encoding and decoding |
| Geofences.CircleRoundTrip | resources/gateway/geofence/utils.go:5-26 | an encoded circle decodes back to itself |
| Geofences.NonCircleDecodesAsCircle | resources/gateway/geofence/utils.go:8-11 | an encoded polygon or corridor decodes as a zero circle, which reports "circle" |
| Geofences.ObjectWithoutCircleKeysIsCircle | resources/gateway/geofence/utils.go:8-11 | any object with a string type and no center or radius key decodes as a zero circle |
| Geofences.PolygonOnlyAfterCircleFieldMismatch | resources/gateway/geofence/utils.go:13-18 | a Polygon result means the center or the radius did not fit the Circle struct |
| Geofences.UnmarshalGeofence | resources/gateway/geofence/types.go:20-50 | a body that fails the raw struct leaves the receiver unchanged; otherwise id, name, enabled and priority are copied; the geometry is set exactly when it is present and decodes, and is otherwise left as it was |
| Geofences.ApplyGeofenceOption | resources/gateway/geofence/types.go:106-122 | each option sets only its own field: status, priority or geometry; WithGeometry with a nil geometry clears it |
| Selectors.SelectorTypesDistinct | resources/gateway/calculator/selector.go:39-41 | GetSelectorType is one of the five tags, and two selectors report the same tag exactly when they are of the same struct |
| Selectors.CopyGeofenceScalars | resources/gateway/calculator/selector.go:147-158 | copying the scalar fields leaves the geometry list unchanged |
| Selectors.GeofenceDecodedInOrder | resources/gateway/calculator/selector.go:119-168 | the scalars are copied from the raw struct; the geometries are decoded in array order and appended after the prior ones, stopping at the first failure |
| Selectors.UnmarshalSelectorGeofence | resources/gateway/calculator/selector.go:119-168 | the receiver's statements give exactly GeofenceDecoded |
| Selectors.DecodeInto | resources/gateway/calculator/selector.go:280-299 | the partly filled struct is always returned; the error is set exactly when the struct does not fit |
| Selectors.UnmarshallSelector | resources/gateway/calculator/selector.go:267-304 | a failed probe or an unknown tag returns nil with its error; a known tag returns a selector of the struct whose GetSelectorType is that tag; no error implies a selector |
| Selectors.PartialExpression | resources/gateway/calculator/selector.go:276-304 | a body that fails to decode still comes back as a partly filled expression selector, next to the error |
| Selectors.SelectorResult | resources/gateway/calculator/selector.go:256-262 | the selector and error as the loop of unmarshalSelectors reads them |
| Selectors.UnmarshalSelectors | resources/gateway/calculator/selector.go:253-265 | success exactly when every element decodes without error, with one selector per element in order; otherwise the first element's error and no selectors |
| Selectors.NewSelectorExpression | resources/gateway/calculator/selector.go:43-55 | the base selector with the options applied in order; without options its name, tag and expression are the arguments |
| Selectors.NewSelectorDateOrTime | resources/gateway/calculator/selector.go:77-88 | the base datetime selector with the options applied in order |
| Selectors.ApplySelectorGeofenceOption | resources/gateway/calculator/selector.go:189-193 | WithGeometry appends exactly one geometry and changes nothing else |
| Selectors.NewSelectorGeofence | resources/gateway/calculator/selector.go:173-184 | name and tag are set, and the geometries are exactly the options' geometries in order |
| Selectors.WithGeometriesInOrder | resources/gateway/calculator/selector.go:189-193 | after any list of WithGeometry options the selector holds its earlier geometries followed by the given ones in order |
| Selectors.NewSelectorCalculator | resources/gateway/calculator/selector.go:217-228 | the base calculator selector with the options applied in order |
| Selectors.NewSelectorInactive | resources/gateway/calculator/selector.go:243-251 | name and delay threshold are the arguments and the tag is "inactive" |
| Counters.GoTypeName | resources/gateway/calculator/counter.go:613-621 | the `%T` name is "string", "float64" or "bool" exactly for a JSON string, number or boolean |
| Counters.UnmarshalCounterSpecified | resources/gateway/calculator/counter.go:602-623 | the kind of `value` picks the string, number or boolean struct, built by its constructor with type "specified"; any other kind is an unsupported value type naming the Go type |
| Counters.UnmarshalCounter | resources/gateway/calculator/counter.go:481-520 | a failed probe or an unknown tag is an error; a decoded counter is the struct its tag names, holds that tag as its Type and keeps the name |
| Counters.NonObjectFailsAtProbe | resources/gateway/calculator/counter.go:482-488 | a value that is neither an object nor null fails at the type probe |
| Counters.MissingTypeIsUnknown | resources/gateway/calculator/counter.go:517-518 | a missing or null type is the unknown counter type "" |
| Counters.UnmarshalCounters | resources/gateway/calculator/counter.go:465-478 | success exactly when every element decodes, with one counter per element in order; otherwise the first element's error and no counters |
| Counters.UnmarshalCounterExpression | resources/gateway/calculator/counter.go:522-528 | succeeds exactly when the value decodes into CounterExpression, giving that struct filled from the input; otherwise the error names CounterExpression |
| Counters.UnmarshalCounterDataset | resources/gateway/calculator/counter.go:530-536 | succeeds exactly when the value decodes into CounterDataset, giving that struct filled from the input; otherwise the error names CounterDataset |
| Counters.UnmarshalCounterRoute | resources/gateway/calculator/counter.go:538-544 | succeeds exactly when the value decodes into CounterRoute, giving that struct filled from the input; otherwise the error names CounterRoute |
| Counters.UnmarshalCounterDatetime | resources/gateway/calculator/counter.go:546-552 | succeeds exactly when the value decodes into CounterDatetime, giving that struct filled from the input; otherwise the error names CounterDatetime |
| Counters.UnmarshalCounterParameter | resources/gateway/calculator/counter.go:554-560 | succeeds exactly when the value decodes into CounterParameter, giving that struct filled from the input; otherwise the error names CounterParameter |
| Counters.UnmarshalCounterMessage | resources/gateway/calculator/counter.go:562-568 | succeeds exactly when the value decodes into CounterMessage, giving that struct filled from the input; otherwise the error names CounterMessage |
| Counters.UnmarshalCounterInterval | resources/gateway/calculator/counter.go:570-576 | succeeds exactly when the value decodes into CounterInterval, giving that struct filled from the input; otherwise the error names CounterInterval |
| Counters.UnmarshalCounterActive | resources/gateway/calculator/counter.go:578-584 | succeeds exactly when the value decodes into CounterActive, giving that struct filled from the input; otherwise the error names CounterActive |
| Counters.UnmarshalCounterGeofence | resources/gateway/calculator/counter.go:586-592 | succeeds exactly when the value decodes into CounterGeofence, giving that struct filled from the input; otherwise the error names CounterGeofence |
| Counters.UnmarshalCounterVariable | resources/gateway/calculator/counter.go:594-600 | succeeds exactly when the value decodes into CounterVariable, giving that struct filled from the input; otherwise the error names CounterVariable |
| Counters.UnmarshalCounterCalculator | resources/gateway/calculator/counter.go:625-631 | succeeds exactly when the value decodes into CounterCalculator, giving that struct filled from the input; otherwise the error names CounterCalculator |
| Counters.UnmarshalCounterAccumulator | resources/gateway/calculator/counter.go:633-639 | succeeds exactly when the value decodes into CounterAccumulator, giving that struct filled from the input; otherwise the error names CounterAccumulator |
| Counters.SelectsCalculator | resources/gateway/calculator/counter.go:513-514 | the tag "calculator" dispatches to unmarshalCounterCalculator |
| Counters.SelectsAccumulator | resources/gateway/calculator/counter.go:515-516 | the tag "accumulator" dispatches to unmarshalCounterAccumulator |
| Counters.SelectsExpression | resources/gateway/calculator/counter.go:491-492 | the tag "expression" dispatches to unmarshalCounterExpression |
| Counters.SelectsDataset | resources/gateway/calculator/counter.go:493-494 | the tag "dataset" dispatches to unmarshalCounterDataset |
| Counters.SelectsRoute | resources/gateway/calculator/counter.go:495-496 | the tag "route" dispatches to unmarshalCounterRoute |
| Counters.SelectsDatetime | resources/gateway/calculator/counter.go:497-498 | the tag "datetime" dispatches to unmarshalCounterDatetime |
| Counters.SelectsParameter | resources/gateway/calculator/counter.go:499-500 | the tag "parameter" dispatches to unmarshalCounterParameter |
| Counters.SelectsMessage | resources/gateway/calculator/counter.go:501-502 | the tag "message" dispatches to unmarshalCounterMessage |
| Counters.SelectsInterval | resources/gateway/calculator/counter.go:503-504 | the tag "interval" dispatches to unmarshalCounterInterval |
| Counters.SelectsActive | resources/gateway/calculator/counter.go:505-506 | the tag "active" dispatches to unmarshalCounterActive |
| Counters.SelectsGeofence | resources/gateway/calculator/counter.go:507-508 | the tag "geofence" dispatches to unmarshalCounterGeofence |
| Counters.SelectsVariable | resources/gateway/calculator/counter.go:509-510 | the tag "variable" dispatches to unmarshalCounterVariable |
| Counters.SelectsSpecified | resources/gateway/calculator/counter.go:511-512 | the tag "specified" dispatches to unmarshalCounterSpecified |
| Counters.ExpressionRoundTrip | resources/gateway/calculator/counter.go:522-528 | an encoded expression counter with its own tag decodes back to itself |
| Counters.DatasetRoundTrip | resources/gateway/calculator/counter.go:530-536 | an encoded dataset counter, fields included, decodes back to itself |
| Counters.RouteRoundTrip | resources/gateway/calculator/counter.go:538-544 | an encoded route counter decodes back to itself |
| Counters.DatetimeRoundTrip | resources/gateway/calculator/counter.go:546-552 | an encoded datetime counter decodes back to itself |
| Counters.ParameterRoundTrip | resources/gateway/calculator/counter.go:554-560 | an encoded parameter counter decodes back to itself |
| Counters.MessageRoundTrip | resources/gateway/calculator/counter.go:562-568 | an encoded message counter, its extremum and omitted empty fields included, decodes back to itself |
| Counters.IntervalRoundTrip | resources/gateway/calculator/counter.go:570-576 | an encoded interval counter decodes back to itself |
| Counters.ActiveRoundTrip | resources/gateway/calculator/counter.go:578-584 | an encoded active counter decodes back to itself |
| Counters.GeofenceRoundTrip | resources/gateway/calculator/counter.go:586-592 | an encoded geofence counter decodes back to itself |
| Counters.VariableRoundTrip | resources/gateway/calculator/counter.go:594-600 | an encoded variable counter decodes back to itself |
| Counters.CalculatorRoundTrip | resources/gateway/calculator/counter.go:625-631 | an encoded calculator counter, optional fields included, decodes back to itself |
| Counters.AccumulatorRoundTrip | resources/gateway/calculator/counter.go:633-639 | an encoded accumulator counter decodes back to itself |
| Counters.SpecifiedStringRoundTrip | resources/gateway/calculator/counter.go:602-623 | an encoded specified string counter decodes back to itself |
| Counters.SpecifiedNumberRoundTrip | resources/gateway/calculator/counter.go:602-623 | an encoded specified number counter decodes back to itself |
| Counters.SpecifiedBooleanRoundTrip | resources/gateway/calculator/counter.go:602-623 | an encoded specified boolean counter decodes back to itself |
| Counters.CounterRoundTrip | resources/gateway/calculator/counter.go:481-520 | every counter whose Type is its own tag, which includes every counter a constructor builds, survives encoding and unmarshalCounter |
| Counters.ApplyCounterExpressionOption | resources/gateway/calculator/counter.go:34-38 | CEWithMethod sets only the method |
| Counters.NewCounterExpression | resources/gateway/calculator/counter.go:18-30 | the options applied in order to the base counter; name, tag and expression can never be changed by an option |
| Counters.ApplyCounterDatasetOption | resources/gateway/calculator/counter.go:72-82 | each option sets only its own field |
| Counters.NewCounterDataset | resources/gateway/calculator/counter.go:56-68 | the options applied in order; name, tag "dataset" and the fields are kept |
| Counters.ApplyCounterRouteOption | resources/gateway/calculator/counter.go:106-110 | CRWithValidateMessage sets only the validate message |
| Counters.NewCounterRoute | resources/gateway/calculator/counter.go:91-102 | the options applied in order; name and tag "route" are kept |
| Counters.ApplyCounterDatetimeOption | resources/gateway/calculator/counter.go:138-154 | each option sets only its own field |
| Counters.NewCounterDatetime | resources/gateway/calculator/counter.go:123-134 | the options applied in order; name and tag "datetime" are kept |
| Counters.ApplyCounterParameterOption | resources/gateway/calculator/counter.go:182-192 | each option sets only its own field |
| Counters.NewCounterParameter | resources/gateway/calculator/counter.go:166-178 | the options applied in order; name, tag "parameter" and the parameter are kept |
| Counters.ApplyCounterMessageOption | resources/gateway/calculator/counter.go:227-252 | each option sets only its own field; CMWithExtremum sets both parts of the extremum |
| Counters.NewCounterMessage | resources/gateway/calculator/counter.go:212-223 | the options applied in order; name and tag "message" are kept |
| Counters.NewCounterInterval | resources/gateway/calculator/counter.go:260-266 | name and expression are the arguments and the tag is "interval" |
| Counters.NewCounterActive | resources/gateway/calculator/counter.go:273-278 | the name is the argument and the tag is "active" |
| Counters.NewCounterGeofence | resources/gateway/calculator/counter.go:285-290 | the name is the argument and the tag is "geofence" |
| Counters.ApplyCounterVariableOption | resources/gateway/calculator/counter.go:316-320 | CVWithValidateMessage sets only the validate message |
| Counters.NewCounterVariable | resources/gateway/calculator/counter.go:300-312 | the options applied in order; name, tag "variable" and expression are kept |
| Counters.NewCounterSpecifiedString | resources/gateway/calculator/counter.go:328-334 | name and value are the arguments and the tag is "specified" |
| Counters.NewCounterSpecifiedNumber | resources/gateway/calculator/counter.go:342-348 | name and value are the arguments and the tag is "specified" |
| Counters.NewCounterSpecifiedBoolean | resources/gateway/calculator/counter.go:356-362 | name and value are the arguments and the tag is "specified" |
| Counters.ApplyCounterCalculatorOption | resources/gateway/calculator/counter.go:397-425 | each option sets only its own field; name, calculator id and tag are kept |
| Counters.NewCounterCalculator | resources/gateway/calculator/counter.go:381-393 | the options applied in order; name, calculator id and tag "calculator" are kept |
| Counters.ApplyCounterAccumulatorOption | resources/gateway/calculator/counter.go:453-463 | each option sets only its own field |
| Counters.NewCounterAccumulator | resources/gateway/calculator/counter.go:437-449 | the options applied in order; name, tag "accumulator" and the counter are kept |
| Calculators.GetSource | resources/gateway/calculator/types.go:112-123 | the device source reports "deivce" (sic) and the calculator source reports "calculator" |
| Calculators.DeviceSourceMisreported | resources/gateway/calculator/types.go:112-114 | a decoded device source stores "device" but GetSource reports something else |
| Calculators.UnmarshalMessageSource | resources/gateway/calculator/types.go:127-154 | a failed probe is an error; "device" and "calculator" select their struct; any other source is an unknown source; the stored source is the input's |
| Calculators.CalculatorIdIsDropped | resources/gateway/calculator/types.go:145-148 | a calculator source never keeps the input's non-zero calculator_id |
| Calculators.EmptySourceIsUnknown | resources/gateway/calculator/types.go:149-151 | null, or an object without a source key, is the unknown source "" |
| Calculators.CopyCalculatorScalars | resources/gateway/calculator/types.go:63-72 | copying the scalar fields leaves the unions and metadata as they were |
| Calculators.UnmarshalCalculator | resources/gateway/calculator/types.go:33-102 | the receiver's statements give exactly CalculatorDecoded |
| Calculators.UnionStageInOrder | resources/gateway/calculator/types.go:74-101 | the union stage changes only the unions and the metadata, and stops at the first failing union |
| Calculators.ScalarsCopiedFirst | resources/gateway/calculator/types.go:59-72 | once the raw struct decodes the scalar fields are set, whatever the unions do |
| Calculators.UnionsInOrder | resources/gateway/calculator/types.go:74-97 | source, then selectors, then counters are decoded, each only after the previous one succeeded |
| Calculators.CalculatorSucceedsIff | resources/gateway/calculator/types.go:33-102 | the decode succeeds exactly when the raw struct fits, the source is known and every selector and every counter decodes; on success the counters are the decoded elements in order and the metadata is the input's |
| Calculators.ApplyCalculatorOption | resources/gateway/calculator/types.go:156-183 | the source options set only the source; WithSelector and WithCounter append one element and change nothing else |
| Calculators.OptionsAppendInOrder | resources/gateway/calculator/types.go:173-183 | after any list of options the earlier selectors and counters come first, followed by the added ones in option order |
| Webhooks.GetId | resources/platform/webhook/types.go:89-91 | each kind reports its stored id |
| Webhooks.UnmarshalConfiguration | resources/platform/webhook/utils.go:37-64 | a failed probe is an error; "custom-server" and "flespi-platform" decode their struct; any other tag gives a nil configuration and no error |
| Webhooks.NonObjectConfigurationFails | resources/platform/webhook/utils.go:38-44 | a configuration that is neither an object nor null fails at the tag probe |
| Webhooks.UntaggedConfigurationIsNil | resources/platform/webhook/utils.go:46-63 | null, or an object without a type key, decodes to a nil configuration |
| Webhooks.CustomServerFields | resources/platform/webhook/types.go:42-50 | a custom-server configuration survives encoding and decoding as its struct |
| Webhooks.FlespiFields | resources/platform/webhook/types.go:52-59 | a flespi-platform configuration survives encoding and decoding as its struct |
| Webhooks.ConfigurationRoundTrip | resources/platform/webhook/utils.go:37-64 | a configuration whose stored type names its kind decodes back to itself |
| Webhooks.SingleWebhookDecoded | resources/platform/webhook/types.go:93-118 | a failed raw struct leaves the receiver unchanged; otherwise id, name and triggers are copied, and the configuration is set exactly when it decodes |
| Webhooks.UnmarshalChainedWebhook | resources/platform/webhook/types.go:134-160 | the receiver's statements give exactly ChainedWebhookDecoded |
| Webhooks.ChainedDecodedInOrder | resources/platform/webhook/types.go:146-158 | the configurations are decoded in array order and appended after the prior ones, stopping at the first failure |
| Webhooks.ChainedRejectsObjectConfiguration | resources/platform/webhook/types.go:135-144 | an object-valued configuration fails the chained raw struct and leaves the receiver unchanged |
| Webhooks.UnmarshalWebhook | resources/platform/webhook/utils.go:21-35 | single whenever the single decode succeeds; otherwise chained when that succeeds; an error exactly when both fail, and it is the chained error |
| Webhooks.ObjectConfigurationIsSingle | resources/platform/webhook/utils.go:21-35 | an object-valued configuration that decodes gives a single webhook |
| Webhooks.ArrayConfigurationIsChained | resources/platform/webhook/utils.go:21-35 | an array-valued configuration fails the single decode and gives the chained result |
| Webhooks.MissingConfigurationIsChained | resources/platform/webhook/utils.go:21-35 | a webhook without a configuration becomes a chained webhook with no configurations |
| Webhooks.UnmarshalWebhookResponse | resources/platform/webhook/utils.go:5-19 | success exactly when every element decodes, with one webhook per element in order; otherwise the first element's error |
| Webhooks.ApplySingleWebhookOption | resources/platform/webhook/types.go:167-183 | SWWithTrigger appends, SWWithTriggers replaces the triggers, SWWithConfiguration sets the configuration; id and name are kept |
| Webhooks.ApplyChainedWebhookOption | resources/platform/webhook/types.go:185-207 | the trigger options append or replace triggers; CWWithConfiguration appends one configuration; CWWithConfigurations replaces the list |
| Webhooks.ChainedOptionsAppendInOrder | resources/platform/webhook/types.go:197-201 | without a replacing option the configurations are the earlier ones followed by the appended ones in option order |
| Webhooks.LastReplacementWins | resources/platform/webhook/types.go:203-207 | the last CWWithConfigurations discards everything before it; only later appends follow it |
| Webhooks.BuildSingleWebhook | resources/platform/webhook/api.go:8-13 | the named webhook with the options applied in order, and id 0 |
| Webhooks.BuildChainedWebhook | resources/platform/webhook/api.go:24-29 | the named chained webhook with the options applied in order, and id 0 |
| PlatformWebhooks.SingleTwoPassAgrees | platform_webhooks.go:82-114 | the two-pass single decode leaves the same receiver as the one-pass one and fails on the same inputs |
| PlatformWebhooks.UnmarshalChainedTwoPass | platform_webhooks.go:127-161 | the receiver's statements give exactly the two-pass chained decode |
| PlatformWebhooks.ChainedTwoPassCompared | platform_webhooks.go:127-161 | both chained decoders fail on the same inputs; they agree when the configuration is a list; otherwise the two-pass one has already copied the static fields |
| PlatformWebhooks.UnmarshalWebhookTwoPass | platform_webhooks.go:282-296 | single when that decode succeeds; an error exactly when both decodes fail, and it is the chained one's |
| PlatformWebhooks.WebhookVersionsAgree | platform_webhooks.go:282-296 | decoding into fresh values, both versions of unmarshalWebhook give the same result |
| PlatformWebhooks.UnmarshalWebhookResponseTwoPass | platform_webhooks.go:298-320 | a body without the result envelope is an error with no webhooks; otherwise success exactly when every element decodes, with one webhook per element in order, and a failure returns no webhooks |

## Left out

- JSON decoding is structural. Case-insensitive key matching, duplicate keys, the byte-level parser and its syntax errors are not modelled; a decode error carries only the name of the target type.
- `json.Marshal` failures on a payload are not modelled; payloads are already JSON values.
- Go's distinction between a nil and an empty slice is not kept: both are the empty sequence.
- Floating point: numbers are kept as opaque values. The backoff multiplier is a whole number (a float64 in Go), so `math.Pow` on fractions and float overflow of the backoff are not modelled. Durations are natural numbers of nanoseconds.
- Retry.DoRequestWithRetry: the HTTP call, `http.Request.Clone` and the `select` on the context are the oracles `send` and `cancelled`; the Infof/Warnf log calls inside the loop are not modelled.
- Clients.Client.DoRequest: the network round trip and `io.ReadAll` are the oracle `transport`, and the response parse is the oracle `parse`.
- Clients.Client.RequestAPIWithContext: the context is not modelled, and the caller's response target is the oracle `decoder`. The source sends through doRequest, not through the retry loop, and the model follows that.
- Logging: only the line a logger would print is modelled, not the write to the standard logger or the Printf formatting of arguments.
- Clients.Client.DoRequest: Go sends through `c.HTTPClient.Do` (client.go:86), which panics on a nil HTTP client (reachable through `WithHTTPClient(nil)`); the model requires a non-nil HTTP client instead of modelling the panic, and Clients.Client.RequestAPIWithContext inherits that requirement.
- Functional options: every Go option type is an open `func(*T)` that callers may write themselves (`ClientOption`, `CreateGeofenceOption`, the `CreateCounter*Option` types, `CreateSelectorGeofenceOption`, `CreateSingleWebhookOption`, `CreateChainedWebhookOption`, `CreateCalculatorOption`). Only the options the library provides are modelled, as datatypes, so what Clients.NewClient, the Counters.NewCounter* constructors, Selectors.NewSelectorGeofence, Webhooks.BuildSingleWebhook, Webhooks.BuildChainedWebhook and Calculators.ApplyCalculatorOption promise (for instance that the name and tag are kept) holds for those options only.
- Selectors.ApplySelectorGeofenceOption: `WithGeometry(nil)` appends a nil geometry in Go; the model's geometry list holds no nil, so that call is not modelled.
- Clients.NewClient: WithTimeout on a nil HTTP client panics in Go; the model requires that this does not happen instead of modelling the panic.
- The Client struct in client.go:31-35 has no RetryConfig or Logger field, yet retry.go:48-52 and logger.go:25-29 set them; the model adds both fields. RetryConfig is held as a value, not a shared pointer.
- Geofences.UnmarshalGeofence: resources/gateway/geofence/types.go:40 calls `unmarshalGeometry`, which the package does not define; the model uses the exported UnmarshalGeometry from utils.go.
- Selectors.NewSelectorExpression, Selectors.NewSelectorDateOrTime, Selectors.NewSelectorCalculator: the options are arbitrary user-written closures; the model applies them in order as opaque functions and states only the zero-option result.
- The HTTP half of the webhook constructors (`NewSignleWebhook`, `NewChainedWebhook`), the CRUD functions of every resource and `calculator.go` are façades over RequestAPI and are not part of this model.
- The Go `encoding/json` encoder used by the round-trip lemmas is a model of the struct tags (`omitempty` included), not of the library.
