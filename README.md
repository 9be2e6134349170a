# Coho Swift SDK: a model of the event delivery pipeline

The Coho SDK is a client-side telemetry emitter. A host application builds
a `CohoSDK` from its options (tenant, region, retries, retry delay, logging),
sets a user id, and calls `sendEvent`. That call refuses to send without a
user id. Otherwise it builds one event record, wraps it in an `events` array,
serializes it, POSTs it to the region's endpoint, and retries transient
failures up to the configured count before calling the completion once.

This project models that pipeline in Dafny and proves what it does:

- `wrappers.dfy`: `Option` and `Result`.
- `constants.dfy` (`Constants`): the endpoint, header, message and
  retryable-code tables.
- `options.dfy` (`Options`): `Region` and `CohoSDKOptions` with its defaults.
- `event.dfy` (`Event`): the built-in fields, the merge of the caller's
  properties (a loop over the keys, as `forEach` does), and the payload.
- `delivery.dfy` (`Delivery`): how a response is classified, the retry
  decision of `handleError`, and `Deliver`, a function that gives what the
  whole retry chain does against a sequence of network responses, with the
  lemmas about it.
- `sdk.dfy` (`Sdk`): the class `CohoSDK`. It has the configuration as
  constants and a mutable `userId`. It also holds the request builder, the
  retry chain as a loop method (`SendRequest`) proved equal to `Deliver`, and
  `SendEvent` proved equal to the function `ExpectedTrace`.

How the environment is modelled:

- The network is a sequence of responses. Request `k` (0-based) carries the
  attempts counter `k` and is answered by element `k`. If the sequence runs
  out, the request just issued never gets an answer, so no completion is
  called.
- The observable behaviour of one send is a `Trace`: the uploads (request and
  body), the delays waited before retries, and the completion calls. "The
  completion is called exactly once" becomes "the completions list has length
  one".
- JSON serialization is a function parameter that may fail with a cause.
- The clock, locale and device readings are a `DeviceContext` of opaque
  strings. It includes the optional region and language codes (with the
  "Unknown" fallback) and whether the device is a pad.

Points where the code behaves differently from what a reader might expect:

- After network activity, the caller gets a Foundation error with code 0 and
  the message "Failed to send event after retries". It does not get the enum
  case `CohoSDKError.failedAfterRetries`. The enum cases `serverError` and
  `failedAfterRetries` are never used.
- `setUserId` may be called any number of times; each call overwrites the id.
- `retries` is a signed integer with no validation. A negative value behaves
  like 0.
- The code compares `attempts < retries` starting from 0, so up to
  `retries + 1` requests are made. The tests that expect failure from three
  500s with three retries rely on the mock answering the fourth request with
  a code-404 transport error (`Delivery.TestScenarios`).

## Model

| member | source | states |
|---|---|---|
| Constants.RetryableCodesExactly | Sources/CohoSDK/Constants.swift:25 | a code is retryable iff it is one of 408, 429, 500, 502, 503, 504 |
| Constants.NotRetryable | Sources/CohoSDK/Constants.swift:25 | 400, 0 and every 2xx code are not retryable |
| Constants.EndpointsShareRoute | Sources/CohoSDK/Constants.swift:5-6 | the US and EU endpoints differ, are https URLs, and both end in `/api/raw-data/custom` |
| Constants.MessagesDistinct | Sources/CohoSDK/Constants.swift:20-21 | the terminal failure message differs from the transient "Server error" message |
| Options.Make | Sources/CohoSDK/CohoSDKOptions.swift:14-25 | the initializer stores tenant, region, retries, delay and logging flag verbatim |
| Options.DefaultsOfMake | Sources/CohoSDK/CohoSDKOptions.swift:17-19 | by default retries is 0, the delay is 100 and logging is off |
| Options.RegionIsUsOrEu | Sources/CohoSDK/CohoSDKOptions.swift:4-6 | a region is US or EU and nothing else |
| Event.BuiltInFields | Sources/CohoSDK/CohoSDK.swift:64-77 | the record has exactly the twelve built-in keys; it carries the event name, the user id, both timestamps, the time zone, the system name and version and the device model, each under its own key; country and language fall back to "Unknown"; manufacturer is "Apple"; device type is "Tablet" iff the device is a pad |
| Event.EventFor | Sources/CohoSDK/CohoSDK.swift:64-79 | the sent record has the built-in keys plus the caller's; a caller value wins on every shared key; every other built-in value is kept |
| Event.Wrap | Sources/CohoSDK/CohoSDK.swift:81 | the payload's `events` array holds exactly the one event |
| Event.MergeProperties | Sources/CohoSDK/CohoSDK.swift:79 | writing the caller's properties one key at a time gives the union of the keys, with caller values on shared keys and the original values elsewhere |
| Event.EncodeEvent | Sources/CohoSDK/CohoSDK.swift:63-83 | the result is the serializer's answer, success or failure, for the one-event payload of `EventFor` |
| Event.OverridesIdentity | Sources/CohoSDK/CohoSDK.swift:65-79 | the sent `userId` and `eventName` are the caller's values when supplied, the session's otherwise |
| Delivery.Classify | Sources/CohoSDK/CohoSDK.swift:93-103 | delivered iff the answer is an HTTP response with a status in [200, 300); a transport error keeps its code; any other HTTP status becomes a "Server error" with that status; no HTTP response gives code 0 |
| Delivery.HandleError | Sources/CohoSDK/CohoSDK.swift:122-135 | retry iff attempts < retries and the code is retryable, with the counter one higher; otherwise give up with code 0 and the terminal message |
| Delivery.Deliver | Sources/CohoSDK/CohoSDK.swift:85-135 | the chain from counter `attempts` issues at least one more request |
| Delivery.RequestsBounded | Sources/CohoSDK/CohoSDK.swift:126-129 | at most max(attempts, retries) + 1 requests are issued in all, and at most one more than the answers available |
| Delivery.CompletesUnlessWaiting | Sources/CohoSDK/CohoSDK.swift:92-107 | the chain has no completion iff every answer was used and the last request is waiting |
| Delivery.OnlyFinalErrorFails | Sources/CohoSDK/CohoSDK.swift:131-135 | a chain ends in success or in the one terminal error, whatever the original cause |
| Delivery.SuccessExplained | Sources/CohoSDK/CohoSDK.swift:98-106 | on success the last answer was 2xx and every earlier one was a retryable failure with the counter below retries |
| Delivery.SuccessAfterRetries | Sources/CohoSDK/CohoSDK.swift:98-129 | k retryable failures (k <= retries) followed by a 2xx answer give success after exactly k + 1 requests |
| Delivery.RetriesExhausted | Sources/CohoSDK/CohoSDK.swift:126-135 | if all usable answers are retryable failures, exactly retries + 1 requests are made and the chain fails with the terminal error |
| Delivery.NonRetryableStops | Sources/CohoSDK/CohoSDK.swift:126-135 | a failure with a non-retryable code ends the chain at that request with the terminal error, whatever the budget |
| Delivery.DefaultSendsOnce | Sources/CohoSDK/CohoSDKOptions.swift:17 | with the default of no retries exactly one request is issued |
| Delivery.TestScenarios | Tests/CohoSDKTests/CohoSDKTests.swift:76-174 | with three retries: [200] gives 1 request and success, [500, 200] gives 2 and success, [400] gives 1 and failure, three 500s then the mock's 404 give 4 and failure |
| Sdk.CohoSDK.constructor | Sources/CohoSDK/CohoSDK.swift:19-26 | the configuration is copied, the endpoint resolved once from the region, and no user id is set |
| Sdk.CohoSDK.GetEndpoint | Sources/CohoSDK/CohoSDK.swift:48-55 | US maps to the US endpoint and EU to the EU endpoint, both on the ingestion route |
| Sdk.CohoSDK.EndpointInjective | Sources/CohoSDK/CohoSDK.swift:48-55 | two regions share an endpoint iff they are the same region |
| Sdk.CohoSDK.SetUserId | Sources/CohoSDK/CohoSDK.swift:28-31 | the stored id becomes the given one, whatever it was |
| Sdk.CohoSDK.CreateRequest | Sources/CohoSDK/CohoSDK.swift:110-120 | a POST to the endpoint with exactly the five headers: JSON content type, accept all, the tenant id, the literal "userId" marker and the "sdk" data-source value |
| Sdk.CohoSDK.SendRequest | Sources/CohoSDK/CohoSDK.swift:85-135 | the loop produces `Deliver`'s number of uploads, all of one request and body, a delay before each retry, and `Deliver`'s completion |
| Sdk.CohoSDK.SendEvent | Sources/CohoSDK/CohoSDK.swift:33-46 | with no caller properties by default, the trace is the missing-user-id failure, the serialization failure, or the retry chain on the serialized event, as `ExpectedTrace` gives |
| Sdk.CohoSDK.MissingUserIdSendsNothing | Sources/CohoSDK/CohoSDK.swift:34-38 | without a user id there are no uploads and one `missingUserId` completion |
| Sdk.CohoSDK.CompletesOnce | Sources/CohoSDK/CohoSDK.swift:33-135 | the completion is called at most once, and exactly once unless the last upload is still unanswered |
| Sdk.CohoSDK.UploadsRepeatOneBody | Sources/CohoSDK/CohoSDK.swift:122-130 | at most max(0, retries) + 1 uploads, all the same request and body, with the configured delay before each retry |
| Sdk.CohoSDK.FailureAfterUploadIsFinal | Sources/CohoSDK/CohoSDK.swift:131-135 | after any upload the caller sees only success or the one terminal error |
| Sdk.CohoSDK.UploadedBodyCarriesSnapshot | Sources/CohoSDK/CohoSDK.swift:34-42 | every uploaded body is the serialization of the event built from the user id read at the start of the send |

## Left out

- HTTP transport (`URLSession`, `uploadTask`, `resume`): replaced by the sequence of responses.
- Timing and threads (`DispatchQueue.global().asyncAfter`): a retry's wait is one entry in the trace's delays. The delay is a stored `real` that the model never interprets.
- Concurrent `sendEvent` calls and a `setUserId` racing with one: every call is modelled on its own. The id is read once at the start.
- Device, locale and clock readings (`UIDevice`, `Locale`, `TimeZone`, `Date`, the ISO-8601 formatters): opaque inputs in `DeviceContext`.
- JSON serialization (`JSONSerialization.data`): an opaque function parameter. Its failure cause is a string.
- Caller property values of type `Any`: a `Value` is text or an opaque tagged scalar.
- Logging (`log`, `print`): it has no effect on the outcome.
- The completion callback and its no-op default: the callback's calls are the trace's completions list.
- `[weak self]`: if the client object is freed during a retry, the completion is never called. That memory-management effect is not modelled.
- The data-source-context header: its name is not defined in `Constants.swift`, so it is the separate header name `DataSourceContext`. Its value "sdk" is modelled.
- URL parsing (`URL(string:)!`): endpoints are strings.
- `Package.swift` and the test mock `MockURLProtocol.swift`. The mock's 404 for an exhausted queue appears only in `Delivery.TestScenarios`.
