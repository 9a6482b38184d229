# GoCardless Pro Go client: request protocol, paging iterator and user agent

A Dafny model of the logic at the heart of the generated GoCardless Pro Go
client library. Around it sits HTTP plumbing, which this model replaces with
oracles. The model covers four pieces:

- **Per-call request resolution**, shared by every retried resource call.
  Request options start at `{retries: 3}` and the caller's option functions
  are applied in order; the first one that fails aborts the call. A mutating
  call (POST) whose options set no idempotency key gets a generated one. The
  header map holds the fixed client headers, with the caller's headers set
  last. Within each attempt, a decoded API error fails the attempt even when
  a payload decoded with it; once the retry helper reports success, a
  response with no payload is "missing result". Of the
  four mandate-import operations, `Create`, `Submit` and `Cancel` are
  mutating POSTs that encode a JSON body and carry a content type and an
  idempotency key; `Get` is a GET with no body, no encoding step, no
  generated key and neither of those two headers. Paths differ by
  operation.
- **The currency-exchange-rate paging iterator** (`All`, `Next`, `Value`) on
  top of the retried `List` call. It is a state record
  `(cursor, response)` that is fresh, has a page, or is exhausted. Each
  fetch sends the stored parameters with `after` replaced by the cursor.
- **`MandatePdfService.Create`**, which sends one attempt without options,
  retry or status check. The model sets its outcomes against those of a
  retried call.
- **The `User-Agent` string**: `gocardless-pro-go/3.3.0 go/<runtime version>`.

Modules and files:

- `Errors` (`errors.dfy`): `Option`, `Result` and the errors: an opaque `Failure` from a call outside the model, a decoded API error, or "missing result".
- `UserAgent` (`user_agent.dfy`).
- `RequestOptions` (`request_options.dfy`): the option fold.
- `Headers` (`headers.dfy`): header names, the fixed headers and the caller overlay.
- `Envelope` (`envelope.dfy`): one attempt's verdict and the result selection after the retry helper.
- `Requests` (`requests.dfy`): the shared call protocol.
- `MandateImports` (`mandate_imports.dfy`).
- `CurrencyExchangeRates` (`currency_exchange_rates.dfy`).
- `MandatePdfs` (`mandate_pdfs.dfy`).

The outside world is passed in as parameters, none of which is interpreted:

- Each request option is a total function `Options -> Result<Options>`.
- The idempotency-key generator is the key it would return (`newKey`).
- The failures of `url.Parse`, parameter encoding and `http.NewRequest` are
  given by a `Plumbing` record.
- The retry helper `try`, together with the attempts it makes, is a function
  from the retry count and the one prepared request to a report: an error,
  or success with an optional payload. Nothing ties an arbitrary helper to
  the attempts it makes; `Requests.OneAttempt` is the helper that stops
  after a single attempt and reports that attempt's verdict, and the
  lemmas about it state how one exchange decides a call.
- A single attempt's exchange is an `Exchange`: a transport error, or a
  response with an optional status error and a body that either failed to
  decode or decoded into an envelope `(error?, payload?)`.
- The package-level `userAgent` variable every retried call reads is the service's
  `userAgent` field; `MandateImports.SentUserAgent` ties it to the value
  `UserAgent.InitUserAgent` sets.

Points of the code worth knowing:

- Unlike the retried calls, `MandatePdfService.Create` has no
  missing-result check: an envelope with neither error nor payload yields a
  nil result with a nil error (`Ok(None)` here). It also never looks at the
  HTTP status and sends no client-identification, user-agent or
  idempotency headers.
- Every call does `req.WithContext(ctx)` and discards the result, so the
  caller's context is never attached to the request. The model therefore
  has no context at all.
- `try` is not defined in the files modelled, so attempt counts are not
  modelled.

## Model

| member | source | states |
|---|---|---|
| UserAgent.Format | useragent.go:15-18 | the user agent is the fixed prefix `gocardless-pro-go/3.3.0 go/` followed by exactly the runtime version |
| UserAgent.RuntimeVersionOf | useragent.go:17 | a string has a runtime version exactly when it starts with the fixed prefix, and then it is the prefix followed by that version |
| UserAgent.FormatRoundTrip | useragent.go:17 | stripping the prefix from a formatted user agent recovers the runtime version |
| UserAgent.FormatInjective | useragent.go:17 | two runtime versions give the same user agent if and only if they are equal |
| UserAgent.InitUserAgent | useragent.go:13-18 | after initialisation the package's user agent carries the current runtime version |
| UserAgent.UninitializedIsEmpty | useragent.go:13 | before initialisation the user agent is the empty string and carries no runtime version |
| UserAgent.InitIdempotent | useragent.go:15-18 | initialising twice with the same runtime version gives the same value as initialising once |
| RequestOptions.ApplyFrom | mandate_import_service.go:57-62 | applying no options leaves the options unchanged, and an error the fold returns is one some option returned |
| RequestOptions.Resolve | mandate_import_service.go:54-62 | with no options a call runs on 3 retries, no key and no headers; an error resolution returns is one some option returned |
| RequestOptions.ApplyConcat | mandate_import_service.go:57-62 | folding `a + b` folds `b` over the result of `a`, and fails with `a`'s error if `a` fails |
| RequestOptions.FailsIffFirstFailure | mandate_import_service.go:57-62 | the fold fails with `e` if and only if some option fails with `e` while every option before it succeeds |
| RequestOptions.ApplyAll | mandate_import_service.go:54-62 | the loop over the options gives the resolved options, and a failure it returns is that of the first failing option |
| Headers.Fixed | mandate_import_service.go:83-89 | the fixed headers are exactly the five client headers, plus the content type and the key for a mutating call, with the bearer token, API version `2015-07-06`, library name, version `1.0.0`, user agent, `application/json` and the key as values |
| Headers.Overlay | mandate_import_service.go:91-93 | the header names are the fixed ones plus the caller's; a caller header wins; every other fixed header keeps its value |
| Headers.SetEach | mandate_import_service.go:91-93 | setting the caller's headers one at a time, in any order, gives the overlay |
| Envelope.AttemptVerdict | mandate_import_service.go:105-127 | an attempt succeeds exactly when the transport, the status and the decoding all succeed and the envelope holds no API error; a decoded API error fails it |
| Envelope.Finish | mandate_import_service.go:128-136 | the call succeeds exactly when the retry helper succeeds with a payload, and then returns that payload; a helper error is passed on unchanged; success without a payload is "missing result" |
| Envelope.SingleAttemptSucceedsIff | mandate_import_service.go:105-136 | a call decided by one exchange returns `v` if and only if that exchange is a clean response whose envelope holds `v` and no error |
| Envelope.ErrorBeatsPayload | mandate_import_service.go:122-124 | an envelope with an API error fails the call with that error, whatever payload it also holds |
| Envelope.EmptyEnvelopeIsMissing | mandate_import_service.go:132-134 | a clean response with an empty envelope fails with "missing result" |
| Requests.Prepare | mandate_import_service.go:49-89 | a URL error comes first, then the first option error, then an encoding error (only when there is a payload), then a request-building error, each returned as is; a request is built exactly when no step fails, with the resolved retry count and the given verb, URL and payload |
| Requests.PreparedHeaders | mandate_import_service.go:83-93 | the fixed headers are present unless the caller overrides them; every caller header is sent as given; a mutating call carries the JSON content type and the caller's key, or the generated key when none was set; a non-mutating call carries neither unless the caller sets it |
| Requests.Perform | mandate_import_service.go:95-136 | nothing is sent exactly when preparation fails, and the call returns preparation's error; otherwise the one prepared request goes to the retry helper and the result is selected from its report |
| MandateImports.Path | mandate_import_service.go:49-343 | the URLs at lines 49, 145, 239 and 342: every path starts with the endpoint's `/mandate_imports`; `Create`'s ends there; the others continue with `/` and the identity, and `Submit` and `Cancel` end in `/actions/submit` and `/actions/cancel` |
| MandateImports.Body | mandate_import_service.go:70-366 | the bodies at lines 70-72, 161, 261-263 and 364-366: only `Get` sends no body; every body is JSON holding the parameters, under `mandate_imports` exactly for `Create` (under `data` otherwise) |
| MandateImports.Invoke | mandate_import_service.go:48-431 | `Get` is a GET of `/mandate_imports/{id}` with no body; `Create` POSTs `/mandate_imports` wrapping the parameters under `mandate_imports`; `Submit` and `Cancel` POST `/actions/submit` and `/actions/cancel` wrapping them under `data`; a success implies a request was sent |
| MandateImports.OptionFailureAborts | mandate_import_service.go:54-62 | the first failing option aborts any operation with its error, and nothing is sent |
| MandateImports.SentHeaders | mandate_import_service.go:83-93 | the headers each operation sends: `Get` sends exactly the five fixed headers plus the caller's, and no content type or key of its own |
| MandateImports.GetIgnoresGeneratedKey | mandate_import_service.go:151-172 | what `Get` sends and returns does not depend on the key generator |
| MandateImports.GetIgnoresParams | mandate_import_service.go:144-163 | what `Get` sends and returns does not depend on its parameters |
| MandateImports.CallerKeyKept | mandate_import_service.go:63-65 | when the options set a key, the key generator makes no difference to the call |
| MandateImports.KeyFixedBeforeRetries | mandate_import_service.go:63-105 | the key is in the request before the retry helper receives it, and the helper gets that one request |
| MandateImports.InvokeOneExchange | mandate_import_service.go:105-136 | with a helper that stops after one attempt, an operation returns `v` exactly when that attempt's response passed the status check and decoded to `v` with no `error`; a decoded `error` fails the call whatever payload came with it |
| MandateImports.SentUserAgent | mandate_import_service.go:87 | unless the caller replaces it, the `User-Agent` sent carries the runtime version `initUserAgent` was given |
| MandateImports.ResultSelection | mandate_import_service.go:128-136 | once sent, a helper error is returned unchanged, success without a payload is "missing result", and success with a payload returns it |
| CurrencyExchangeRates.List | currency_exchange_rate_service.go:66-147 | a sent `List` is a GET of `/currency_exchange_rates` with the parameters as its query and the resolved retry count; its result is the helper's error, "missing result" for a success without a page, or the page; a success implies a request was sent |
| CurrencyExchangeRates.ListHeaders | currency_exchange_rate_service.go:95-103 | a `List` sends exactly the five fixed headers plus the caller's, each fixed one unless the caller replaces it, and no content type or key of its own |
| CurrencyExchangeRates.All | currency_exchange_rate_service.go:260-268 | a new iterator holds no response and keeps the caller's parameters, service and options; it satisfies the iterator invariant, and `Next` is true |
| CurrencyExchangeRates.Next | currency_exchange_rate_service.go:157-163 | there is no next fetch exactly when a response is cached and the cursor is empty: a fresh iterator or one holding a cursor has a next fetch, and a cached response with an empty cursor has none |
| CurrencyExchangeRates.ValidCursorHasResponse | currency_exchange_rate_service.go:157-163 | under the invariant a non-empty cursor implies a cached response, and `Next` is false exactly when the cached page's forward cursor is empty |
| CurrencyExchangeRates.FetchParams | currency_exchange_rate_service.go:171-172 | a fetch's parameters are the stored ones with only `after` replaced by the cursor |
| CurrencyExchangeRates.Value | currency_exchange_rate_service.go:165-258 | an exhausted iterator returns its cached page with no fetch and no change; otherwise `Value` makes the `List` call for the fetch parameters; a failure leaves the iterator unchanged; a success caches the page and its forward cursor; the invariant is preserved |
| CurrencyExchangeRates.ValueFacts | currency_exchange_rate_service.go:170-257 | parameters, service and options never change; a fetch happens only while `Next` holds, with the fetch parameters and the freshly resolved retry count; after a successful fetch `Next` holds exactly when the new page's forward cursor is non-empty |
| CurrencyExchangeRates.ValueOneExchange | currency_exchange_rate_service.go:223-257 | with a helper that stops after one attempt, a fetch returns page `v` exactly when that attempt's response passed the status check and decoded to `v` with no `error`; a decoded `error` fails the fetch whatever page came with it, and leaves the iterator unchanged |
| CurrencyExchangeRates.ValueOptionFailure | currency_exchange_rate_service.go:180-188 | every fetch resolves the stored options again, and the first failing one makes `Value` fail with its error, with nothing sent and the iterator unchanged |
| CurrencyExchangeRates.FirstFetchClearsAfter | currency_exchange_rate_service.go:171-172 | the first fetch of a new iterator sends the caller's parameters with `after` cleared |
| CurrencyExchangeRates.ExhaustedStays | currency_exchange_rate_service.go:165-168 | any number of `Value` calls leave an exhausted iterator unchanged |
| CurrencyExchangeRates.StepAt | currency_exchange_rate_service.go:165-257 | part-way through a chain of pages `Value` fetches the next page by the previous page's cursor; after the last page it returns that page without fetching |
| CurrencyExchangeRates.RunFrom | currency_exchange_rate_service.go:157-258 | `n` transitions from page `k` of a chain reach page `k + n`, or the end of the chain and stay there |
| CurrencyExchangeRates.WalkChain | currency_exchange_rate_service.go:157-258 | driving a new iterator over a finite chain of pages fetches each page once, in order, each by the previous page's cursor; after the last page `Next` is false; later calls return the last page without fetching |
| MandatePdfs.PdfHeaders | mandate_pdf_service.go:94-96 | the headers are exactly `Authorization` with the bearer token, `GoCardless-Version` `2015-07-06` and `Content-Type` `application/json` |
| MandatePdfs.SingleShot | mandate_pdf_service.go:103-123 | a transport or decode error is returned as is; an API error wins over any payload; otherwise the call succeeds with whatever payload was decoded, possibly none |
| MandatePdfs.Create | mandate_pdf_service.go:69-124 | URL, encoding and request-building errors are returned as is, in that order, and nothing is sent; the request is a POST to `/mandate_pdfs` with the parameters under `mandate_pdfs` and exactly the three headers `Authorization`, `GoCardless-Version` and `Content-Type`; its result is the single attempt's outcome |
| MandatePdfs.NoRetryHeaders | mandate_pdf_service.go:93-96 | the request carries no idempotency key, no user agent and no client identification |
| MandatePdfs.StatusIgnored | mandate_pdf_service.go:103-117 | two responses with the same body give the same outcome, whatever their status |
| MandatePdfs.Divergences | mandate_pdf_service.go:114-123 | a status error with a good payload fails a retried attempt but succeeds here; an empty envelope is "missing result" to a retried call but a nil result with a nil error here |
| MandatePdfs.CompareOutcomes | mandate_pdf_service.go:103-123 | against a retried call on the same exchange: a transport error agrees; without a status error the two agree exactly when the body is not the empty envelope; with one, the retried call fails with it while the single attempt acts as if there were none |

## Left out

- HTTP transport (`client.Do`, the `http.DefaultClient` fallback): I/O. An attempt's exchange is a parameter.
- `url.Parse`, `http.NewRequest`, JSON encoding and the `go-querystring` query encoding (with its `omitempty` rules): foreign library code. Only whether each of them fails is modelled, and the payload is kept as the parameters and the top-level key wrapping them.
- The retry helper `try`, `responseErr`, `NewIdempotencyKey` and `APIError` are not defined in the files modelled and stay uninterpreted. There are no attempt counts and no back-off. Nothing is said about generated keys being distinct from one call to the next.
- `RequestOption` and `requestOptions` are not defined in the files modelled, so there are no concrete option constructors. A property such as "the last option that sets the retry count wins" cannot be stated.
- How `encoding/json` merges into the `result` struct that persists across attempts, and how it allocates the embedded page pointer: the model takes the envelope of the attempt that decided the call.
- Replaying the buffered request body across attempts: the request is one value handed to the retry helper.
- `fmt.Sprintf` is given the endpoint as its format string, so a `%` in the endpoint would be misread. Paths are modelled as plain concatenation.
- Header-name canonicalisation by `Header.Set`: names are taken to be canonical already.
- The request context: `req.WithContext` returns a new request that is discarded, so the context never reaches the transport.
- Pages are modelled as values. The Go iterator caches and returns the same `*CurrencyExchangeRateListResult` pointer, so a caller who changes a returned page changes what later calls on an exhausted iterator return, and can make the cached page's forward cursor differ from the iterator's cursor. The iterator invariant (`CurrencyExchangeRates.Valid`) and `CurrencyExchangeRates.ValidCursorHasResponse` hold only for callers that leave returned pages alone.
- Request options are modelled as a value. `All` stores the caller's option slice as it is, so a caller who passed a slice with `opts...` and later assigns to one of its elements changes the options every later fetch applies; `CurrencyExchangeRates.ValueFacts` ("options never change") holds only for callers that leave that slice alone.
- Concurrency: the iterator is single-owner state, and calls share nothing mutable.
- The fields of resource records and parameter structs beyond those the iterator reads: generated boilerplate.
