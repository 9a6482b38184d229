/** The request protocol every retried resource call follows: parse the
    URL, resolve the options, fix the idempotency key of a mutating call,
    encode the parameters, build the request and its headers, hand the one
    request to the retry helper, and select the result.

    The library calls that can fail before anything is sent (`url.Parse`,
    JSON or query-string encoding, `http.NewRequest`) are not part of this
    model; their outcomes are given by a `Plumbing` record. */
module Requests {
  import opened Errors
  import opened RequestOptions
  import opened Headers
  import opened Envelope

  /** A service's configuration. `userAgent` is the package-level value
      every service reads when it builds a request. */
  datatype Service = Service(endpoint: string, token: string, userAgent: string)

  /** The error, if any, of each library step before sending. */
  datatype Plumbing = Plumbing(parse: Option<Error>, encode: Option<Error>, build: Option<Error>)

  const NoFailures: Plumbing := Plumbing(None, None, None)

  /** How the parameters travel: not at all, as the URL query, or as a JSON
      object with a single top-level key wrapping them. */
  datatype Payload<+P> = NoPayload | Query(params: P) | Json(key: string, params: P)

  datatype Request<+P> = Request(verb: string, url: string, payload: Payload<P>, headers: Header)

  /** What the call hands to the retry helper: the retry count and the one
      request every attempt sends. */
  datatype Sent<+P> = Sent(retries: int, request: Request<P>)

  /** A call's trace: what was handed to the retry helper, if anything, and
      what the caller got back. */
  datatype Call<+P, +T> = Call(sent: Option<Sent<P>>, result: Result<T>)

  /** The retry helper applied to a retry count and a request. Its workings
      (attempt count, back-off) are not part of this model. */
  type Retrier<!P, T> = (int, Request<P>) -> TryReport<T>

  /** The retry helper when it stops after a single attempt, whose
      exchange `x` gives for the request sent. */
  function OneAttempt<P, T>(x: Request<P> -> Exchange<T>): Retrier<P, T>
  {
    (retries, req) => ReportOf(x(req))
  }

  /** Everything up to handing the request to the retry helper. `newKey` is
      what the idempotency-key generator would return. */
  function Prepare<P>(svc: Service, verb: string, url: string, payload: Payload<P>, mutating: bool,
                      opts: seq<Mutator>, newKey: string, plumbing: Plumbing): (r: Result<Sent<P>>)
    ensures plumbing.parse.Some? ==> r == Err(plumbing.parse.value)
    ensures plumbing.parse.None? && Resolve(opts).Err? ==> r == Err(Resolve(opts).error)
    ensures plumbing.parse.None? && Resolve(opts).Ok? && !payload.NoPayload? && plumbing.encode.Some? ==>
              r == Err(plumbing.encode.value)
    ensures (plumbing.parse.None? && Resolve(opts).Ok? && (payload.NoPayload? || plumbing.encode.None?)
             && plumbing.build.Some?) ==> r == Err(plumbing.build.value)
    ensures r.Ok? <==> && plumbing.parse.None? && Resolve(opts).Ok?
                       && (payload.NoPayload? || plumbing.encode.None?) && plumbing.build.None?
    ensures r.Ok? ==> && r.value.retries == Resolve(opts).value.retries
                      && r.value.request == Request(verb, url, payload, r.value.request.headers)
  {
    if plumbing.parse.Some? then Err(plumbing.parse.value)
    else match Resolve(opts)
      case Err(e) => Err(e)
      case Ok(o) =>
        var key := if !mutating then None
                   else if o.idempotencyKey == "" then Some(newKey)
                   else Some(o.idempotencyKey);
        if !payload.NoPayload? && plumbing.encode.Some? then Err(plumbing.encode.value)
        else if plumbing.build.Some? then Err(plumbing.build.value)
        else
          var h := Overlay(Fixed(svc.token, svc.userAgent, key), o.headers);
          Ok(Sent(o.retries, Request(verb, url, payload, h)))
  }

  /** The headers of a prepared request: the fixed ones, with any caller
      header of the same name taking its place, plus the caller's others.
      A mutating call adds the content type and the idempotency key, which
      is the caller's when the options set one and the generated one
      otherwise; any other call sends neither unless the caller's headers
      name them. */
  lemma PreparedHeaders<P>(svc: Service, verb: string, url: string, payload: Payload<P>, mutating: bool,
                           opts: seq<Mutator>, newKey: string, plumbing: Plumbing)
    requires Prepare(svc, verb, url, payload, mutating, opts, newKey, plumbing).Ok?
    ensures var o := Resolve(opts).value;
            var h := Prepare(svc, verb, url, payload, mutating, opts, newKey, plumbing).value.request.headers;
            && h.Keys == FixedNames(mutating) + o.headers.Keys
            && Carries(h, o.headers, Authorization, "Bearer " + svc.token)
            && Carries(h, o.headers, Version, "2015-07-06")
            && Carries(h, o.headers, ClientLibrary, "gocardless-pro-go")
            && Carries(h, o.headers, ClientVersion, "1.0.0")
            && Carries(h, o.headers, UserAgentName, svc.userAgent)
            && (forall name :: name in o.headers ==> h[name] == o.headers[name])
            && (mutating ==> Carries(h, o.headers, ContentType, "application/json"))
            && (mutating && o.idempotencyKey != "" ==> Carries(h, o.headers, IdempotencyKey, o.idempotencyKey))
            && (mutating && o.idempotencyKey == "" ==> Carries(h, o.headers, IdempotencyKey, newKey))
            && (!mutating ==> OnlyFromCaller(h, o.headers, ContentType))
            && (!mutating ==> OnlyFromCaller(h, o.headers, IdempotencyKey))
  {
  }

  /** A whole retried call: nothing is sent when preparation fails, and
      otherwise the result is selected from what the retry helper reports
      on the prepared request. */
  function Perform<P, T>(svc: Service, verb: string, url: string, payload: Payload<P>, mutating: bool,
                         opts: seq<Mutator>, newKey: string, plumbing: Plumbing,
                         retry: Retrier<P, T>): (c: Call<P, T>)
    ensures c.sent.Some? <==> Prepare(svc, verb, url, payload, mutating, opts, newKey, plumbing).Ok?
    ensures c.sent.None? ==> c.result == Err(Prepare(svc, verb, url, payload, mutating, opts, newKey, plumbing).error)
    ensures c.sent.Some? ==>
              && c.sent.value == Prepare(svc, verb, url, payload, mutating, opts, newKey, plumbing).value
              && c.result == Finish(retry(c.sent.value.retries, c.sent.value.request))
  {
    match Prepare(svc, verb, url, payload, mutating, opts, newKey, plumbing)
    case Err(e) => Call(None, Err(e))
    case Ok(s) => Call(Some(s), Finish(retry(s.retries, s.request)))
  }
}
