/** The mandate-import service: `Create`, `Get`, `Submit` and `Cancel`,
    each a retried call of the shared request protocol that differs only in
    verb, path, body and whether it is mutating. */
module MandateImports {
  import opened Errors
  import opened RequestOptions
  import opened Headers
  import opened Envelope
  import opened Requests
  import UserAgent

  datatype MandateImport = MandateImport(createdAt: string, id: string, scheme: string, status: string)

  datatype Operation = Create | Get(identity: string) | Submit(identity: string) | Cancel(identity: string)

  /** Every operation but `Get` is a POST and carries an idempotency key. */
  predicate Mutating(op: Operation)
  {
    !op.Get?
  }

  function Verb(op: Operation): string
  {
    if Mutating(op) then "POST" else "GET"
  }

  /** Every path is under the endpoint's `/mandate_imports`; all but
      `Create`'s go on with `/` and the identity, and the actions end in
      their name. */
  function Path(endpoint: string, op: Operation): (r: string)
    ensures |r| >= |endpoint| + 16 && r[..|endpoint| + 16] == endpoint + "/mandate_imports"
    ensures op.Create? ==> |r| == |endpoint| + 16
    ensures !op.Create? ==>
              && |r| >= |endpoint| + 17 + |op.identity|
              && r[|endpoint| + 16..|endpoint| + 17 + |op.identity|] == "/" + op.identity
    ensures op.Submit? ==> |r| >= 15 && r[|r| - 15..] == "/actions/submit"
    ensures op.Cancel? ==> |r| >= 15 && r[|r| - 15..] == "/actions/cancel"
  {
    match op
    case Create => endpoint + "/mandate_imports"
    case Get(id) => endpoint + "/mandate_imports/" + id
    case Submit(id) => endpoint + "/mandate_imports/" + id + "/actions/submit"
    case Cancel(id) => endpoint + "/mandate_imports/" + id + "/actions/cancel"
  }

  /** `Create` wraps its parameters under "mandate_imports", `Submit` and
      `Cancel` under "data"; `Get` sends no body and ignores its parameters. */
  function Body<P>(op: Operation, p: P): (r: Payload<P>)
    ensures !r.Query?
    ensures r.NoPayload? <==> !Mutating(op)
    ensures r.Json? ==> r.params == p && (r.key == "mandate_imports" <==> op.Create?)
    ensures r.Json? && !op.Create? ==> r.key == "data"
  {
    match op
    case Create => Json("mandate_imports", p)
    case Get(_) => NoPayload
    case Submit(_) => Json("data", p)
    case Cancel(_) => Json("data", p)
  }

  /** One call of the service. `newKey` is what `NewIdempotencyKey` would
      return; `retry` is the retry helper. */
  function Invoke<P>(svc: Service, op: Operation, p: P, opts: seq<Mutator>, newKey: string,
                     plumbing: Plumbing, retry: Retrier<P, MandateImport>): (c: Call<P, MandateImport>)
    ensures c.sent.Some? ==>
              var req := c.sent.value.request;
              && Resolve(opts).Ok?
              && c.sent.value.retries == Resolve(opts).value.retries
              && req.verb == (if op.Get? then "GET" else "POST")
              && (op.Create? ==> req.url == svc.endpoint + "/mandate_imports" && req.payload == Json("mandate_imports", p))
              && (op.Get? ==> req.url == svc.endpoint + "/mandate_imports/" + op.identity && req.payload == NoPayload)
              && (op.Submit? ==> req.url == svc.endpoint + "/mandate_imports/" + op.identity + "/actions/submit"
                                 && req.payload == Json("data", p))
              && (op.Cancel? ==> req.url == svc.endpoint + "/mandate_imports/" + op.identity + "/actions/cancel"
                                 && req.payload == Json("data", p))
    ensures c.result.Ok? ==> c.sent.Some?
  {
    Perform(svc, Verb(op), Path(svc.endpoint, op), Body(op, p), Mutating(op), opts, newKey, plumbing, retry)
  }

  /** Options are resolved before anything else that can fail after the
      URL: the first failing option aborts the call with its error and no
      request is sent. */
  lemma OptionFailureAborts<P>(svc: Service, op: Operation, p: P, opts: seq<Mutator>, newKey: string,
                               plumbing: Plumbing, retry: Retrier<P, MandateImport>, i: int, e: Error)
    requires plumbing.parse.None?
    requires FirstFailure(Default, opts, i, e)
    ensures Invoke(svc, op, p, opts, newKey, plumbing, retry) == Call(None, Err(e))
  {
    FailsIffFirstFailure(Default, opts, e);
  }

  /** The headers of a sent request: the fixed ones, with any caller header
      of the same name taking its place, plus the caller's others. A
      mutating call adds the content type and the idempotency key: the
      caller's key when it set one, the generated one otherwise. `Get`
      sends neither unless the caller's headers name them. */
  lemma SentHeaders<P>(svc: Service, op: Operation, p: P, opts: seq<Mutator>, newKey: string,
                       plumbing: Plumbing, retry: Retrier<P, MandateImport>)
    requires Invoke(svc, op, p, opts, newKey, plumbing, retry).sent.Some?
    ensures var h := Invoke(svc, op, p, opts, newKey, plumbing, retry).sent.value.request.headers;
            var o := Resolve(opts).value;
            && Carries(h, o.headers, Authorization, "Bearer " + svc.token)
            && Carries(h, o.headers, Version, "2015-07-06")
            && Carries(h, o.headers, ClientLibrary, "gocardless-pro-go")
            && Carries(h, o.headers, ClientVersion, "1.0.0")
            && Carries(h, o.headers, UserAgentName, svc.userAgent)
            && (op.Get? ==> h.Keys == {Authorization, Version, ClientLibrary, ClientVersion, UserAgentName} + o.headers.Keys)
            && (op.Get? ==> OnlyFromCaller(h, o.headers, ContentType) && OnlyFromCaller(h, o.headers, IdempotencyKey))
            && (!op.Get? ==> Carries(h, o.headers, ContentType, "application/json"))
            && (!op.Get? && o.idempotencyKey != "" ==> Carries(h, o.headers, IdempotencyKey, o.idempotencyKey))
            && (!op.Get? && o.idempotencyKey == "" ==> Carries(h, o.headers, IdempotencyKey, newKey))
  {
    var c := Invoke(svc, op, p, opts, newKey, plumbing, retry);
    var pr := Prepare(svc, Verb(op), Path(svc.endpoint, op), Body(op, p), Mutating(op), opts, newKey, plumbing);
    assert pr.Ok? && c.sent.value == pr.value;
    PreparedHeaders(svc, Verb(op), Path(svc.endpoint, op), Body(op, p), Mutating(op), opts, newKey, plumbing);
  }

  /** `Get` never uses a generated key: what it sends and returns does not
      depend on the generator. */
  lemma GetIgnoresGeneratedKey<P>(svc: Service, id: string, p: P, opts: seq<Mutator>, k1: string, k2: string,
                                  plumbing: Plumbing, retry: Retrier<P, MandateImport>)
    ensures Invoke(svc, Get(id), p, opts, k1, plumbing, retry) == Invoke(svc, Get(id), p, opts, k2, plumbing, retry)
  {
  }

  /** `Get` ignores its parameters: nothing of them is sent. */
  lemma GetIgnoresParams<P>(svc: Service, id: string, p1: P, p2: P, opts: seq<Mutator>, newKey: string,
                            plumbing: Plumbing, retry: Retrier<P, MandateImport>)
    ensures Invoke(svc, Get(id), p1, opts, newKey, plumbing, retry) == Invoke(svc, Get(id), p2, opts, newKey, plumbing, retry)
  {
  }

  /** A mutating call whose options set a key keeps it: the generator's
      value makes no difference. */
  lemma CallerKeyKept<P>(svc: Service, op: Operation, p: P, opts: seq<Mutator>, k1: string, k2: string,
                         plumbing: Plumbing, retry: Retrier<P, MandateImport>)
    requires Resolve(opts).Ok? && Resolve(opts).value.idempotencyKey != ""
    ensures Invoke(svc, op, p, opts, k1, plumbing, retry) == Invoke(svc, op, p, opts, k2, plumbing, retry)
  {
  }

  /** The key is fixed before the retry helper runs: the helper receives
      one request, and that request already carries the key. */
  lemma KeyFixedBeforeRetries<P>(svc: Service, op: Operation, p: P, opts: seq<Mutator>, newKey: string,
                                 plumbing: Plumbing, retry: Retrier<P, MandateImport>)
    requires Mutating(op)
    requires Resolve(opts).Ok? && IdempotencyKey !in Resolve(opts).value.headers
    requires Invoke(svc, op, p, opts, newKey, plumbing, retry).sent.Some?
    ensures var c := Invoke(svc, op, p, opts, newKey, plumbing, retry);
            var o := Resolve(opts).value;
            && c.sent.value.request.headers[IdempotencyKey] == (if o.idempotencyKey == "" then newKey else o.idempotencyKey)
            && c.result == Finish(retry(o.retries, c.sent.value.request))
  {
    SentHeaders(svc, op, p, opts, newKey, plumbing, retry);
  }

  /** Once a request is sent, the call returns the imported mandate exactly
      when the retry helper reports success with a payload; a helper error
      is returned unchanged and success without a payload is "missing
      result". */
  lemma ResultSelection<P>(svc: Service, op: Operation, p: P, opts: seq<Mutator>, newKey: string,
                           plumbing: Plumbing, retry: Retrier<P, MandateImport>)
    requires Invoke(svc, op, p, opts, newKey, plumbing, retry).sent.Some?
    ensures var c := Invoke(svc, op, p, opts, newKey, plumbing, retry);
            var report := retry(c.sent.value.retries, c.sent.value.request);
            && (report.TryErr? ==> c.result == Err(report.err))
            && (report == TryOk(None) ==> c.result == Err(MissingResult))
            && (report.TryOk? && report.payload.Some? ==> c.result == Ok(report.payload.value))
  {
  }

  /** When the retry helper stops after one attempt, an operation returns
      the imported mandate `v` exactly when that attempt's response passed
      the status check, decoded, and held `v` and no `error`; a decoded
      `error` fails the call even when a payload decoded with it. */
  lemma InvokeOneExchange<P>(svc: Service, op: Operation, p: P, opts: seq<Mutator>, newKey: string,
                             plumbing: Plumbing, x: Request<P> -> Exchange<MandateImport>, v: MandateImport)
    requires Invoke(svc, op, p, opts, newKey, plumbing, OneAttempt(x)).sent.Some?
    ensures var c := Invoke(svc, op, p, opts, newKey, plumbing, OneAttempt(x));
            var e := x(c.sent.value.request);
            && (c.result == Ok(v) <==> e == Responded(None, Decoded(Envelope(None, Some(v)))))
            && (e.Responded? && e.statusErr.None? && e.body.Decoded? && e.body.envelope.apiError.Some? ==>
                  c.result == Err(Api(e.body.envelope.apiError.value)))
  {
    var c := Invoke(svc, op, p, opts, newKey, plumbing, OneAttempt(x));
    var e := x(c.sent.value.request);
    assert c.result == Finish(ReportOf(e));
    SingleAttemptSucceedsIff(e, v);
  }

  /** The `User-Agent` a call sends, unless the caller's headers replace
      it, is the package value `initUserAgent` set: the library prefix and
      the runtime version. */
  lemma SentUserAgent<P>(svc: Service, op: Operation, p: P, opts: seq<Mutator>, newKey: string,
                         plumbing: Plumbing, retry: Retrier<P, MandateImport>,
                         pkg: UserAgent.Package, goVersion: string)
    requires svc.userAgent == UserAgent.InitUserAgent(pkg, goVersion).userAgent
    requires Invoke(svc, op, p, opts, newKey, plumbing, retry).sent.Some?
    requires UserAgentName !in Resolve(opts).value.headers
    ensures var h := Invoke(svc, op, p, opts, newKey, plumbing, retry).sent.value.request.headers;
            UserAgentName in h && UserAgent.RuntimeVersionOf(h[UserAgentName]) == Some(goVersion)
  {
    SentHeaders(svc, op, p, opts, newKey, plumbing, retry);
  }
}
