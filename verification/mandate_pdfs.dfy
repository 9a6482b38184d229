/** The mandate-PDF service's `Create`: unlike the other resource calls it
    takes no request options, makes a single attempt without the retry
    helper, never looks at the HTTP status and has no missing-result
    check. The lemmas at the end set its outcomes against those of a
    retried call on the same exchange. */
module MandatePdfs {
  import opened Errors
  import opened Headers
  import opened Envelope
  import opened Requests

  datatype MandatePdf = MandatePdf(expiresAt: string, url: string)

  /** The payload of a successful response. */
  datatype CreateResult = CreateResult(mandatePdfs: MandatePdf)

  /** The call's trace: the request sent, if any, and the caller's result.
      A successful result may hold no payload: Go's `(nil, nil)`. */
  datatype PdfCall<+P> = PdfCall(sent: Option<Request<P>>, result: Result<Option<CreateResult>>)

  /** The three headers `Create` sets; there are no caller headers. */
  function PdfHeaders(token: string): (h: Header)
    ensures h.Keys == {Authorization, Version, ContentType}
    ensures h[Authorization] == "Bearer " + token
    ensures h[Version] == "2015-07-06"
    ensures h[ContentType] == "application/json"
  {
    map[][Authorization := Bearer(token)][Version := ApiVersion][ContentType := JsonMediaType]
  }

  /** What the single attempt makes of the exchange. */
  function SingleShot<T>(x: Exchange<T>): (r: Result<Option<T>>)
    ensures x.TransportFailed? ==> r == Err(x.err)
    ensures x.Responded? && x.body.Malformed? ==> r == Err(x.body.err)
    ensures x.Responded? && x.body.Decoded? && x.body.envelope.apiError.Some? ==>
              r == Err(Api(x.body.envelope.apiError.value))
    ensures r.Ok? <==> x.Responded? && x.body.Decoded? && x.body.envelope.apiError.None?
    ensures r.Ok? ==> r.value == x.body.envelope.payload
  {
    match x
    case TransportFailed(e) => Err(e)
    case Responded(_, Malformed(e)) => Err(e)
    case Responded(_, Decoded(env)) =>
      if env.apiError.Some? then Err(Api(env.apiError.value)) else Ok(env.payload)
  }

  /** `Create`: parse, encode the body, build the request, send it once.
      `exchange` gives the outcome of sending a request. */
  function Create<P>(svc: Service, p: P, plumbing: Plumbing, exchange: Request<P> -> Exchange<CreateResult>): (c: PdfCall<P>)
    ensures c.sent.None? <==> plumbing.parse.Some? || plumbing.encode.Some? || plumbing.build.Some?
    ensures plumbing.parse.Some? ==> c.result == Err(plumbing.parse.value)
    ensures plumbing.parse.None? && plumbing.encode.Some? ==> c.result == Err(plumbing.encode.value)
    ensures plumbing.parse.None? && plumbing.encode.None? && plumbing.build.Some? ==> c.result == Err(plumbing.build.value)
    ensures c.sent.Some? ==>
              var req := c.sent.value;
              && req.verb == "POST"
              && req.url == svc.endpoint + "/mandate_pdfs"
              && req.payload == Json("mandate_pdfs", p)
              && req.headers.Keys == {Authorization, Version, ContentType}
              && req.headers[Authorization] == "Bearer " + svc.token
              && req.headers[Version] == "2015-07-06"
              && req.headers[ContentType] == "application/json"
              && c.result == SingleShot(exchange(req))
  {
    if plumbing.parse.Some? then PdfCall(None, Err(plumbing.parse.value))
    else if plumbing.encode.Some? then PdfCall(None, Err(plumbing.encode.value))
    else if plumbing.build.Some? then PdfCall(None, Err(plumbing.build.value))
    else
      var req := Request("POST", svc.endpoint + "/mandate_pdfs", Json("mandate_pdfs", p), PdfHeaders(svc.token));
      PdfCall(Some(req), SingleShot(exchange(req)))
  }

  /** The request carries no idempotency key, no user agent and no client
      identification. */
  lemma NoRetryHeaders<P>(svc: Service, p: P, plumbing: Plumbing, exchange: Request<P> -> Exchange<CreateResult>)
    requires Create(svc, p, plumbing, exchange).sent.Some?
    ensures var h := Create(svc, p, plumbing, exchange).sent.value.headers;
            IdempotencyKey !in h && UserAgentName !in h && ClientLibrary !in h && ClientVersion !in h
  {
  }

  /** The HTTP status is never inspected: two responses with the same body
      give the same outcome whatever `responseErr` would say. */
  lemma StatusIgnored<T>(s1: Option<Error>, s2: Option<Error>, body: Decoding<T>)
    ensures SingleShot(Responded(s1, body)) == SingleShot(Responded(s2, body))
  {
  }

  /** A retried call's result, with the payload wrapped as the single-shot
      call wraps it. */
  function Retried<T>(x: Exchange<T>): Result<Option<T>>
  {
    match Finish(ReportOf(x))
    case Ok(v) => Ok(Some(v))
    case Err(e) => Err(e)
  }

  /** Where the two disagree: a status error with a good payload fails a
      retried attempt but not the single shot, and an empty envelope is
      "missing result" to a retried call but `(nil, nil)` here. */
  lemma Divergences<T>(e: Error, v: T)
    ensures Retried(Responded(Some(e), Decoded(Envelope(None, Some(v))))) == Err(e)
    ensures SingleShot(Responded(Some(e), Decoded(Envelope(None, Some(v))))) == Ok(Some(v))
    ensures Retried<T>(Responded(None, Decoded(Envelope(None, None)))) == Err(MissingResult)
    ensures SingleShot<T>(Responded(None, Decoded(Envelope(None, None)))) == Ok(None)
  {
  }

  /** How the two compare on any exchange: a transport failure is the same
      error to both; without a status error they differ only on the empty
      envelope; with one, the retried attempt fails with it while the
      single shot goes on as if there were none. */
  lemma {:induction false} CompareOutcomes<T>(x: Exchange<T>)
    ensures x.TransportFailed? ==> SingleShot(x) == Retried(x)
    ensures x.Responded? && x.statusErr.None? ==>
              (SingleShot(x) == Retried(x) <==> x.body != Decoded(Envelope(None, None)))
    ensures x.Responded? && x.statusErr.Some? ==>
              Retried(x) == Err(x.statusErr.value) && SingleShot(x) == SingleShot(Responded(None, x.body))
  {
    match x
    case TransportFailed(_) =>
    case Responded(None, body) =>
      if body == Decoded(Envelope(None, None)) {
        assert SingleShot(x) == Ok(None);
        assert Retried(x) == Err(MissingResult);
      }
    case Responded(Some(e), body) =>
  }
}
