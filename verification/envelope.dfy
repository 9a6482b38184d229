/** One HTTP exchange, the verdict the attempt closure of a retried call
    gives on it, and the result the call selects once the retry helper has
    reported back.

    The transport, `responseErr` and the JSON decoder are not part of this
    model: an exchange records what each of them produced. The retry helper
    is not part of it either: what it reports is a `TryReport`, and
    `ReportOf` is the report a single attempt's verdict gives. */
module Envelope {
  import opened Errors

  /** A decoded response body: the optional `error` object and the optional
      payload under the resource's key. Both may be present at once. */
  datatype Envelope<+T> = Envelope(apiError: Option<ApiError>, payload: Option<T>)

  datatype Decoding<+T> = Malformed(err: Error) | Decoded(envelope: Envelope<T>)

  /** What one round trip produced: a transport error, or a response with
      what `responseErr` said of it and what decoding its body gave. */
  datatype Exchange<+T> =
    | TransportFailed(err: Error)
    | Responded(statusErr: Option<Error>, body: Decoding<T>)

  /** The error the attempt closure returns, or `None` when it succeeds. */
  function AttemptVerdict<T>(x: Exchange<T>): (v: Option<Error>)
    ensures v.None? <==> x.Responded? && x.statusErr.None? && x.body.Decoded? && x.body.envelope.apiError.None?
    ensures x.Responded? && x.statusErr.None? && x.body.Decoded? && x.body.envelope.apiError.Some? ==>
              v == Some(Api(x.body.envelope.apiError.value))
  {
    match x
    case TransportFailed(e) => Some(e)
    case Responded(Some(e), _) => Some(e)
    case Responded(None, Malformed(e)) => Some(e)
    case Responded(None, Decoded(env)) =>
      if env.apiError.Some? then Some(Api(env.apiError.value)) else None
  }

  /** What the retry helper hands back: the error it returns, or success
      together with the payload field the decoded envelope was left with. */
  datatype TryReport<+T> = TryErr(err: Error) | TryOk(payload: Option<T>)

  /** The report when the helper stops after a single attempt on `x` and
      returns that attempt's verdict. */
  function ReportOf<T>(x: Exchange<T>): TryReport<T>
  {
    match AttemptVerdict(x)
    case Some(e) => TryErr(e)
    case None => TryOk(x.body.envelope.payload)
  }

  /** The result selection after the retry helper returns: its error is
      returned as-is, and an absent payload is "missing result". */
  function Finish<T>(report: TryReport<T>): (r: Result<T>)
    ensures r.Ok? <==> report.TryOk? && report.payload.Some?
    ensures r.Ok? ==> r.value == report.payload.value
    ensures report.TryErr? ==> r == Err(report.err)
    ensures report == TryOk(None) ==> r == Err(MissingResult)
  {
    match report
    case TryErr(e) => Err(e)
    case TryOk(None) => Err(MissingResult)
    case TryOk(Some(v)) => Ok(v)
  }

  /** A retried call succeeds on a single attempt exactly when the response
      passed the status check, decoded, carried no `error` and carried a
      payload; the payload is then the result. */
  lemma SingleAttemptSucceedsIff<T>(x: Exchange<T>, v: T)
    ensures Finish(ReportOf(x)) == Ok(v) <==> x == Responded(None, Decoded(Envelope(None, Some(v))))
  {
  }

  /** An `error` in the envelope wins over any payload decoded with it. */
  lemma ErrorBeatsPayload<T>(a: ApiError, payload: Option<T>)
    ensures Finish(ReportOf(Responded(None, Decoded(Envelope(Some(a), payload))))) == Err(Api(a))
  {
  }

  /** A clean response whose envelope holds neither an error nor a payload
      is "missing result". */
  lemma EmptyEnvelopeIsMissing<T>()
    ensures Finish(ReportOf<T>(Responded(None, Decoded(Envelope(None, None))))) == Err(MissingResult)
  {
  }
}
