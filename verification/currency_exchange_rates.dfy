/** The currency-exchange-rate service: the retried `List` call and the
    cursor paging iterator built on it.

    The iterator is a state record `(cursor, response)` over fixed
    parameters and options. It is fresh (no response), has a page (a
    response and a non-empty cursor) or is exhausted (a response and an
    empty cursor). Each fetch is a `List` call with the `after` parameter
    replaced by the cursor. */
module CurrencyExchangeRates {
  import opened Errors
  import opened RequestOptions
  import opened Headers
  import opened Envelope
  import opened Requests

  datatype Rate = Rate(rate: string, source: string, target: string, time: string)

  datatype CreatedAt = CreatedAt(gt: string, gte: string, lt: string, lte: string)

  datatype ListParams = ListParams(after: string, before: string, createdAt: CreatedAt,
                                   limit: int, source: string, target: string)

  datatype Cursors = Cursors(after: string, before: string)

  datatype Meta = Meta(cursors: Cursors, limit: int)

  /** One page of rates with its pagination metadata. */
  datatype ListResult = ListResult(rates: seq<Rate>, meta: Meta)

  function ListUrl(endpoint: string): string
  {
    endpoint + "/currency_exchange_rates"
  }

  /** One `List` call: a GET with the parameters as the query. */
  function List(svc: Service, p: ListParams, opts: seq<Mutator>, plumbing: Plumbing,
                retry: Retrier<ListParams, ListResult>): (c: Call<ListParams, ListResult>)
    ensures c.sent.Some? ==>
              && c.sent.value.request.verb == "GET"
              && c.sent.value.request.url == svc.endpoint + "/currency_exchange_rates"
              && c.sent.value.request.payload == Query(p)
              && Resolve(opts).Ok? && c.sent.value.retries == Resolve(opts).value.retries
    ensures c.sent.Some? ==> c.result == Finish(retry(c.sent.value.retries, c.sent.value.request))
    ensures c.result.Ok? ==> c.sent.Some?
  {
    Perform(svc, "GET", ListUrl(svc.endpoint), Query(p), false, opts, "", plumbing, retry)
  }

  /** The headers a `List` call sends: the five fixed ones unless the
      caller's headers replace them, plus the caller's; being a GET it has
      no content type or idempotency key of its own. */
  lemma ListHeaders(svc: Service, p: ListParams, opts: seq<Mutator>, plumbing: Plumbing,
                    retry: Retrier<ListParams, ListResult>)
    requires List(svc, p, opts, plumbing, retry).sent.Some?
    ensures var h := List(svc, p, opts, plumbing, retry).sent.value.request.headers;
            var o := Resolve(opts).value;
            && h.Keys == {Authorization, Version, ClientLibrary, ClientVersion, UserAgentName} + o.headers.Keys
            && Carries(h, o.headers, Authorization, "Bearer " + svc.token)
            && Carries(h, o.headers, Version, "2015-07-06")
            && Carries(h, o.headers, ClientLibrary, "gocardless-pro-go")
            && Carries(h, o.headers, ClientVersion, "1.0.0")
            && Carries(h, o.headers, UserAgentName, svc.userAgent)
            && OnlyFromCaller(h, o.headers, ContentType) && OnlyFromCaller(h, o.headers, IdempotencyKey)
  {
    PreparedHeaders(svc, "GET", ListUrl(svc.endpoint), Query(p), false, opts, "", plumbing);
  }

  /** The paging iterator's state. `params`, `service` and `opts` are fixed
      when it is built; only `cursor` and `response` ever change. */
  datatype Iterator = Iterator(cursor: string, response: Option<ListResult>, params: ListParams,
                               service: Service, opts: seq<Mutator>)

  /** The cursor and the response are only ever assigned together: a fresh
      iterator has an empty cursor, and afterwards the cursor is the cached
      page's forward cursor. */
  ghost predicate Valid(it: Iterator)
  {
    match it.response
    case None => it.cursor == ""
    case Some(page) => it.cursor == page.meta.cursors.after
  }

  /** In particular a non-empty cursor is never held without a response. */
  lemma ValidCursorHasResponse(it: Iterator)
    requires Valid(it)
    ensures it.cursor != "" ==> it.response.Some?
    ensures !Next(it) <==> it.response.Some? && it.response.value.meta.cursors.after == ""
  {
  }

  /** A fresh iterator over the given parameters and options. */
  function All(svc: Service, p: ListParams, opts: seq<Mutator>): (it: Iterator)
    ensures Valid(it) && Next(it)
    ensures it.response.None? && it.params == p && it.service == svc && it.opts == opts
  {
    Iterator("", None, p, svc, opts)
  }

  /** Whether another fetch will be made. */
  predicate Next(it: Iterator)
    ensures it.response.None? ==> Next(it)
    ensures it.cursor != "" ==> Next(it)
    ensures it.response.Some? && it.cursor == "" ==> !Next(it)
  {
    !(it.cursor == "" && it.response.Some?)
  }

  /** What a call of `Value` does: the iterator afterwards, what was handed
      to the retry helper (if a fetch was made) and the caller's result. */
  datatype Step = Step(next: Iterator, sent: Option<Sent<ListParams>>, result: Result<ListResult>)

  /** The parameters of the next fetch: the stored ones with `after`
      replaced by the cursor. */
  function FetchParams(it: Iterator): (p: ListParams)
    ensures p.after == it.cursor
    ensures p.(after := it.params.after) == it.params
  {
    it.params.(after := it.cursor)
  }

  /** One call of `Value`. An exhausted iterator returns its cached page
      without fetching; otherwise it fetches, and only a successful fetch
      changes the state. */
  function Value(it: Iterator, plumbing: Plumbing, retry: Retrier<ListParams, ListResult>): (s: Step)
    ensures !Next(it) ==> s == Step(it, None, Ok(it.response.value))
    ensures Next(it) ==> var c := List(it.service, FetchParams(it), it.opts, plumbing, retry);
                         s.sent == c.sent && s.result == c.result
    ensures s.result.Err? ==> s.next == it
    ensures s.result.Ok? && Next(it) ==>
              s.next == it.(response := Some(s.result.value), cursor := s.result.value.meta.cursors.after)
    ensures Valid(it) ==> Valid(s.next)
  {
    if !Next(it) then Step(it, None, Ok(it.response.value))
    else
      var call := List(it.service, FetchParams(it), it.opts, plumbing, retry);
      match call.result
      case Err(e) => Step(it, call.sent, Err(e))
      case Ok(page) => Step(it.(response := Some(page), cursor := page.meta.cursors.after), call.sent, Ok(page))
  }

  /** What every `Value` call keeps and sends: the parameters, service and
      options never change; a fetch happens only while `Next` holds, sends
      the stored parameters with `after` replaced by the cursor and runs on
      options resolved afresh from the defaults; a successful fetch leaves
      `Next` true exactly when the new page points onward. */
  lemma ValueFacts(it: Iterator, plumbing: Plumbing, retry: Retrier<ListParams, ListResult>)
    ensures var s := Value(it, plumbing, retry);
            && s.next.params == it.params && s.next.service == it.service && s.next.opts == it.opts
            && (s.sent.Some? ==>
                  && Next(it)
                  && s.sent.value.request.payload == Query(FetchParams(it))
                  && Resolve(it.opts).Ok? && s.sent.value.retries == Resolve(it.opts).value.retries)
            && (s.result.Ok? ==> s.next.response == Some(s.result.value))
            && (s.result.Ok? && Next(it) ==> (Next(s.next) <==> s.result.value.meta.cursors.after != ""))
  {
  }

  /** When the retry helper stops after one attempt, a fetching `Value`
      returns page `v` exactly when that attempt's response passed the
      status check, decoded, and held `v` and no `error`. A decoded `error`
      fails the fetch even when a page decoded with it, and leaves the
      iterator unchanged. */
  lemma ValueOneExchange(it: Iterator, plumbing: Plumbing, x: Request<ListParams> -> Exchange<ListResult>,
                         v: ListResult)
    requires Value(it, plumbing, OneAttempt(x)).sent.Some?
    ensures var s := Value(it, plumbing, OneAttempt(x));
            var e := x(s.sent.value.request);
            && (s.result == Ok(v) <==> e == Responded(None, Decoded(Envelope(None, Some(v)))))
            && (e.Responded? && e.statusErr.None? && e.body.Decoded? && e.body.envelope.apiError.Some? ==>
                  s.result == Err(Api(e.body.envelope.apiError.value)) && s.next == it)
  {
    var s := Value(it, plumbing, OneAttempt(x));
    var e := x(s.sent.value.request);
    assert s.result == Finish(ReportOf(e));
    SingleAttemptSucceedsIff(e, v);
  }

  /** Every fetch resolves the stored options afresh from the defaults:
      an option that fails makes that `Value` fail with its error, with
      nothing sent and the iterator unchanged. */
  lemma ValueOptionFailure(it: Iterator, plumbing: Plumbing, retry: Retrier<ListParams, ListResult>, i: int, e: Error)
    requires Next(it) && plumbing.parse.None?
    requires FirstFailure(Default, it.opts, i, e)
    ensures Value(it, plumbing, retry) == Step(it, None, Err(e))
  {
    FailsIffFirstFailure(Default, it.opts, e);
  }

  /** The first fetch of a fresh iterator sends the caller's parameters
      with `after` cleared, whatever the caller put there. */
  lemma FirstFetchClearsAfter(svc: Service, p: ListParams, opts: seq<Mutator>, plumbing: Plumbing,
                              retry: Retrier<ListParams, ListResult>)
    requires Value(All(svc, p, opts), plumbing, retry).sent.Some?
    ensures Value(All(svc, p, opts), plumbing, retry).sent.value.request.payload == Query(p.(after := ""))
  {
  }

  /** A transition of the iterator; `ValueOn` gives the one `Value`
      performs against a fixed environment. */
  type Transition = Iterator -> Step

  function ValueOn(plumbing: Plumbing, retry: Retrier<ListParams, ListResult>): Transition
  {
    it => Value(it, plumbing, retry)
  }

  /** The iterator after `n` transitions in a row. */
  function Run(it: Iterator, n: nat, step: Transition): Iterator
    decreases n
  {
    if n == 0 then it else Run(step(it).next, n - 1, step)
  }

  /** The steps of `n` transitions in a row: step `j` is taken from the
      state the first `j` left behind. */
  function Drive(it: Iterator, n: nat, step: Transition): seq<Step>
  {
    seq(n, j requires 0 <= j < n => step(Run(it, j, step)))
  }

  /** An exhausted iterator stays exhausted and unchanged, however often
      `Value` is called. */
  lemma {:induction false} ExhaustedStays(it: Iterator, n: nat, plumbing: Plumbing,
                                          retry: Retrier<ListParams, ListResult>)
    requires !Next(it)
    ensures Run(it, n, ValueOn(plumbing, retry)) == it
    decreases n
  {
    if n > 0 {
      ExhaustedStays(it, n - 1, plumbing, retry);
    }
  }

  /** The cursor the iterator holds before fetching page `i` of a chain. */
  function CursorBefore(pages: seq<ListResult>, i: int): string
    requires 0 <= i <= |pages|
  {
    if i == 0 then "" else pages[i - 1].meta.cursors.after
  }

  /** A finite chain of pages: every page but the last points onward. */
  ghost predicate Chain(pages: seq<ListResult>)
  {
    && |pages| > 0
    && pages[|pages| - 1].meta.cursors.after == ""
    && forall i | 0 <= i < |pages| - 1 :: pages[i].meta.cursors.after != ""
  }

  /** The query cursor of a request. */
  function AfterOf(req: Request<ListParams>): string
  {
    match req.payload
    case Query(q) => q.after
    case _ => ""
  }

  /** A retry helper that answers by the requested cursor alone. */
  function ByCursor(server: string -> TryReport<ListResult>): Retrier<ListParams, ListResult>
  {
    (n: int, req: Request<ListParams>) => server(AfterOf(req))
  }

  /** The iterator after the first `k` pages of a chain have been fetched. */
  function At(svc: Service, p: ListParams, opts: seq<Mutator>, pages: seq<ListResult>, k: int): Iterator
    requires 0 <= k <= |pages|
  {
    Iterator(CursorBefore(pages, k), if k == 0 then None else Some(pages[k - 1]), p, svc, opts)
  }

  /** Step `s` fetched page `i` of the chain, asking for it by the
      previous page's cursor, and moved on to the state after it. */
  ghost predicate FetchedPage(s: Step, svc: Service, p: ListParams, opts: seq<Mutator>,
                              pages: seq<ListResult>, i: int)
  {
    && 0 <= i < |pages|
    && s.result == Ok(pages[i])
    && s.sent.Some?
    && s.sent.value.request.payload == Query(p.(after := CursorBefore(pages, i)))
    && s.next == At(svc, p, opts, pages, i + 1)
  }

  /** Step `s` returned the chain's last page from the cache, without a fetch. */
  ghost predicate Replayed(s: Step, svc: Service, p: ListParams, opts: seq<Mutator>, pages: seq<ListResult>)
  {
    && |pages| > 0
    && s.result == Ok(pages[|pages| - 1])
    && s.sent.None?
    && s.next == At(svc, p, opts, pages, |pages|)
  }

  /** The server answers each cursor of the chain with the page it leads to. */
  ghost predicate Serves(server: string -> TryReport<ListResult>, pages: seq<ListResult>)
  {
    forall i | 0 <= i < |pages| :: server(CursorBefore(pages, i)) == TryOk(Some(pages[i]))
  }

  /** With no plumbing failure and options that resolve, `List` sends
      its query and returns what the server's report selects. */
  lemma ListByCursor(svc: Service, q: ListParams, opts: seq<Mutator>, server: string -> TryReport<ListResult>)
    requires Resolve(opts).Ok?
    ensures var c := List(svc, q, opts, NoFailures, ByCursor(server));
            && c.sent.Some?
            && c.sent.value.request.payload == Query(q)
            && c.result == Finish(server(q.after))
  {
    var c := List(svc, q, opts, NoFailures, ByCursor(server));
    assert AfterOf(c.sent.value.request) == q.after;
  }

  /** Before the last page is fetched, `Value` fetches the next page. */
  lemma StepFetch(svc: Service, p: ListParams, opts: seq<Mutator>, pages: seq<ListResult>,
                  server: string -> TryReport<ListResult>, k: nat)
    requires Chain(pages) && Resolve(opts).Ok? && Serves(server, pages)
    requires k < |pages|
    ensures FetchedPage(Value(At(svc, p, opts, pages, k), NoFailures, ByCursor(server)), svc, p, opts, pages, k)
  {
    var it := At(svc, p, opts, pages, k);
    assert Next(it) by {
      if k > 0 { assert it.cursor == pages[k - 1].meta.cursors.after; }
    }
    assert FetchParams(it) == p.(after := CursorBefore(pages, k));
    ListByCursor(svc, FetchParams(it), opts, server);
    var s := Value(it, NoFailures, ByCursor(server));
    assert s.result == Ok(pages[k]);
    assert s.next == At(svc, p, opts, pages, k + 1);
  }

  /** After the last page, `Value` replays it. */
  lemma StepReplay(svc: Service, p: ListParams, opts: seq<Mutator>, pages: seq<ListResult>,
                   server: string -> TryReport<ListResult>)
    requires Chain(pages)
    ensures Replayed(Value(At(svc, p, opts, pages, |pages|), NoFailures, ByCursor(server)), svc, p, opts, pages)
  {
    assert !Next(At(svc, p, opts, pages, |pages|));
  }

  /** One `Value` call part-way through a chain. */
  lemma StepAt(svc: Service, p: ListParams, opts: seq<Mutator>, pages: seq<ListResult>,
               server: string -> TryReport<ListResult>, k: nat)
    requires Chain(pages) && Resolve(opts).Ok? && Serves(server, pages)
    requires k <= |pages|
    ensures var s := Value(At(svc, p, opts, pages, k), NoFailures, ByCursor(server));
            if k < |pages| then FetchedPage(s, svc, p, opts, pages, k) else Replayed(s, svc, p, opts, pages)
  {
    if k < |pages| {
      StepFetch(svc, p, opts, pages, server, k);
    } else {
      StepReplay(svc, p, opts, pages, server);
    }
  }

  /** Step `s` is the one taken from `At(k)` when walking the chain. */
  ghost predicate ChainStep(s: Step, svc: Service, p: ListParams, opts: seq<Mutator>,
                            pages: seq<ListResult>, k: int)
  {
    if k < |pages| then FetchedPage(s, svc, p, opts, pages, k) else Replayed(s, svc, p, opts, pages)
  }

  /** Walking a chain from page `k` on: `n` transitions later the iterator
      has fetched `n` more pages, or all of them and stopped. */
  lemma {:induction false} RunFrom(svc: Service, p: ListParams, opts: seq<Mutator>, pages: seq<ListResult>,
                                   step: Transition, k: nat, n: nat)
    requires |pages| > 0 && k <= |pages|
    requires forall i {:trigger step(At(svc, p, opts, pages, i))} | 0 <= i <= |pages| ::
               ChainStep(step(At(svc, p, opts, pages, i)), svc, p, opts, pages, i)
    ensures Run(At(svc, p, opts, pages, k), n, step)
            == At(svc, p, opts, pages, if k + n < |pages| then k + n else |pages|)
    decreases n
  {
    if n > 0 {
      assert ChainStep(step(At(svc, p, opts, pages, k)), svc, p, opts, pages, k);
      if k < |pages| {
        RunFrom(svc, p, opts, pages, step, k + 1, n - 1);
      } else {
        RunFrom(svc, p, opts, pages, step, k, n - 1);
      }
    }
  }

  /** The chain walk for any transition that behaves like `Value` on the
      chain's states. */
  lemma WalkChainBy(svc: Service, p: ListParams, opts: seq<Mutator>, pages: seq<ListResult>,
                    step: Transition, extra: nat)
    requires |pages| > 0
    requires forall i {:trigger step(At(svc, p, opts, pages, i))} | 0 <= i <= |pages| ::
               ChainStep(step(At(svc, p, opts, pages, i)), svc, p, opts, pages, i)
    ensures var steps := Drive(At(svc, p, opts, pages, 0), |pages| + extra, step);
            forall i | 0 <= i < |pages| + extra :: ChainStep(steps[i], svc, p, opts, pages, i)
  {
    var steps := Drive(At(svc, p, opts, pages, 0), |pages| + extra, step);
    forall i | 0 <= i < |pages| + extra
      ensures ChainStep(steps[i], svc, p, opts, pages, i)
    {
      RunFrom(svc, p, opts, pages, step, 0, i);
      var k := if i < |pages| then i else |pages|;
      assert steps[i] == step(At(svc, p, opts, pages, k));
    }
  }

  /** Driving a fresh iterator over a finite chain of pages fetches each
      page once, in order, each with `after` set to the previous page's
      cursor; after the last page `Next` is false, and every further
      `Value` returns the last page without fetching. */
  lemma WalkChain(svc: Service, p: ListParams, opts: seq<Mutator>, pages: seq<ListResult>,
                  server: string -> TryReport<ListResult>, extra: nat)
    requires Chain(pages) && Resolve(opts).Ok? && Serves(server, pages)
    ensures var steps := Drive(All(svc, p, opts), |pages| + extra, ValueOn(NoFailures, ByCursor(server)));
            && (forall i | 0 <= i < |pages| ::
                  && steps[i].result == Ok(pages[i])
                  && steps[i].sent.Some?
                  && steps[i].sent.value.request.payload == Query(p.(after := CursorBefore(pages, i))))
            && !Next(steps[|pages| - 1].next)
            && (forall i | |pages| <= i < |pages| + extra ::
                  steps[i].result == Ok(pages[|pages| - 1]) && steps[i].sent.None?)
  {
    var start := All(svc, p, opts);
    assert start == At(svc, p, opts, pages, 0);
    var step := ValueOn(NoFailures, ByCursor(server));
    forall i | 0 <= i <= |pages|
      ensures ChainStep(step(At(svc, p, opts, pages, i)), svc, p, opts, pages, i)
    {
      StepAt(svc, p, opts, pages, server, i);
    }
    WalkChainBy(svc, p, opts, pages, step, extra);
    var steps := Drive(start, |pages| + extra, step);
    assert ChainStep(steps[|pages| - 1], svc, p, opts, pages, |pages| - 1);
    assert !Next(At(svc, p, opts, pages, |pages|));
  }
}
