/** Per-call request options: a record that starts at `{retries: 3}` and is
    passed through the caller's option mutators, in order, before any
    request is built. The first mutator that fails aborts the call. */
module RequestOptions {
  import opened Errors

  const DefaultRetries: int := 3

  datatype Options = Options(retries: int, idempotencyKey: string, headers: map<string, string>)

  /** The options every call starts from. */
  const Default: Options := Options(DefaultRetries, "", map[])

  /** A caller-supplied option. Its definition is not part of this model:
      any total function from options to updated options or an error. */
  type Mutator = Options -> Result<Options>

  /** Applies `opts` left to right from `o`, stopping at the first error.
      With no mutators the options are unchanged, and an error it returns
      is one that some mutator returned. */
  function ApplyFrom(o: Options, opts: seq<Mutator>): (r: Result<Options>)
    ensures |opts| == 0 ==> r == Ok(o)
    ensures r.Err? ==> exists i, x :: 0 <= i < |opts| && opts[i](x) == Err(r.error)
    decreases |opts|
  {
    if |opts| == 0 then Ok(o)
    else match opts[0](o)
      case Err(e) => Err(e)
      case Ok(o') =>
        var r := ApplyFrom(o', opts[1..]);
        assert r.Err? ==> exists i, x :: 0 <= i < |opts| && opts[i](x) == Err(r.error) by {
          if r.Err? {
            var j, x :| 0 <= j < |opts| - 1 && opts[1..][j](x) == Err(r.error);
            assert opts[j + 1] == opts[1..][j];
          }
        }
        r
  }

  /** The options a call resolves from its mutators: the defaults when
      there are none, and otherwise a mutator's own error or the options
      the last mutator left. */
  function Resolve(opts: seq<Mutator>): (r: Result<Options>)
    ensures |opts| == 0 ==> r == Ok(Options(3, "", map[]))
    ensures r.Err? ==> exists i, x :: 0 <= i < |opts| && opts[i](x) == Err(r.error)
  {
    ApplyFrom(Default, opts)
  }

  /** Mutators are applied in order: resolving `a + b` resolves `a` and
      continues with `b` from where `a` left off, and a failure in `a`
      means nothing of `b` is ever applied. */
  lemma {:induction false} ApplyConcat(o: Options, a: seq<Mutator>, b: seq<Mutator>)
    ensures ApplyFrom(o, a + b) == match ApplyFrom(o, a)
                                   case Err(e) => Err(e)
                                   case Ok(o') => ApplyFrom(o', b)
    decreases |a|
  {
    if |a| == 0 {
      assert a + b == b;
    } else {
      assert (a + b)[0] == a[0];
      assert (a + b)[1..] == a[1..] + b;
      match a[0](o)
      case Err(e) =>
      case Ok(o') => ApplyConcat(o', a[1..], b);
    }
  }

  /** Mutator `i` is the first to fail, with error `e`, when started from `o`. */
  ghost predicate FirstFailure(o: Options, opts: seq<Mutator>, i: int, e: Error)
  {
    && 0 <= i < |opts|
    && ApplyFrom(o, opts[..i]).Ok?
    && opts[i](ApplyFrom(o, opts[..i]).value) == Err(e)
  }

  /** Resolution fails with `e` exactly when some mutator is the first to
      fail, with `e`: fail-fast, and the error is passed on unchanged. */
  lemma {:induction false} FailsIffFirstFailure(o: Options, opts: seq<Mutator>, e: Error)
    ensures ApplyFrom(o, opts) == Err(e) <==> exists i :: FirstFailure(o, opts, i, e)
    decreases |opts|
  {
    if ApplyFrom(o, opts) == Err(e) {
      assert |opts| > 0;
      assert opts[..0] == [];
      match opts[0](o)
      case Err(e0) =>
        assert FirstFailure(o, opts, 0, e);
      case Ok(o') =>
        FailsIffFirstFailure(o', opts[1..], e);
        var j :| FirstFailure(o', opts[1..], j, e);
        assert opts[..j + 1][0] == opts[0];
        assert opts[..j + 1][1..] == opts[1..][..j];
        assert FirstFailure(o, opts, j + 1, e);
    }
    if i :| FirstFailure(o, opts, i, e) {
      assert opts == opts[..i] + opts[i..];
      ApplyConcat(o, opts[..i], opts[i..]);
    }
  }

  /** The loop the client runs before every request: start from the
      defaults, apply each option, return at the first error. */
  method ApplyAll(opts: seq<Mutator>) returns (r: Result<Options>)
    ensures r == Resolve(opts)
    ensures r.Err? ==> exists i :: FirstFailure(Default, opts, i, r.error)
  {
    var o := Default;
    var i := 0;
    while i < |opts|
      invariant 0 <= i <= |opts|
      invariant ApplyFrom(o, opts[i..]) == Resolve(opts)
    {
      assert opts[i..][1..] == opts[i + 1..];
      var step := opts[i](o);
      if step.Err? {
        r := Err(step.error);
        FailsIffFirstFailure(Default, opts, r.error);
        return;
      }
      o := step.value;
      i := i + 1;
    }
    r := Ok(o);
  }
}
