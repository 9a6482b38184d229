/** Error values and the two wrappers every call of the client returns.

    A Go call returns `(*T, error)`; here that pair is a `Result`, and a Go
    pointer that may be nil is an `Option`. */
module Errors {

  datatype Option<+T> = None | Some(value: T)

  /** The decoded `error` object of a response envelope. Its fields belong
      to a type that is not part of this model, so it is kept opaque. */
  datatype ApiError = ApiError(detail: string)

  /** The errors a call can return. The library calls, options and
      transport that produce `Failure`s are not part of this model, and
      every layer passes their errors on unchanged, so a `Failure` is
      opaque; the two kinds the client makes itself are distinct. */
  datatype Error =
    | Failure(message: string)         // returned by a call not modelled here
    | Api(apiError: ApiError)          // the envelope's decoded `error`
    | MissingResult                    // errors.New("missing result")

  datatype Result<+T> = Ok(value: T) | Err(error: Error)
}
