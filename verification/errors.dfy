/** The client's error type and the `try`/`except httpx.HTTPError` wrapper
    every operation puts around its exchange (`client.py`, section "Errors"
    and the bodies of the operations). */
module Errors {
  import opened Wrappers
  import opened JsonValues
  import opened Models

  /** The raw body attached to an HTTP failure: the blocking client keeps
      the decoded text, the non-blocking one the bytes it read. */
  datatype Details = TextDetails(text: string) | ByteDetails(bytes: seq<byte>)

  /** `VatifyError(message, status_code, details)`. A missing status code
      means no HTTP response was received. */
  datatype VatifyError = VatifyError(message: string, statusCode: Option<int>, details: Option<Details>)

  /** What can be raised inside an operation's `try` block. */
  datatype Thrown =
    | ThrownVatify(error: VatifyError)
    | ThrownHttp(description: string)
    | ThrownSchema(schema: SchemaError)

  /** What can escape an operation: a `VatifyError`, or a local schema or
      decoding failure that is not one. */
  datatype Error =
    | VatifyErr(error: VatifyError)
    | SchemaErr(schema: SchemaError)

  /** The prefix of the message of a transport failure. */
  const NetworkErrorPrefix: string := "Network error: "

  /** `except httpx.HTTPError as e: raise VatifyError(f"Network error: {e}")`.
      Only transport errors are caught; a `VatifyError` raised inside the
      block is not an `httpx.HTTPError` and leaves unchanged, and schema
      failures leave as they are. */
  function CatchHttpError<T>(r: Result<T, Thrown>): (o: Result<T, Error>)
    ensures r.Success? <==> o.Success?
    ensures r.Success? ==> o.value == r.value
    ensures r.Failure? && r.error.ThrownHttp? ==>
              && o.Failure? && o.error.VatifyErr?
              && o.error.error.statusCode == None
              && o.error.error.details == None
              && o.error.error.message == NetworkErrorPrefix + r.error.description
    ensures r.Failure? && r.error.ThrownVatify? ==> o == Failure(VatifyErr(r.error.error))
    ensures r.Failure? && r.error.ThrownSchema? ==> o == Failure(SchemaErr(r.error.schema))
  {
    match r
    case Success(v) => Success(v)
    case Failure(ThrownHttp(d)) => Failure(VatifyErr(VatifyError(NetworkErrorPrefix + d, None, None)))
    case Failure(ThrownVatify(e)) => Failure(VatifyErr(e))
    case Failure(ThrownSchema(s)) => Failure(SchemaErr(s))
  }
}
