/**
 * Exceptions in flight inside the service, and the error responses its endpoints emit.
 */
module Errors {

  /**
   * The detail of an `HTTPException`, kept as a structure rather than flattened text:
   * - `Text(s)`: the literal string `s`;
   * - `Phrase(status)`: `detail=None` was given, so the framework puts the standard
   *   reason phrase of `status` there;
   * - `Wrapped(status, inner)`: `str(e)` of a caught `HTTPException(status, inner)`,
   *   which the framework renders as `"{status}: {inner}"`.
   */
  datatype Detail =
    | Text(text: string)
    | Phrase(code: int)
    | Wrapped(code: int, inner: Detail)

  /** An exception being propagated: an `HTTPException`, or any other Python exception with its `str(e)`. */
  datatype Raised =
    | HttpException(status: int, detail: Detail)
    | PyException(text: string)

  /** What an endpoint answers with when it fails: an HTTP status and the `detail` of the body. */
  datatype HttpError = HttpError(status: int, detail: Detail)

  /** `str(e)` for `e` of type `NoneType` used as a dict: `None.get(...)`. */
  const NoneHasNoGet := "'NoneType' object has no attribute 'get'"
  /** `str(e)` for `None[...]`. */
  const NoneNotSubscriptable := "'NoneType' object is not subscriptable"
  /** `str(e)` for `len(None)`. */
  const NoneHasNoLen := "object of type 'NoneType' has no len()"

  /** `str(KeyError(key))`: the key in single quotes. */
  function KeyErrorText(key: string): (r: string)
    ensures |r| == |key| + 2 && r[0] == '\'' && r[|r| - 1] == '\''
    ensures r[1..|r| - 1] == key
  {
    "'" + key + "'"
  }

  /**
   * The handler `except Exception as e: raise HTTPException(status_code=500, detail=str(e))`.
   * Every failure leaves as a 500; a caught HTTPException survives only as the text of the
   * detail, its own status turned into a prefix.
   */
  function CatchAll(e: Raised): (r: HttpError)
    ensures r.status == 500
    ensures e.HttpException? ==> r.detail.Wrapped? && r.detail.code == e.status && r.detail.inner == e.detail
    ensures e.PyException? ==> r.detail == Text(e.text)
  {
    match e
    case HttpException(status, detail) => HttpError(500, Wrapped(status, detail))
    case PyException(text) => HttpError(500, Text(text))
  }

  /**
   * The handler pair `except HTTPException: raise` then
   * `except Exception as e: raise HTTPException(status_code=500, detail=str(e))`:
   * an HTTPException keeps its status and detail, anything else becomes a 500.
   */
  function KeepHttp(e: Raised): (r: HttpError)
    ensures e.HttpException? ==> r.status == e.status && r.detail == e.detail
    ensures e.PyException? ==> r.status == 500 && r.detail == Text(e.text)
  {
    match e
    case HttpException(status, detail) => HttpError(status, detail)
    case PyException(text) => HttpError(500, Text(text))
  }
}
