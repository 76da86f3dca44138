/**
 * What the handlers share with the web framework and with Go's integers: status
 * codes, the shape of a response, parsed path and query parameters, and the
 * 64-bit conversions the handlers apply to them.
 */
module Web {
  import opened Errs

  const StatusOK := 200
  const StatusCreated := 201
  const StatusBadRequest := 400
  const StatusForbidden := 403
  const StatusNotFound := 404
  const StatusInternalServerError := 500

  /** A JSON response body: a typed value, a bare JSON string, or the formatter's `{"messages": [...]}`. */
  datatype Body<T> = Json(value: T) | Text(text: string) | Problem(err: ErrorResponse)

  datatype Response<T> = Response(status: int, body: Body<T>)

  /** The `{"messages": [...]}` response the formatter builds for an error. */
  function ErrorBody<T>(status: int, err: Error): Response<T> {
    Response(status, Problem(ErrorResponse(Messages(err))))
  }

  const MinInt64: int := -0x8000_0000_0000_0000
  const MaxInt64: int := 0x7fff_ffff_ffff_ffff
  const TwoTo64: int := 0x1_0000_0000_0000_0000

  /** Go's `int` on a 64-bit platform: what strconv.Atoi returns. */
  newtype Int64 = x: int | MinInt64 <= x <= MaxInt64

  /** The outcome of strconv.Atoi on a parameter: a number, or the parse error's text. */
  datatype Atoi = Num(n: Int64) | NotNum(text: string)

  /** Go's conversion `uint(x)`: two's complement reinterpretation as an unsigned 64-bit value. */
  function ToUint(x: Int64): (r: nat)
    ensures r < TwoTo64
    ensures (r - x as int) % TwoTo64 == 0
    ensures x >= 0 ==> r == x as int
  {
    if x >= 0 then x as int else x as int + TwoTo64
  }

  /** The Int64 that Go's wrapping arithmetic yields for the mathematical value x. */
  function WrapInt64(x: int): (r: Int64)
    ensures (r as int - x) % TwoTo64 == 0
    ensures MinInt64 <= x <= MaxInt64 ==> r as int == x
  {
    ((x - MinInt64) % TwoTo64 + MinInt64) as Int64
  }
}
