/**
  The HTTP responses the service writes through Fiber, as (status, body)
  values; the JSON encoding itself is not modelled.
 */
module Fiber {
  import opened Wrappers
  import opened GoValues

  const StatusOK: int := 200
  const StatusBadRequest: int := 400
  const StatusNotFound: int := 404
  const StatusInternalServerError: int := 500

  /** The object under "error": `details` is `None` when the key is absent. */
  datatype ErrorPayload = ErrorPayload(code: string, message: string, details: Option<map<string, Any>>)

  /** `{"error": {...}}` or `{"data": ...}`. */
  datatype Body = ErrorBody(error: ErrorPayload) | DataBody(data: string)

  datatype Response = Response(status: int, body: Body)
}
