/** The HTTP status codes the core uses (Nest's `HttpStatus` enum). */
module HttpStatus {
  const OK: int := 200
  const CREATED: int := 201
  const BAD_REQUEST: int := 400
  const UNAUTHORIZED: int := 401
  const NOT_FOUND: int := 404
  const INTERNAL_SERVER_ERROR: int := 500
}

/**
 * The two envelope shapes every result is given, and the helpers
 * `successResponse` / `errorResponse` that build them.
 */
module ResponseHelper {
  import opened Wrappers
  import opened JsValues
  import HttpStatus

  /** `{status: true, statusCode, message, data}` and nothing else. */
  predicate IsSuccessShape(v: JsValue) {
    && v.Obj?
    && v.fields.Keys == {"status", "statusCode", "message", "data"}
    && v.fields["status"] == Bool(true)
  }

  /** `{status: false, statusCode, message, error}` and nothing else. */
  predicate IsErrorShape(v: JsValue) {
    && v.Obj?
    && v.fields.Keys == {"status", "statusCode", "message", "error"}
    && v.fields["status"] == Bool(false)
  }

  /** The boolean `status` alone tells the two shapes apart. */
  lemma ShapesDisjoint(v: JsValue)
    requires IsSuccessShape(v) || IsErrorShape(v)
    ensures IsSuccessShape(v) <==> Prop(v, "status") == Bool(true)
    ensures IsErrorShape(v) <==> Prop(v, "status") == Bool(false)
  {
  }

  /** `successResponse(message, data, statusCode = HttpStatus.OK)`; an omitted
      (undefined) status code is `None`. */
  function SuccessResponse(message: string, data: JsValue, statusCode: Option<int> := None): (r: JsValue)
    ensures IsSuccessShape(r)
    ensures Prop(r, "message") == Str(message)
    ensures Prop(r, "data") == data
    ensures Prop(r, "statusCode") == Num(statusCode.GetOr(HttpStatus.OK))
  {
    Obj(map[
      "status" := Bool(true),
      "statusCode" := Num(statusCode.GetOr(HttpStatus.OK)),
      "message" := Str(message),
      "data" := data])
  }

  /** `errorResponse(message, error, statusCode = HttpStatus.BAD_REQUEST)`. */
  function ErrorResponse(message: string, error: JsValue, statusCode: Option<int> := None): (r: JsValue)
    ensures IsErrorShape(r)
    ensures Prop(r, "message") == Str(message)
    ensures Prop(r, "error") == error
    ensures Prop(r, "statusCode") == Num(statusCode.GetOr(HttpStatus.BAD_REQUEST))
  {
    Obj(map[
      "status" := Bool(false),
      "statusCode" := Num(statusCode.GetOr(HttpStatus.BAD_REQUEST)),
      "message" := Str(message),
      "error" := error])
  }
}
