/**
 * `ResponseInterceptor`: every value a handler produces is normalised into a
 * success envelope, or re-routed into a thrown error object when it carries
 * `status === false`.  Only the single mapped value is modelled, not the
 * observable around it.
 */
module Interceptor {
  import opened Wrappers
  import opened JsValues
  import opened ResponseHelper
  import HttpStatus

  /** What `map` does with one value. */
  datatype Intercepted =
    | Emitted(envelope: JsValue)   // returned: the success envelope
    | Thrown(payload: JsValue)     // the object literal thrown on `status === false`
    | NullDereference              // TypeError: reading `.status` of null or undefined

  /** The message `mapData` gives an error result. */
  function ErrorMessage(m: JsValue): (r: JsValue)
    ensures Truthy(r) && r.Str?
    ensures Truthy(m) ==> |r.s| >= 7 && r.s[..7] == "Error: " && r.s[7..] == ToJsString(m)
    ensures !Truthy(m) ==> r == Str("An error occurred")
    ensures r.s[0] == 'E' || r.s[0] == 'A'
  {
    if Truthy(m) then Str("Error: " + ToJsString(m)) else Str("An error occurred")
  }

  /** `transformData`: a shallow copy.  An object is copied key for key, a
      string spreads to its characters under index keys, and a number or a
      boolean spreads to nothing. */
  function TransformData(d: JsValue): (r: JsValue)
    ensures r.Obj?
    ensures d.Obj? ==> r == d
    ensures d.Num? || d.Bool? || IsNullish(d) ==> r == Obj(map[])
    ensures d.Str? ==> forall i :: 0 <= i < |d.s| ==>
      DecimalDigits(i) in r.fields && r.fields[DecimalDigits(i)] == Str([d.s[i]])
    ensures d.Str? ==> forall k :: k in r.fields ==>
      exists i :: 0 <= i < |d.s| && k == DecimalDigits(i)
  {
    Obj(OwnProps(d))
  }

  /** `mapData`: falsy values pass through; otherwise a spread copy with either
      the message rewritten (error results) or `data` copied (all others). */
  function MapData(d: JsValue): (r: JsValue)
    ensures !Truthy(d) ==> r == d
    ensures Truthy(d) ==> r.Obj?
    // an error result: every own property kept, only `message` rewritten
    ensures Truthy(d) && Prop(d, "status") == Bool(false) ==>
      && r.fields.Keys == OwnProps(d).Keys + {"message"}
      && r.fields["message"] == ErrorMessage(Prop(d, "message"))
      && forall k :: k in OwnProps(d) && k != "message" ==> r.fields[k] == OwnProps(d)[k]
    // any other truthy result: every own property kept, only `data` replaced by its copy
    ensures Truthy(d) && Prop(d, "status") != Bool(false) ==>
      && r.fields.Keys == OwnProps(d).Keys + {"data"}
      && r.fields["data"] == DataCopy(Prop(d, "data"))
      && forall k :: k in OwnProps(d) && k != "data" ==> r.fields[k] == OwnProps(d)[k]
  {
    if !Truthy(d) then d
    else if Prop(d, "status") == Bool(false) then
      Obj(OwnProps(d)["message" := ErrorMessage(Prop(d, "message"))])
    else
      Obj(OwnProps(d)["data" := DataCopy(Prop(d, "data"))])
  }

  /** `data.data ? this.transformData(data.data) : {}`: the copy a success
      envelope carries as `data`. */
  function DataCopy(data: JsValue): (r: JsValue)
    ensures r.Obj?
    ensures data.Obj? ==> r == data
    ensures !Truthy(data) ==> r == Obj(map[])
    ensures data.Num? || data.Bool? ==> r == Obj(map[])
    ensures data.Str? ==> forall i :: 0 <= i < |data.s| ==>
      DecimalDigits(i) in r.fields && r.fields[DecimalDigits(i)] == Str([data.s[i]])
  {
    if Truthy(data) then TransformData(data) else Obj(map[])
  }

  /** The function passed to `map` inside `intercept`, applied to handler result `d`. */
  function Intercept(d: JsValue): (r: Intercepted)
    // only null and undefined fail, at the `.status` read
    ensures r.NullDereference? <==> IsNullish(d)
    // exactly a strict `status === false` leads to the throw
    ensures r.Thrown? <==> Prop(d, "status") == Bool(false)
    ensures r.Thrown? ==>
      && IsErrorShape(r.payload)
      && Prop(r.payload, "statusCode") == Or(Prop(d, "statusCode"), Num(HttpStatus.BAD_REQUEST))
      && Prop(r.payload, "message") == ErrorMessage(Prop(d, "message"))
      && Prop(r.payload, "message") != Str("Something went wrong")
      && Prop(r.payload, "error") == Or(Prop(d, "error"), Str(""))
    ensures r.Emitted? ==>
      && IsSuccessShape(r.envelope)
      && Prop(r.envelope, "statusCode") == Or(Prop(d, "statusCode"), Num(HttpStatus.OK))
      && Prop(r.envelope, "message") == Or(Prop(d, "message"), Str("Success"))
      && Prop(r.envelope, "data") == DataCopy(Prop(d, "data"))
  {
    var mapped := MapData(d);
    if IsNullish(mapped) then NullDereference
    else if Prop(mapped, "status") == Bool(false) then
      Thrown(Obj(map[
        "status" := Bool(false),
        "statusCode" := Or(Prop(mapped, "statusCode"), Num(HttpStatus.BAD_REQUEST)),
        "message" := Or(Prop(mapped, "message"), Str("Something went wrong")),
        "error" := Or(Prop(mapped, "error"), Str(""))]))
    else
      Emitted(Obj(map[
        "status" := Bool(true),
        "statusCode" := Or(Prop(mapped, "statusCode"), Num(HttpStatus.OK)),
        "message" := Or(Prop(mapped, "message"), Str("Success")),
        "data" := Or(Prop(mapped, "data"), Obj(map[]))]))
  }

  /** A success envelope passes through the interceptor unchanged, so
      normalising twice is normalising once. */
  lemma InterceptIdempotent(d: JsValue)
    requires Intercept(d).Emitted?
    ensures Intercept(Intercept(d).envelope) == Intercept(d)
  {
  }

  /** A handler result that is a primitive (a boolean, a number or a string,
      falsy or not) carries none of the envelope's properties, so it becomes
      the default success envelope with empty data. */
  lemma PrimitiveResult(d: JsValue)
    requires d.Bool? || d.Num? || d.Str?
    ensures Intercept(d) == Emitted(SuccessResponse("Success", Obj(map[]), Some(HttpStatus.OK)))
  {
    if d.Str? {
      StrPropIsUndefined(d.s, "status");
      StrPropIsUndefined(d.s, "statusCode");
      StrPropIsUndefined(d.s, "message");
      StrPropIsUndefined(d.s, "data");
    }
  }

  /** A bare payload `{data: x}` gets the default status code and message. */
  lemma BarePayload(x: JsValue)
    ensures Intercept(Obj(map["data" := x])) == Emitted(SuccessResponse("Success", DataCopy(x), Some(HttpStatus.OK)))
  {
  }

  /** `successResponse` output survives normalisation, up to the fallbacks for
      an empty message, a zero status code and a non-object `data`. */
  lemma SuccessResponseRoundTrip(message: string, data: JsValue, statusCode: Option<int>)
    ensures var code := statusCode.GetOr(HttpStatus.OK);
      Intercept(SuccessResponse(message, data, statusCode))
      == Emitted(SuccessResponse(
           if message == "" then "Success" else message,
           DataCopy(data),
           Some(if code == 0 then HttpStatus.OK else code)))
  {
  }

  /** `errorResponse` output is always re-thrown, with the "Error: " prefix
      and the fallbacks for an empty message, a zero code and a falsy error. */
  lemma ErrorResponseRoundTrip(message: string, error: JsValue, statusCode: Option<int>)
    ensures var code := statusCode.GetOr(HttpStatus.BAD_REQUEST);
      Intercept(ErrorResponse(message, error, statusCode))
      == Thrown(ErrorResponse(
           if message == "" then "An error occurred" else "Error: " + message,
           Or(error, Str("")),
           Some(if code == 0 then HttpStatus.BAD_REQUEST else code)))
  {
  }
}
