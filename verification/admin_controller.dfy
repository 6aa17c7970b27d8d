/**
 * `AdminController`: each handler turns the service's outcome (a value or a
 * thrown exception) into exactly one envelope; none of them throws.
 */
module AdminController {
  import opened Wrappers
  import opened JsValues
  import opened ResponseHelper
  import opened Interceptor
  import opened AdminSchema
  import opened AdminService
  import HttpStatus

  /** The `AdminMessages` strings; their values are not part of this model. */
  datatype Messages = Messages(accountCreated: string, ok: string, loginSuccess: string, badRequest: string)

  /** `createAdmin()`: status code 200 on both paths. */
  function CreateAdmin(outcome: Result<JsValue, Exception>, msgs: Messages): (r: JsValue)
    ensures IsSuccessShape(r) <==> outcome.Success?
    ensures IsErrorShape(r) <==> outcome.Failure?
    ensures Prop(r, "statusCode") == Num(HttpStatus.OK)
    ensures outcome.Success? ==> Prop(r, "message") == Str(msgs.accountCreated) && Prop(r, "data") == outcome.value
    ensures outcome.Failure? ==> Prop(r, "message") == Str(msgs.badRequest) && Prop(r, "error") == Str(outcome.error.message)
  {
    match outcome
    case Success(admin) => SuccessResponse(msgs.accountCreated, admin, Some(HttpStatus.OK))
    case Failure(e) => ErrorResponse(msgs.badRequest, Str(e.message), Some(HttpStatus.OK))
  }

  /** `getAdmin()`: 201 on success, 400 on failure. */
  function GetAdmin(outcome: Result<JsValue, Exception>, msgs: Messages): (r: JsValue)
    ensures IsSuccessShape(r) <==> outcome.Success?
    ensures IsErrorShape(r) <==> outcome.Failure?
    ensures outcome.Success? ==> Prop(r, "statusCode") == Num(HttpStatus.CREATED) && Prop(r, "message") == Str(msgs.ok)
                                 && Prop(r, "data") == outcome.value
    ensures outcome.Failure? ==> Prop(r, "statusCode") == Num(HttpStatus.BAD_REQUEST) && Prop(r, "message") == Str(msgs.badRequest)
                                 && Prop(r, "error") == Str(outcome.error.message)
  {
    match outcome
    case Success(admin) => SuccessResponse(msgs.ok, admin, Some(HttpStatus.CREATED))
    case Failure(e) => ErrorResponse(msgs.badRequest, Str(e.message), Some(HttpStatus.BAD_REQUEST))
  }

  /** `error.getStatus ? error.getStatus() : HttpStatus.BAD_REQUEST` */
  function StatusOf(e: Exception): int {
    if e.HttpException? then e.status else HttpStatus.BAD_REQUEST
  }

  /** `login(dto)`: the exception's own message and status travel into the envelope. */
  function Login(outcome: Result<JsValue, Exception>, msgs: Messages): (r: JsValue)
    ensures IsSuccessShape(r) <==> outcome.Success?
    ensures IsErrorShape(r) <==> outcome.Failure?
    ensures outcome.Success? ==> Prop(r, "statusCode") == Num(HttpStatus.OK) && Prop(r, "message") == Str(msgs.loginSuccess)
                                 && Prop(r, "data") == outcome.value
    ensures outcome.Failure? ==> Prop(r, "error") == Null
    ensures outcome.Failure? && outcome.error.message != "" ==> Prop(r, "message") == Str(outcome.error.message)
    ensures outcome.Failure? && outcome.error.message == "" ==> Prop(r, "message") == Str(msgs.badRequest)
    ensures outcome.Failure? && outcome.error.HttpException? ==> Prop(r, "statusCode") == Num(outcome.error.status)
    ensures outcome.Failure? && outcome.error.JsError? ==> Prop(r, "statusCode") == Num(HttpStatus.BAD_REQUEST)
  {
    match outcome
    case Success(admin) => SuccessResponse(msgs.loginSuccess, admin, Some(HttpStatus.OK))
    case Failure(e) => ErrorResponse(if e.message != "" then e.message else msgs.badRequest, Null, Some(StatusOf(e)))
  }

  /** The login route end to end: service, controller, interceptor.  An unknown
      email and a wrong password leave as thrown objects carrying 404 and 401;
      a good one leaves as a 200 envelope holding only name and email. */
  lemma LoginEndToEnd(docs: map<string, AdminRecord>, dto: LoginDto, crypto: Crypto, msgs: Messages)
    requires KeyedByEmail(docs)
    ensures var out := Intercept(Login(LoginSpec(docs, dto, crypto), msgs));
      && (dto.email !in docs ==>
            out == Thrown(ErrorResponse("Error: " + ADMIN_NOT_FOUND, Str(""), Some(HttpStatus.NOT_FOUND))))
      && (dto.email in docs && crypto.compare(dto.password, docs[dto.email].password) == Success(false) ==>
            out == Thrown(ErrorResponse("Error: " + INVALID_PASSWORD, Str(""), Some(HttpStatus.UNAUTHORIZED))))
      && (out.Emitted? <==> LoginSpec(docs, dto, crypto).Success?)
      && (out.Emitted? ==>
            out.envelope == SuccessResponse(if msgs.loginSuccess == "" then "Success" else msgs.loginSuccess,
                                            LoginView(docs[dto.email]), Some(HttpStatus.OK)))
  {
  }

  /** A failed `createAdmin` is thrown by the interceptor with status code 200. */
  lemma CreateAdminFailureEndToEnd(e: Exception, msgs: Messages)
    ensures var out := Intercept(CreateAdmin(Failure(e), msgs));
      && out.Thrown?
      && Prop(out.payload, "statusCode") == Num(HttpStatus.OK)
      && Prop(out.payload, "message") == Str(if msgs.badRequest == "" then "An error occurred" else "Error: " + msgs.badRequest)
      && Prop(out.payload, "error") == Str(e.message)
  {
  }

  /** `getAdmin` end to end: the seed admin's object with status code 201, or
      a thrown 400 carrying the wrapped null-dereference message. */
  lemma GetAdminEndToEnd(docs: map<string, AdminRecord>, msgs: Messages)
    ensures var out := Intercept(GetAdmin(Detail(docs), msgs));
      && (SEED_EMAIL in docs ==>
            && out.Emitted?
            && Prop(out.envelope, "statusCode") == Num(HttpStatus.CREATED)
            && Prop(out.envelope, "data") == ToObject(docs[SEED_EMAIL]))
      && (SEED_EMAIL !in docs ==>
            && out.Thrown?
            && Prop(out.payload, "statusCode") == Num(HttpStatus.BAD_REQUEST)
            && Prop(out.payload, "error") == Str(PROVISION_ERROR_PREFIX + NULL_TO_OBJECT))
  {
  }
}
