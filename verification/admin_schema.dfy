/**
 * The `Admin` document: its fields and defaults, the `pre('validate')` hook
 * that derives the authorisation token and hashes the password, required-field
 * validation, the two constant virtuals and the `toObject`/`toJSON` transform.
 */
module AdminSchema {
  import opened Wrappers
  import opened JsValues

  /** The plain object handed to `Model.create`: any field may be absent. */
  datatype AdminFields = AdminFields(
    name: Option<string>,
    email: Option<string>,
    password: Option<string>,
    isPrimary: Option<bool>,
    authorisation: Option<string>,
    status: Option<int>)

  /** A document's fields before validation; `id` is the ObjectId `_id`. */
  datatype DocState = DocState(
    id: string,
    name: Option<string>,
    email: Option<string>,
    password: Option<string>,
    isPrimary: bool,
    authorisation: Option<string>,
    status: int)

  /** A validated, persisted document: every required field is a non-empty string. */
  datatype AdminRecord = AdminRecord(
    id: string,
    name: string,
    email: string,
    password: string,
    isPrimary: bool,
    authorisation: string,
    status: int)

  /** The foreign primitives, each of which may throw: `bcrypt.hash(p, 10)`,
      `bcrypt.compare(p, h)` and `jwtEncode(doc, secret, 'HS256')`. */
  datatype Crypto = Crypto(
    hash: string -> Result<string, Exception>,
    compare: (string, string) -> Result<bool, Exception>,
    encode: (DocState, string) -> Result<string, Exception>)

  const DEFAULT_IS_PRIMARY: bool := true
  const DEFAULT_STATUS: int := 0

  /** `new Model(fields)`: the schema defaults fill `is_primary` and `status`. */
  function NewDocument(fields: AdminFields, id: string): (d: DocState)
    ensures d.id == id
    ensures d.name == fields.name && d.email == fields.email && d.password == fields.password
    ensures d.authorisation == fields.authorisation
    ensures fields.isPrimary.None? ==> d.isPrimary
    ensures fields.isPrimary.Some? ==> d.isPrimary == fields.isPrimary.value
    ensures fields.status.None? ==> d.status == 0
    ensures fields.status.Some? ==> d.status == fields.status.value
  {
    DocState(id, fields.name, fields.email, fields.password,
      fields.isPrimary.GetOr(DEFAULT_IS_PRIMARY), fields.authorisation, fields.status.GetOr(DEFAULT_STATUS))
  }

  /** The paths a new document reports as modified: those given a value. */
  function ModifiedPaths(fields: AdminFields): (paths: set<string>)
    ensures "password" in paths <==> fields.password.Some?
  {
    (if fields.name.Some? then {"name"} else {})
    + (if fields.email.Some? then {"email"} else {})
    + (if fields.password.Some? then {"password"} else {})
    + (if fields.isPrimary.Some? then {"is_primary"} else {})
    + (if fields.authorisation.Some? then {"authorisation"} else {})
    + (if fields.status.Some? then {"status"} else {})
  }

  /** bcrypt rejects a missing plaintext with this message. */
  const HASH_MISSING_DATA: string := "data and salt arguments required"

  function HashPassword(password: Option<string>, crypto: Crypto): Result<string, Exception> {
    match password
    case Some(p) => crypto.hash(p)
    case None => Failure(JsError(HASH_MISSING_DATA))
  }

  /** What the hook leaves behind: the document and the error passed to `next`, if any. */
  datatype HookResult = HookResult(doc: DocState, error: Option<Exception>)

  /** The `pre('validate')` hook on state `d`.  The token is always recomputed
      first, from `d` itself (plaintext password and any caller-supplied token
      included); only then is a modified password hashed.  A throw from either
      step is handed to `next`, leaving whatever was assigned before it. */
  function HookOutcome(d: DocState, passwordModified: bool, crypto: Crypto, secret: string): (r: HookResult)
    // the write goes ahead exactly when encoding and any needed hashing succeed
    ensures r.error.None? <==> crypto.encode(d, secret).Success? && (passwordModified ==> HashPassword(d.password, crypto).Success?)
    // the hook never touches the other fields
    ensures r.doc.id == d.id && r.doc.name == d.name && r.doc.email == d.email
    ensures r.doc.isPrimary == d.isPrimary && r.doc.status == d.status
    // a failing encode aborts before anything is assigned
    ensures crypto.encode(d, secret).Failure? ==> r == HookResult(d, Some(crypto.encode(d, secret).error))
    // otherwise the token of the pre-hook state replaces the old one unconditionally
    ensures crypto.encode(d, secret).Success? ==> r.doc.authorisation == Some(crypto.encode(d, secret).value)
    // an unmodified password is kept as it is
    ensures !passwordModified ==> r.doc.password == d.password && r.error.None? == crypto.encode(d, secret).Success?
    // a modified password is replaced by its hash, or the hash's error aborts the write
    ensures passwordModified && r.error.None? ==>
      HashPassword(d.password, crypto).Success? && r.doc.password == Some(HashPassword(d.password, crypto).value)
    ensures passwordModified && crypto.encode(d, secret).Success? && HashPassword(d.password, crypto).Failure? ==>
      r.error == Some(HashPassword(d.password, crypto).error) && r.doc.password == d.password
  {
    match crypto.encode(d, secret)
    case Failure(e) => HookResult(d, Some(e))
    case Success(token) =>
      var d1 := d.(authorisation := Some(token));
      if !passwordModified then HookResult(d1, None)
      else match HashPassword(d1.password, crypto)
        case Failure(e) => HookResult(d1, Some(e))
        case Success(h) => HookResult(d1.(password := Some(h)), None)
  }

  /** A Mongoose document under construction; the hook updates it in place. */
  class AdminDocument {
    var id: string
    var name: Option<string>
    var email: Option<string>
    var password: Option<string>
    var isPrimary: bool
    var authorisation: Option<string>
    var status: int
    var modified: set<string>

    function State(): DocState
      reads this
    {
      DocState(id, name, email, password, isPrimary, authorisation, status)
    }

    /** `new Model(fields)` with ObjectId `id`. */
    constructor (fields: AdminFields, id: string)
      ensures State() == NewDocument(fields, id)
      ensures modified == ModifiedPaths(fields)
    {
      this.id := id;
      name := fields.name;
      email := fields.email;
      password := fields.password;
      isPrimary := fields.isPrimary.GetOr(DEFAULT_IS_PRIMARY);
      authorisation := fields.authorisation;
      status := fields.status.GetOr(DEFAULT_STATUS);
      modified := ModifiedPaths(fields);
    }

    /** `isModified(path)` */
    predicate IsModified(path: string)
      reads this
    {
      path in modified
    }

    /** Runs the `pre('validate')` hook; returns the error given to `next`, if any. */
    method PreValidate(crypto: Crypto, secret: string) returns (error: Option<Exception>)
      modifies this
      ensures HookResult(State(), error) == HookOutcome(old(State()), old(IsModified("password")), crypto, secret)
      ensures modified == old(modified)
    {
      var token := crypto.encode(State(), secret);
      if token.Failure? {
        return Some(token.error);
      }
      authorisation := Some(token.value);
      if IsModified("password") {
        var hashed := HashPassword(password, crypto);
        if hashed.Failure? {
          return Some(hashed.error);
        }
        password := Some(hashed.value);
      }
      error := None;
    }
  }

  predicate Present(v: Option<string>) {
    v.Some? && v.value != ""
  }

  /** The message of the validation error for the required paths in `missing`. */
  function RequiredMessage(missing: seq<string>): string {
    if missing == [] then ""
    else
      var item := missing[0] + ": Path `" + missing[0] + "` is required.";
      if |missing| == 1 then item else item + ", " + RequiredMessage(missing[1..])
  }

  /** The required paths of `d` that are missing or empty, in schema order. */
  function MissingPaths(d: DocState): (paths: seq<string>)
    ensures paths == [] <==> Present(d.name) && Present(d.email) && Present(d.password) && Present(d.authorisation)
  {
    (if Present(d.name) then [] else ["name"])
    + (if Present(d.email) then [] else ["email"])
    + (if Present(d.password) then [] else ["password"])
    + (if Present(d.authorisation) then [] else ["authorisation"])
  }

  const VALIDATION_FAILED: string := "Admin validation failed: "

  /** Required-field validation, run after the hook. */
  function Validate(d: DocState): (r: Result<AdminRecord, Exception>)
    ensures r.Success? <==> Present(d.name) && Present(d.email) && Present(d.password) && Present(d.authorisation)
    ensures r.Success? ==> r.value == AdminRecord(d.id, d.name.value, d.email.value, d.password.value,
                                                  d.isPrimary, d.authorisation.value, d.status)
    ensures r.Failure? ==> r.error.JsError? && |r.error.message| >= |VALIDATION_FAILED|
                           && r.error.message[..|VALIDATION_FAILED|] == VALIDATION_FAILED
  {
    var missing := MissingPaths(d);
    if missing == [] then
      Success(AdminRecord(d.id, d.name.value, d.email.value, d.password.value, d.isPrimary, d.authorisation.value, d.status))
    else
      Failure(JsError(VALIDATION_FAILED + RequiredMessage(missing)))
  }

  /** The `user_type` virtual. */
  function UserType(r: AdminRecord): string {
    "admin"
  }

  /** The `base_url` virtual. */
  function BaseUrl(r: AdminRecord): string {
    "admin"
  }

  /** The object `toObject`/`toJSON` build before the transform runs: the stored
      fields and, since `virtuals: true`, the virtuals including `id`; the
      version key is left out (`versionKey: false`). */
  function RawObject(r: AdminRecord): map<string, JsValue> {
    map[
      "_id" := Str(r.id),
      "id" := Str(r.id),
      "name" := Str(r.name),
      "email" := Str(r.email),
      "password" := Str(r.password),
      "is_primary" := Bool(r.isPrimary),
      "authorisation" := Str(r.authorisation),
      "status" := Num(r.status),
      "user_type" := Str(UserType(r)),
      "base_url" := Str(BaseUrl(r))]
  }

  /** The `transform` shared by `toObject` and `toJSON`: `delete ret.id`. */
  function Transform(ret: map<string, JsValue>): (out: map<string, JsValue>)
    ensures "id" !in out
    ensures out.Keys == ret.Keys - {"id"}
    ensures forall k :: k in out ==> out[k] == ret[k]
  {
    ret - {"id"}
  }

  /** `doc.toObject()` (and, identically configured, `doc.toJSON()`). */
  function ToObject(r: AdminRecord): (v: JsValue)
    ensures v.Obj?
    ensures v.fields.Keys == {"_id", "name", "email", "password", "is_primary", "authorisation",
                              "status", "user_type", "base_url"}
    ensures v.fields["_id"] == Str(r.id)
    ensures v.fields["name"] == Str(r.name) && v.fields["email"] == Str(r.email)
    ensures v.fields["password"] == Str(r.password) && v.fields["authorisation"] == Str(r.authorisation)
    ensures v.fields["is_primary"] == Bool(r.isPrimary) && v.fields["status"] == Num(r.status)
    ensures v.fields["user_type"] == Str("admin") && v.fields["base_url"] == Str("admin")
  {
    Obj(Transform(RawObject(r)))
  }
}
