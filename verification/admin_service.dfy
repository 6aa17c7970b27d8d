/**
 * `AdminService`: find-or-create of the seed admin, detail lookup and login,
 * over an in-memory stand-in for the Mongoose model keyed by the unique email.
 */
module AdminService {
  import opened Wrappers
  import opened JsValues
  import opened AdminSchema
  import HttpStatus

  const SEED_NAME: string := "Admin"
  const SEED_EMAIL: string := "admin@sparkouttech.com"
  const SEED_PASSWORD: string := "SparkBlock@123"
  const SEED_AUTHORISATION: string := "admin-authorization-key"
  const PROVISION_ERROR_PREFIX: string := "Error checking or creating admin: "
  /** V8's message for `existingAdmin.toObject()` when `existingAdmin` is null. */
  const NULL_TO_OBJECT: string := "Cannot read properties of null (reading 'toObject')"
  const ADMIN_NOT_FOUND: string := "Admin not found"
  const INVALID_PASSWORD: string := "Invalid password"
  const LOGIN_FALLBACK_MESSAGE: string := "Error during login"

  /** The object literal `createDefaultAdmin` passes to `create`. */
  function SeedFields(): AdminFields {
    AdminFields(Some(SEED_NAME), Some(SEED_EMAIL), Some(SEED_PASSWORD), Some(true), Some(SEED_AUTHORISATION), None)
  }

  /** The unique index on `email`: every record is stored under its own email,
      so no two records share one. */
  ghost predicate KeyedByEmail(docs: map<string, AdminRecord>) {
    forall e :: e in docs ==> docs[e].email == e
  }

  /** The server's duplicate-key error for an insert of `email`. */
  function DuplicateKeyError(email: string): Exception {
    JsError("E11000 duplicate key error collection: admins index: email_1 dup key: { email: \"" + email + "\" }")
  }

  /** The hook lets the write go ahead: the token is produced, and so is the
      hash of a password given at creation. */
  predicate HookPasses(fields: AdminFields, id: string, crypto: Crypto, secret: string) {
    && crypto.encode(NewDocument(fields, id), secret).Success?
    && (fields.password.Some? ==> crypto.hash(fields.password.value).Success?)
  }

  /** After a passing hook, every required field is a non-empty string. */
  predicate Storable(fields: AdminFields, id: string, crypto: Crypto, secret: string) {
    && HookPasses(fields, id, crypto, secret)
    && crypto.encode(NewDocument(fields, id), secret).value != ""
    && Present(fields.name) && Present(fields.email)
    && fields.password.Some? && crypto.hash(fields.password.value).value != ""
  }

  /** The document `create` builds from `fields`, after the `pre('validate')` hook. */
  function HookedDocument(fields: AdminFields, id: string, crypto: Crypto, secret: string): (h: HookResult)
    ensures h.error.None? <==> HookPasses(fields, id, crypto, secret)
    ensures crypto.encode(NewDocument(fields, id), secret).Failure? ==>
      h.error == Some(crypto.encode(NewDocument(fields, id), secret).error)
    ensures crypto.encode(NewDocument(fields, id), secret).Success? && fields.password.Some?
            && crypto.hash(fields.password.value).Failure? ==>
      h.error == Some(crypto.hash(fields.password.value).error)
    ensures h.error.None? ==>
      h.doc == NewDocument(fields, id).(
        authorisation := Some(crypto.encode(NewDocument(fields, id), secret).value),
        password := if fields.password.Some? then Some(crypto.hash(fields.password.value).value) else None)
  {
    HookOutcome(NewDocument(fields, id), "password" in ModifiedPaths(fields), crypto, secret)
  }

  /** `Model.create(fields)`: build the document, run the hook, validate, then
      insert unless the unique index already holds the email. */
  function InsertOutcome(docs: map<string, AdminRecord>, fields: AdminFields, id: string,
                         crypto: Crypto, secret: string): (r: Result<AdminRecord, Exception>)
    // the insert succeeds exactly when the hook passes, the required fields are
    // non-empty and the email is not stored yet
    ensures r.Success? <==> Storable(fields, id, crypto, secret) && fields.email.value !in docs
    // which error a failure carries: the hook's, the unique index's, or validation's
    ensures crypto.encode(NewDocument(fields, id), secret).Failure? ==>
      r == Failure(crypto.encode(NewDocument(fields, id), secret).error)
    ensures crypto.encode(NewDocument(fields, id), secret).Success? && fields.password.Some?
            && crypto.hash(fields.password.value).Failure? ==>
      r == Failure(crypto.hash(fields.password.value).error)
    ensures Storable(fields, id, crypto, secret) && fields.email.value in docs ==>
      r == Failure(DuplicateKeyError(fields.email.value))
    ensures HookPasses(fields, id, crypto, secret) && !Storable(fields, id, crypto, secret) ==>
      && r.Failure? && r.error.JsError?
      && |r.error.message| >= |VALIDATION_FAILED| && r.error.message[..|VALIDATION_FAILED|] == VALIDATION_FAILED
    ensures r.Success? ==> r.value.email !in docs
    ensures r.Success? ==> fields.email == Some(r.value.email) && r.value.id == id
    ensures r.Success? ==> fields.name == Some(r.value.name)
    ensures r.Success? ==> r.value.isPrimary == fields.isPrimary.GetOr(true) && r.value.status == fields.status.GetOr(0)
    // the stored token encodes the document as built, before any hashing
    ensures r.Success? ==> crypto.encode(NewDocument(fields, id), secret) == Success(r.value.authorisation)
    // a password given at creation is stored only as its hash
    ensures r.Success? ==> fields.password.Some? && crypto.hash(fields.password.value) == Success(r.value.password)
  {
    var hooked := HookedDocument(fields, id, crypto, secret);
    if hooked.error.Some? then Failure(hooked.error.value)
    else match Validate(hooked.doc)
      case Failure(e) => Failure(e)
      case Success(rec) => if rec.email in docs then Failure(DuplicateKeyError(rec.email)) else Success(rec)
  }

  /** The Mongoose model: the stored admin documents, keyed by email. */
  class AdminModel {
    var docs: map<string, AdminRecord>

    ghost predicate Valid()
      reads this
    {
      KeyedByEmail(docs)
    }

    constructor ()
      ensures Valid() && docs == map[]
    {
      docs := map[];
    }

    /** `findOne({email})` */
    method FindOne(email: string) returns (found: Option<AdminRecord>)
      requires Valid()
      ensures found.Some? <==> email in docs
      ensures found.Some? ==> found.value == docs[email] && found.value.email == email
    {
      found := if email in docs then Some(docs[email]) else None;
    }

    /** `create(fields)` */
    method Create(fields: AdminFields, id: string, crypto: Crypto, secret: string)
      returns (r: Result<AdminRecord, Exception>)
      requires Valid()
      modifies this
      ensures Valid()
      ensures r == InsertOutcome(old(docs), fields, id, crypto, secret)
      ensures docs == if r.Success? then old(docs)[r.value.email := r.value] else old(docs)
    {
      var doc := new AdminDocument(fields, id);
      var hookError := doc.PreValidate(crypto, secret);
      ghost var hooked := HookedDocument(fields, id, crypto, secret);
      assert HookResult(doc.State(), hookError) == hooked;
      if hookError.Some? {
        return Failure(hookError.value);
      }
      var checked := Validate(doc.State());
      if checked.Failure? {
        return checked;
      }
      var rec := checked.value;
      if rec.email in docs {
        return Failure(DuplicateKeyError(rec.email));
      }
      docs := docs[rec.email := rec];
      r := checked;
    }
  }

  /** The result of `createDefaultAdmin` together with the store after it. */
  datatype Provisioned = Provisioned(result: Result<JsValue, Exception>, docs: map<string, AdminRecord>)

  /** `createDefaultAdmin` on store `docs`. */
  function Provision(docs: map<string, AdminRecord>, id: string, crypto: Crypto, secret: string): (p: Provisioned)
    requires KeyedByEmail(docs)
    ensures KeyedByEmail(p.docs)
    // an existing seed admin is returned and nothing changes
    ensures SEED_EMAIL in docs ==> p == Provisioned(Success(ToObject(docs[SEED_EMAIL])), docs)
    // afterwards the seed admin is stored exactly when the call succeeded
    ensures SEED_EMAIL in p.docs <==> p.result.Success?
    ensures p.result.Success? ==> p.result.value == ToObject(p.docs[SEED_EMAIL])
    // an insert adds exactly the seed record and nothing else
    ensures SEED_EMAIL !in docs && p.result.Success? ==>
      var rec := p.docs[SEED_EMAIL];
      && p.docs == docs[SEED_EMAIL := rec]
      && rec.name == SEED_NAME && rec.isPrimary && rec.status == 0 && rec.id == id
      && crypto.hash(SEED_PASSWORD) == Success(rec.password)
      && crypto.encode(NewDocument(SeedFields(), id), secret) == Success(rec.authorisation)
    // a missing seed admin is inserted exactly when its token and password hash
    // are produced and non-empty
    ensures var token := crypto.encode(NewDocument(SeedFields(), id), secret);
      p.result.Success? <==>
        || SEED_EMAIL in docs
        || (&& token.Success? && token.value != ""
            && crypto.hash(SEED_PASSWORD).Success? && crypto.hash(SEED_PASSWORD).value != "")
    // every failure leaves the store alone and is re-thrown as an Error whose
    // message is the prefix followed by the original error's message
    ensures p.result.Failure? ==>
      && p.docs == docs
      && p.result.error == JsError(PROVISION_ERROR_PREFIX + InsertOutcome(docs, SeedFields(), id, crypto, secret).error.message)
  {
    if SEED_EMAIL in docs then Provisioned(Success(ToObject(docs[SEED_EMAIL])), docs)
    else match InsertOutcome(docs, SeedFields(), id, crypto, secret)
      case Success(rec) => Provisioned(Success(ToObject(rec)), docs[rec.email := rec])
      case Failure(e) => Provisioned(Failure(JsError(PROVISION_ERROR_PREFIX + e.message)), docs)
  }

  /** Provisioning twice in a row: the second call returns what the first
      returned and changes nothing, whatever id, primitives and secret it gets. */
  lemma ProvisionIdempotent(docs: map<string, AdminRecord>, id1: string, id2: string,
                            crypto1: Crypto, crypto2: Crypto, secret1: string, secret2: string)
    requires KeyedByEmail(docs)
    requires Provision(docs, id1, crypto1, secret1).result.Success?
    ensures var p1 := Provision(docs, id1, crypto1, secret1);
      Provision(p1.docs, id2, crypto2, secret2) == p1
  {
  }

  /** `getAdminDetail` on store `docs`. */
  function Detail(docs: map<string, AdminRecord>): (r: Result<JsValue, Exception>)
    ensures r.Success? <==> SEED_EMAIL in docs
    ensures r.Success? ==> r.value == ToObject(docs[SEED_EMAIL])
    ensures r.Failure? ==> r.error == JsError(PROVISION_ERROR_PREFIX + NULL_TO_OBJECT)
  {
    if SEED_EMAIL in docs then Success(ToObject(docs[SEED_EMAIL]))
    else Failure(JsError(PROVISION_ERROR_PREFIX + NULL_TO_OBJECT))
  }

  datatype LoginDto = LoginDto(email: string, password: string)

  /** The only view of a record that login hands out. */
  function LoginView(rec: AdminRecord): JsValue {
    Obj(map["name" := Str(rec.name), "email" := Str(rec.email)])
  }

  /** The `catch` of `login`: re-thrown as an `HttpException` with the
      error's own message and status, or the fallbacks for falsy ones. */
  function Rethrow(e: Exception): (r: Exception)
    ensures r.HttpException? && r.message != "" && r.status != 0
    ensures e.message != "" ==> r.message == e.message
    ensures e.message == "" ==> r.message == LOGIN_FALLBACK_MESSAGE
    ensures e.HttpException? && e.status != 0 ==> r.status == e.status
    ensures !(e.HttpException? && e.status != 0) ==> r.status == HttpStatus.INTERNAL_SERVER_ERROR
  {
    HttpException(
      if e.message != "" then e.message else LOGIN_FALLBACK_MESSAGE,
      if e.HttpException? && e.status != 0 then e.status else HttpStatus.INTERNAL_SERVER_ERROR)
  }

  /** `login(dto)` on store `docs`. */
  function LoginSpec(docs: map<string, AdminRecord>, dto: LoginDto, crypto: Crypto): (r: Result<JsValue, Exception>)
    requires KeyedByEmail(docs)
    ensures dto.email !in docs ==> r == Failure(HttpException(ADMIN_NOT_FOUND, HttpStatus.NOT_FOUND))
    ensures dto.email in docs && crypto.compare(dto.password, docs[dto.email].password) == Success(false) ==>
      r == Failure(HttpException(INVALID_PASSWORD, HttpStatus.UNAUTHORIZED))
    // a throwing compare is re-thrown with its own message and status 500
    ensures dto.email in docs && crypto.compare(dto.password, docs[dto.email].password).Failure? ==>
      r == Failure(Rethrow(crypto.compare(dto.password, docs[dto.email].password).error))
    ensures r.Success? <==> dto.email in docs && crypto.compare(dto.password, docs[dto.email].password) == Success(true)
    // a successful login yields exactly {name, email}: never the hash or the token
    ensures r.Success? ==> r.value == Obj(map["name" := Str(docs[dto.email].name), "email" := Str(dto.email)])
    ensures r.Success? ==> r.value.fields.Keys == {"name", "email"}
    ensures r.Failure? ==> r.error.HttpException? && r.error.status != 0
  {
    var attempt: Result<JsValue, Exception> :=
      if dto.email !in docs then Failure(HttpException(ADMIN_NOT_FOUND, HttpStatus.NOT_FOUND))
      else
        var admin := docs[dto.email];
        match crypto.compare(dto.password, admin.password)
        case Failure(e) => Failure(e)
        case Success(matches) =>
          if !matches then Failure(HttpException(INVALID_PASSWORD, HttpStatus.UNAUTHORIZED))
          else Success(LoginView(admin));
    match attempt
    case Success(v) => Success(v)
    case Failure(e) => Failure(Rethrow(e))
  }

  /** Login after provisioning: the seed credentials are accepted whenever
      `compare` recognises the hash it is given. */
  lemma LoginAfterProvision(docs: map<string, AdminRecord>, id: string, crypto: Crypto, secret: string)
    requires KeyedByEmail(docs) && SEED_EMAIL !in docs
    requires Provision(docs, id, crypto, secret).result.Success?
    requires forall p, h :: crypto.hash(p) == Success(h) ==> crypto.compare(p, h) == Success(true)
    ensures LoginSpec(Provision(docs, id, crypto, secret).docs, LoginDto(SEED_EMAIL, SEED_PASSWORD), crypto)
            == Success(Obj(map["name" := Str(SEED_NAME), "email" := Str(SEED_EMAIL)]))
  {
  }

  class AdminService {
    const model: AdminModel

    constructor (model: AdminModel)
      ensures this.model == model
    {
      this.model := model;
    }

    /** `createDefaultAdmin()`; `id` is the ObjectId the driver would assign. */
    method CreateDefaultAdmin(id: string, crypto: Crypto, secret: string) returns (r: Result<JsValue, Exception>)
      requires model.Valid()
      modifies model
      ensures model.Valid()
      ensures Provisioned(r, model.docs) == Provision(old(model.docs), id, crypto, secret)
    {
      var existing := model.FindOne(SEED_EMAIL);
      if existing.Some? {
        return Success(ToObject(existing.value));
      }
      var saved := model.Create(SeedFields(), id, crypto, secret);
      if saved.Failure? {
        return Failure(JsError(PROVISION_ERROR_PREFIX + saved.error.message));
      }
      r := Success(ToObject(saved.value));
    }

    /** `getAdminDetail()` */
    method GetAdminDetail() returns (r: Result<JsValue, Exception>)
      requires model.Valid()
      ensures r == Detail(model.docs)
    {
      var existing := model.FindOne(SEED_EMAIL);
      if existing.None? {
        return Failure(JsError(PROVISION_ERROR_PREFIX + NULL_TO_OBJECT));
      }
      r := Success(ToObject(existing.value));
    }

    /** `login(dto)` */
    method Login(dto: LoginDto, crypto: Crypto) returns (r: Result<JsValue, Exception>)
      requires model.Valid()
      ensures r == LoginSpec(model.docs, dto, crypto)
    {
      var admin := model.FindOne(dto.email);
      var attempt: Result<JsValue, Exception>;
      if admin.None? {
        attempt := Failure(HttpException(ADMIN_NOT_FOUND, HttpStatus.NOT_FOUND));
      } else {
        var matches := crypto.compare(dto.password, admin.value.password);
        if matches.Failure? {
          attempt := Failure(matches.error);
        } else if !matches.value {
          attempt := Failure(HttpException(INVALID_PASSWORD, HttpStatus.UNAUTHORIZED));
        } else {
          attempt := Success(LoginView(admin.value));
        }
      }
      if attempt.Failure? {
        return Failure(Rethrow(attempt.error));
      }
      r := attempt;
    }
  }

  /** Two provisioning calls in sequence against one model. */
  method ProvisionTwice(service: AdminService, id1: string, id2: string, crypto: Crypto, secret: string)
    returns (first: Result<JsValue, Exception>, second: Result<JsValue, Exception>)
    requires service.model.Valid()
    modifies service.model
    ensures first.Success? ==> second == first && SEED_EMAIL in service.model.docs
    ensures first.Success? ==> service.model.docs == Provision(old(service.model.docs), id1, crypto, secret).docs
  {
    first := service.CreateDefaultAdmin(id1, crypto, secret);
    second := service.CreateDefaultAdmin(id2, crypto, secret);
  }
}
