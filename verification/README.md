# Admin credential flow and response envelopes — a Dafny model

This project models the core of a NestJS admin service: provisioning the single
seed administrator (`createDefaultAdmin`), reading it back (`getAdminDetail`),
checking login credentials (`login`), the Mongoose `Admin` schema behind them
(defaults, the `pre('validate')` hook, the `toObject`/`toJSON` transform, the
constant virtuals), the controller that turns every service outcome into an
envelope, the `successResponse`/`errorResponse` helpers, and the
`ResponseInterceptor` that normalises every handler result.

Layout: three support modules (`Wrappers`, `JsValues`, `HttpStatus`) that stand for the language and framework, then one module per source file:

- `wrappers.dfy` — `Option`, `Result`.
- `js_values.dfy` — `JsValues`: JavaScript values (`undefined`, `null`,
  booleans, integral numbers, strings, plain objects) with truthiness, `||`,
  property reads, object spread (a string spreads to index keys "0", "1", …)
  and template-literal string conversion; exceptions (`Error` and Nest's
  `HttpException`).
- `response_helper.dfy` — `HttpStatus` codes; `ResponseHelper`: the two
  envelope shapes and their constructors.
- `interceptor.dfy` — `Interceptor`: `mapData`, `transformData` and the value
  function inside `intercept`, with round trips against the helpers.
- `admin_schema.dfy` — `AdminSchema`: fields and defaults, a document class
  whose `PreValidate` method updates it in place, required-field validation,
  virtuals and `toObject`.
- `admin_service.dfy` — `AdminService`: the model class (a map from email to
  record, keyed by the unique email), the service class, and pure
  specifications `Provision`, `Detail`, `LoginSpec` that the service methods
  are proved against.
- `admin_controller.dfy` — `AdminController`: the three handlers and
  end-to-end lemmas (service → controller → interceptor).

The foreign primitives `bcrypt.hash`, `bcrypt.compare` and `jwtEncode` are
function-valued fields of a `Crypto` parameter, each of which may throw
(returns `Failure`); the signing secret and the ObjectId the driver assigns
are parameters. The `AdminMessages` strings are a `Messages` parameter.

Behaviour of the code worth knowing, all proved:

- The interceptor throws (rather than returns) for any value with
  `status === false`; its `'Something went wrong'` fallback can never be
  taken, and neither can the second `|| {}` for `data`.
- `createDefaultAdmin` does not recover from a failed insert (duplicate key
  included): every failure becomes an `Error` whose message starts with
  `"Error checking or creating admin: "`.
- The hook encodes the token from the document as it stands, plaintext
  password and placeholder token included, and only then hashes the password.
- `createAdmin` answers a failure with an error envelope carrying status code
  200, `getAdmin` answers success with 201, and `getAdminDetail` on an empty
  store fails with a wrapped null-dereference `TypeError` whose message also
  says "checking or creating".
- `createAdmin`/`getAdmin` hand out the whole stored object, password hash and
  token included; only `login` narrows the result to `{name, email}`.

## Model

| member | source | states |
|---|---|---|
| JsValues.DecimalDigits | src/util/interceptor.ts:43 | the numeral used when a number is turned into text is a non-empty string of digits, without leading zeros, that denotes exactly that number |
| JsValues.DecimalDigitsInjectiveAll | src/util/interceptor.ts:53-57 | distinct indices give distinct keys, so spreading a string yields one property per character |
| JsValues.ToJsString | src/util/interceptor.ts:43 | `${m}` of a truthy message is non-empty text |
| JsValues.IntToString | src/util/interceptor.ts:43 | a number converts to the numeral of its magnitude, preceded by '-' when negative, with no leading zeros ("7", never "07") |
| JsValues.OwnProps | src/util/interceptor.ts:39-56 | what a spread `{...v}` copies: an object's own fields, a string's characters each under its index numeral (and only those keys), nothing for null, undefined, numbers and booleans |
| JsValues.StrPropIsUndefined | src/util/interceptor.ts:40 | a string has no `status`, `statusCode`, `message` or `data` property: reading one gives undefined |
| ResponseHelper.SuccessResponse | src/util/response.helper.ts:10-19 | exactly the keys status/statusCode/message/data, status true, message and data passed through, statusCode the given one or 200 when omitted |
| ResponseHelper.ErrorResponse | src/util/response.helper.ts:28-37 | exactly the keys status/statusCode/message/error, status false, message and error passed through, statusCode the given one or 400 when omitted |
| ResponseHelper.ShapesDisjoint | src/util/response.helper.ts:15-33 | the boolean status alone tells a success envelope from an error envelope |
| Interceptor.ErrorMessage | src/util/interceptor.ts:43 | the rewritten error message is "Error: " followed by `${m}` for a truthy message, and exactly "An error occurred" otherwise |
| Interceptor.TransformData | src/util/interceptor.ts:53-57 | `transformData` returns a fresh object: an object's copy equals it, a string gives its characters under the index keys "0", "1", ... and no other key, a number or boolean gives `{}` |
| Interceptor.MapData | src/util/interceptor.ts:37-51 | a falsy value is returned unchanged; a `status === false` result keeps every own property and only `message` is rewritten to `ErrorMessage`; any other truthy result keeps every own property and only `data` is replaced by its copy |
| Interceptor.DataCopy | src/util/interceptor.ts:49-56 | the envelope's data is always an object: the same fields for object data, a string's characters under their index keys, `{}` for a number, a boolean or falsy data |
| Interceptor.Intercept | src/util/interceptor.ts:13-57 | null/undefined fail at `.status`; a strict `status === false` (and only that) throws an error-shaped object with statusCode falling back to 400, message "Error: m" or "An error occurred" (never "Something went wrong"), error falling back to ''; everything else emits exactly the four success keys with statusCode falling back to 200 (0 included), message to 'Success' ("" included) and data a shallow copy or `{}` |
| Interceptor.PrimitiveResult | src/util/interceptor.ts:38-50 | a boolean, number or string handler result (falsy or not) becomes `{status: true, statusCode: 200, message: 'Success', data: {}}` |
| Interceptor.InterceptIdempotent | src/util/interceptor.ts:27-32 | a success envelope passes through the interceptor unchanged |
| Interceptor.BarePayload | src/util/interceptor.ts:27-32 | `{data: x}` becomes `{status: true, statusCode: 200, message: 'Success', data: copy of x}` |
| Interceptor.SuccessResponseRoundTrip | src/util/interceptor.ts:27-50 | normalising `successResponse(m, d, c)` gives `successResponse` again, with 'Success' for an empty message, 200 for a zero code and the copied data |
| Interceptor.ErrorResponseRoundTrip | src/util/interceptor.ts:18-45 | normalising `errorResponse(m, e, c)` always throws the error shape with "Error: m" (or "An error occurred"), `e` or '' and `c` or 400 |
| AdminSchema.NewDocument | src/admin/admin.schema/admin.schema.ts:17-24 | a new document keeps every given field; `is_primary` defaults to true and `status` to 0 |
| AdminSchema.AdminDocument.constructor | src/admin/admin.schema/admin.schema.ts:7-24 | a constructed document holds the defaulted fields and reports exactly the given paths as modified |
| AdminSchema.HookOutcome | src/admin/admin.schema/admin.schema.ts:54-66 | the hook leaves id, name, email, is_primary and status alone; a failing encode aborts with nothing assigned; otherwise the token is the encoding of the pre-hook document, replacing any given token; no error is passed on exactly when encoding and any needed hashing succeed; an unmodified password is kept; a modified one is replaced by its hash, or the hash error aborts the write after the token was already assigned |
| AdminSchema.AdminDocument.PreValidate | src/admin/admin.schema/admin.schema.ts:54-66 | running the hook in place leaves the document and the error passed to `next` as `HookOutcome` describes |
| AdminSchema.Validate | src/admin/admin.schema/admin.schema.ts:8-21 | validation succeeds exactly when name, email, password and authorisation are non-empty strings, and then yields those fields unchanged; otherwise the error message starts "Admin validation failed: " |
| AdminSchema.MissingPaths | src/admin/admin.schema/admin.schema.ts:8-21 | no required path is reported missing exactly when all four are present |
| AdminSchema.Transform | src/admin/admin.schema/admin.schema.ts:29-45 | the transform removes `id` and keeps every other key and value |
| AdminSchema.ToObject | src/admin/admin.schema/admin.schema.ts:29-52 | the object holds `_id` (the document's id), the six stored fields and the two virtuals (both 'admin' whatever the record), but neither `id` nor a version key |
| AdminService.HookedDocument | src/admin/admin.schema/admin.schema.ts:54-66 | the document `create` builds passes the hook exactly when the token and any needed hash are produced; the hook's error is the encoder's or the hasher's; a passing document carries the token of the document as built and the hashed password |
| AdminService.InsertOutcome | src/admin/admin.service.ts:34 | an insert succeeds exactly when the hook passes, name/email/password/token are non-empty and the email is not stored yet; a failure carries the encoder's error, the hasher's error, the duplicate-key error for a stored email, or a validation error; a stored record keeps the given name/email/id and defaults, the token encoded from the document as built and the hash of the given password |
| AdminService.AdminModel.FindOne | src/admin/admin.service.ts:20 | finds a record exactly when the email is stored, and that record has the email |
| AdminService.AdminModel.Create | src/admin/admin.service.ts:34 | the result is `InsertOutcome` and the store gains exactly the inserted record, or is unchanged on failure |
| AdminService.Provision | src/admin/admin.service.ts:18-39 | an existing seed admin is returned and nothing changes; a missing one is inserted exactly when its token and password hash are produced and non-empty, and then exactly the seed record (name 'Admin', primary, status 0, hashed seed password, token of the seed document) is inserted and returned; the seed admin is stored afterwards exactly when the call succeeded; any failure leaves the store unchanged and is re-thrown as an Error whose message is "Error checking or creating admin: " followed by the insert error's message |
| AdminService.ProvisionIdempotent | src/admin/admin.service.ts:20-35 | a second provisioning after a successful one returns the same object and leaves the store as it was |
| AdminService.AdminService.CreateDefaultAdmin | src/admin/admin.service.ts:18-39 | the method's result and new store are those of `Provision` |
| AdminService.ProvisionTwice | src/admin/admin.service.ts:20-35 | two calls in sequence return the same object and leave the seed admin stored |
| AdminService.Detail | src/admin/admin.service.ts:45-52 | the seed admin's object when stored; otherwise an Error carrying the provisioning prefix and the null-dereference message |
| AdminService.AdminService.GetAdminDetail | src/admin/admin.service.ts:45-52 | the method returns `Detail` of the current store |
| AdminService.Rethrow | src/admin/admin.service.ts:70-75 | the re-thrown exception is an HttpException with the error's message, or 'Error during login' when it is empty, and the error's non-zero status, or 500 otherwise |
| AdminService.LoginSpec | src/admin/admin.service.ts:57-76 | unknown email: 404 'Admin not found'; mismatching password: 401 'Invalid password'; a throwing compare: its error re-thrown by `Rethrow` (own message, status 500); success exactly when the email is stored and compare says yes, yielding exactly `{name, email}`; every failure carries a non-zero status |
| AdminService.AdminService.Login | src/admin/admin.service.ts:57-76 | the method returns `LoginSpec` of the current store |
| AdminService.LoginAfterProvision | src/admin/admin.service.ts:57-69 | after a fresh provisioning, logging in with the seed credentials yields `{name: 'Admin', email}` whenever compare accepts what hash produced |
| AdminController.CreateAdmin | src/admin/admin.controller.ts:13-20 | success envelope with ACCOUNT_CREATED and the service's object, or error envelope with BAD_REQUEST and the error's message; statusCode 200 on both paths |
| AdminController.GetAdmin | src/admin/admin.controller.ts:24-31 | success envelope with statusCode 201, or error envelope with statusCode 400 and the error's message |
| AdminController.Login | src/admin/admin.controller.ts:35-42 | success envelope with 200 and the login view, or error envelope with error null, the exception's message (BAD_REQUEST when empty) and its status (400 without one) |
| AdminController.LoginEndToEnd | src/admin/admin.controller.ts:35-42 | through the interceptor, an unknown email is thrown with 404 and "Error: Admin not found", a wrong password with 401 and "Error: Invalid password", and a successful login is emitted with 200 and only name and email |
| AdminController.CreateAdminFailureEndToEnd | src/admin/admin.controller.ts:17-19 | a failed createAdmin leaves the interceptor as a thrown object with statusCode 200 and the error's message as `error` |
| AdminController.GetAdminEndToEnd | src/admin/admin.controller.ts:24-31 | getAdmin leaves the interceptor as 201 with the seed admin's object, or thrown with 400 and the wrapped null-dereference message |

## Left out

- The rxjs `Observable`/`pipe`: one mapped value is modelled; what Nest's exception layer does with the thrown plain object afterwards is not part of this model.
- JsValues.IntToString: prints every digit, whereas `String(n)` switches to exponent form ("1e+21") from 10^21 up and no integer much beyond 2^53 is exact in JavaScript; the core never formats numbers that large.
- JsValues.OwnProps: spreads a string into one key per Dafny character (a Unicode scalar value), whereas JavaScript uses one key per UTF-16 code unit, so a character outside the Basic Multilingual Plane gives one key here and two there.
- JavaScript numbers are integral here: fractions, `NaN`, `-0` and infinities are not modelled; arrays, symbols, getters, inherited properties (a string's `length`) and property order are not modelled either.
- Object identity: values are immutable, so "the input is never mutated" holds by construction and aliasing between the input and the shallow copy is not captured.
- bcrypt and cva-jwt are opaque `Crypto` functions: no claim about salting, determinism or strength; a fresh salt per call is represented by passing a different `Crypto` to each call.
- `process.env.JWT_SECRET` is the `secret` parameter; an unset secret is represented only by whatever failure `encode` reports.
- ObjectId generation is the `id` parameter; `_id` is rendered as a string.
- Mongoose/MongoDB: an in-memory map keyed by email stands for the collection and its unique index; `findOne` never fails, and the texts of the validation and duplicate-key errors approximate the server's.
- Concurrent provisioning: calls are sequential, so the duplicate-key failure of `create` is modelled but not reachable from `createDefaultAdmin`; no recovery from it exists in the code or the model.
- AdminSchema.AdminDocument.PreValidate: does not add `authorisation` to the set of modified paths when it assigns the token; nothing reads that set afterwards.
- The `__v` version key is never stored, so `versionKey: false` only shows as its absence from `ToObject`.
- `toJSON` is configured exactly like `toObject` and is modelled by the same function.
- `AdminMessages` values, `LoginDto` validation (for example an absent email in the filter), routing, decorators, dependency injection, `main.ts` bootstrap and `configuration.ts` environment loading.
