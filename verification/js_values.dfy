/**
 * The slice of JavaScript's value semantics that the envelope code relies on:
 * truthiness, `||`, own-property reads, object spread and string conversion
 * in template literals.  Numbers are modelled by their integral values.
 */
module JsValues {

  datatype JsValue =
    | Undefined
    | Null
    | Bool(b: bool)
    | Num(n: int)
    | Str(s: string)
    | Obj(fields: map<string, JsValue>)

  /** An exception as the handlers see it: `Error` has only a message;
      Nest's `HttpException` also carries a status (`.status`, `getStatus()`). */
  datatype Exception =
    | JsError(message: string)
    | HttpException(message: string, status: int)

  predicate IsNullish(v: JsValue) {
    v.Undefined? || v.Null?
  }

  /** `undefined`, `null`, `false`, `0` and `""` are falsy; everything else is truthy. */
  predicate Truthy(v: JsValue) {
    match v
    case Undefined => false
    case Null => false
    case Bool(b) => b
    case Num(n) => n != 0
    case Str(s) => s != ""
    case Obj(_) => true
  }

  /** `a || b` */
  function Or(a: JsValue, b: JsValue): JsValue {
    if Truthy(a) then a else b
  }

  function DigitChar(d: nat): (c: char)
    requires d < 10
    ensures '0' <= c <= '9'
  {
    ('0' as int + d) as char
  }

  predicate AllDigits(s: string) {
    forall i :: 0 <= i < |s| ==> '0' <= s[i] <= '9'
  }

  /** The number a string of decimal digits denotes. */
  function NumeralValue(s: string): nat
    requires AllDigits(s)
  {
    if s == [] then 0 else NumeralValue(s[..|s| - 1]) * 10 + (s[|s| - 1] as int - '0' as int)
  }

  /** The decimal numeral of `n`, without leading zeros: it denotes `n`. */
  function DecimalDigits(n: nat): (s: string)
    ensures 1 <= |s| && AllDigits(s)
    ensures NumeralValue(s) == n
    ensures |s| > 1 ==> s[0] != '0'
    decreases n
  {
    if n < 10 then [DigitChar(n)]
    else
      var prefix := DecimalDigits(n / 10);
      var s := prefix + [DigitChar(n % 10)];
      assert s[..|s| - 1] == prefix;
      s
  }

  /** `String(n)` for an integral number: an optional minus sign before the
      numeral of the magnitude. */
  function IntToString(n: int): (s: string)
    ensures s != ""
    ensures n >= 0 ==> AllDigits(s) && NumeralValue(s) == n
    ensures n < 0 ==> s[0] == '-' && AllDigits(s[1..]) && NumeralValue(s[1..]) == -n
    // no leading zeros: "7", never "07"; "-7", never "-07"
    ensures n >= 0 && |s| > 1 ==> s[0] != '0'
    ensures n < 0 ==> |s| >= 2 && (|s| > 2 ==> s[1] != '0')
  {
    if n < 0 then "-" + DecimalDigits(-n) else DecimalDigits(n)
  }

  /** Every numeral names exactly one number. */
  lemma DecimalDigitsInjectiveAll()
    ensures forall a: nat, b: nat :: DecimalDigits(a) == DecimalDigits(b) ==> a == b
  {
  }

  /** The own enumerable properties that `{...v}` copies.  A string spreads to
      its characters under the keys "0", "1", ...; numbers, booleans, null and
      undefined spread to nothing.  (Inherited properties such as a string's
      `length` are not modelled; the code never reads them.) */
  function OwnProps(v: JsValue): (m: map<string, JsValue>)
    ensures v.Obj? ==> m == v.fields
    ensures !v.Obj? && !v.Str? ==> m == map[]
    ensures v.Str? ==> forall i :: 0 <= i < |v.s| ==>
      DecimalDigits(i) in m && m[DecimalDigits(i)] == Str([v.s[i]])
    ensures v.Str? ==> forall k :: k in m ==> exists i :: 0 <= i < |v.s| && k == DecimalDigits(i)
  {
    match v
    case Obj(fields) => fields
    case Str(s) =>
      DecimalDigitsInjectiveAll();
      var m := map i | 0 <= i < |s| :: DecimalDigits(i) := Str([s[i]]);
      m
    case _ => map[]
  }

  /** `v[k]` for a value that is not null or undefined (callers rule those out
      first, as the code's own checks do): a missing property reads as undefined. */
  function Prop(v: JsValue, k: string): JsValue {
    var m := OwnProps(v);
    if k in m then m[k] else Undefined
  }

  /** A property name that does not start with a digit is never an index key,
      so reading it from a string yields undefined. */
  lemma StrPropIsUndefined(s: string, k: string)
    requires k != "" && !('0' <= k[0] <= '9')
    ensures Prop(Str(s), k) == Undefined
  {
  }

  /** The text a template literal `${v}` produces. */
  function ToJsString(v: JsValue): (s: string)
    ensures Truthy(v) ==> s != ""
  {
    match v
    case Undefined => "undefined"
    case Null => "null"
    case Bool(b) => if b then "true" else "false"
    case Num(n) => IntToString(n)
    case Str(s) => s
    case Obj(_) => "[object Object]"
  }
}
