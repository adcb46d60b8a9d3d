/** Values and conversions shared by every route and by the dispatch engine:
    optional document fields, JavaScript truthiness of the fields the handlers
    test, Mongo ObjectId strings and ASCII case conversion. */
module Common {

  /** A document field that may be absent (missing, null or undefined). */
  datatype Option<T> = None | Some(value: T)

  /** The error responses the route handlers send; the reason tells apart two
      responses with the same status code. */
  datatype HttpError = BadRequest(reason: string) | Unauthorized | Forbidden(reason: string) | NotFound | ServerError

  function StatusCode(e: HttpError): nat {
    match e
    case BadRequest(_) => 400
    case Unauthorized => 401
    case Forbidden(_) => 403
    case NotFound => 404
    case ServerError => 500
  }

  datatype Result<T> = Ok(value: T) | Err(error: HttpError)

  /** Money is a JavaScript number as read by parseFloat; rounding with toFixed is not modelled. */
  type Money = real

  /** JavaScript truthiness of a numeric field: present and not zero (NaN is not modelled). */
  predicate Truthy(x: Option<real>) {
    x.Some? && x.value != 0.0
  }

  /** JavaScript truthiness of a string field: present and not the empty string. */
  predicate Filled(s: Option<string>) {
    s.Some? && s.value != ""
  }

  /** `x || fallback` on a string field. */
  function OrElse(s: Option<string>, fallback: string): string {
    if Filled(s) then s.value else fallback
  }

  /** `parseFloat(x) || 0` on a numeric field: absent, unparsable or zero all read as 0. */
  function NumberOrZero(x: Option<real>): real {
    if Truthy(x) then x.value else 0.0
  }

  function Get<K, V>(m: map<K, V>, k: K): Option<V> {
    if k in m then Some(m[k]) else None
  }

  predicate IsHexDigit(c: char) {
    ('0' <= c <= '9') || ('a' <= c <= 'f') || ('A' <= c <= 'F')
  }

  function LowerChar(c: char): char {
    if 'A' <= c <= 'Z' then (c as int + 32) as char else c
  }

  function UpperChar(c: char): char {
    if 'a' <= c <= 'z' then (c as int - 32) as char else c
  }

  /** The strings `new ObjectId(s)` accepts: exactly 24 hexadecimal digits. */
  predicate IsObjectIdString(s: string) {
    |s| == 24 && forall i :: 0 <= i < |s| ==> IsHexDigit(s[i])
  }

  /** The form `ObjectId.toString()` prints: 24 lower-case hexadecimal digits. */
  predicate IsCanonicalObjectId(s: string) {
    IsObjectIdString(s) && forall i :: 0 <= i < |s| ==> !('A' <= s[i] <= 'Z')
  }

  /** `new ObjectId(s).toString()`, or None where the constructor throws.
      Two strings name the same ObjectId exactly when their canonical forms agree. */
  function ObjectIdOf(s: string): (r: Option<string>)
    ensures r.Some? <==> IsObjectIdString(s)
    ensures r.Some? ==> IsCanonicalObjectId(r.value)
    ensures IsCanonicalObjectId(s) ==> r == Some(s)
  {
    if IsObjectIdString(s) then
      var t := seq(|s|, i requires 0 <= i < |s| => LowerChar(s[i]));
      assert IsCanonicalObjectId(s) ==> t == s;
      Some(t)
    else None
  }

  lemma ObjectIdOfCanonical(s: string)
    requires ObjectIdOf(s).Some?
    ensures ObjectIdOf(ObjectIdOf(s).value) == ObjectIdOf(s)
  {
  }

  /** ASCII `toUpperCase`: letters outside a-z are left as they are. */
  function ToUpper(s: string): (r: string)
    ensures |r| == |s|
    ensures forall i :: 0 <= i < |s| ==> !('a' <= r[i] <= 'z')
    ensures forall i :: 0 <= i < |s| ==> LowerChar(r[i]) == LowerChar(s[i])
  {
    seq(|s|, i requires 0 <= i < |s| => UpperChar(s[i]))
  }

  /** Uppercasing twice is uppercasing once, so a code stored upper-cased is found
      by an upper-cased lookup of any spelling of it. */
  lemma {:induction false} ToUpperIdempotent(s: string)
    ensures ToUpper(ToUpper(s)) == ToUpper(s)
  {
    var u := ToUpper(s);
    forall i | 0 <= i < |s|
      ensures ToUpper(u)[i] == u[i]
    {
      assert !('a' <= u[i] <= 'z');
    }
  }
}
