/** Shared vocabulary of the backend model: optional request values, the
    HTTP outcome of a controller action, JavaScript truthiness, and the few
    string helpers the controllers need. */
module Base {

  datatype Option<+T> = None | Some(value: T)

  /** The outcome of a controller action, one constructor per HTTP status the
      controllers send: 200, 201, 400, 401, 404 and 500. */
  datatype Response<+T> =
    | Ok(value: T)
    | Created(value: T)
    | BadRequest(error: string)
    | Unauthorized(error: string)
    | NotFound(error: string)
    | ServerError(error: string)
  {
    predicate Success() { Ok? || Created? }
  }

  /** `req.user`, the payload the authentication middleware decoded from the
      bearer token. */
  datatype Caller = Caller(id: nat, role: string)

  /** A request string is truthy in JavaScript when it is present and not empty. */
  predicate Given(s: Option<string>) {
    s.Some? && s.value != ""
  }

  /** A JSON body number (an id, a month, an amount) is truthy when it is
      present and not zero.  A query-string number is different: `req.query`
      holds strings, and every non-empty string is truthy, `"0"` included, so
      a query filter is given exactly when it is `Some` (an absent or empty
      parameter is `None`). */
  predicate GivenNat(n: Option<nat>) {
    n.Some? && n.value != 0
  }

  predicate GivenInt(n: Option<int>) {
    n.Some? && n.value != 0
  }

  /** SQL `COALESCE($k, column)`: a request value that is absent or null keeps
      the stored value, anything else replaces it. */
  function Coalesce<T>(given: Option<T>, stored: T): (r: T)
    ensures given.None? ==> r == stored
    ensures given.Some? ==> r == given.value
  {
    if given.Some? then given.value else stored
  }

  /** COALESCE on a nullable column. */
  function CoalesceNull<T>(given: Option<T>, stored: Option<T>): (r: Option<T>)
    ensures given.None? ==> r == stored
    ensures given.Some? ==> r == given
  {
    if given.Some? then given else stored
  }

  predicate StartsWith(s: string, prefix: string) {
    |prefix| <= |s| && s[..|prefix|] == prefix
  }

  predicate EndsWith(s: string, suffix: string) {
    |suffix| <= |s| && s[|s| - |suffix|..] == suffix
  }

  /** `t` occurs somewhere in `s`: what `s ILIKE '%t%'` tests, without the
      case folding. */
  predicate Contains(s: string, t: string) {
    exists i :: 0 <= i <= |s| - |t| && OccursAt(s, t, i)
  }

  predicate OccursAt(s: string, t: string, i: int) {
    0 <= i <= |s| - |t| && s[i..i + |t|] == t
  }

  function DigitChar(d: nat): (c: char)
    requires d < 10
    ensures '0' <= c <= '9'
  {
    ['0', '1', '2', '3', '4', '5', '6', '7', '8', '9'][d]
  }

  /** Decimal text of a number, as a template literal renders `Date.now()`. */
  function Digits(n: nat): (r: string)
    ensures |r| >= 1
    ensures forall i :: 0 <= i < |r| ==> '0' <= r[i] <= '9'
  {
    if n < 10 then [DigitChar(n)] else Digits(n / 10) + [DigitChar(n % 10)]
  }

  /** A generated identifier `PREFIX${Date.now()}`, the clock reading passed in. */
  function Stamped(prefix: string, stamp: nat): (r: string)
    ensures StartsWith(r, prefix)
    ensures |r| > |prefix|
  {
    prefix + Digits(stamp)
  }

  function Min(a: int, b: int): int {
    if a <= b then a else b
  }
}
