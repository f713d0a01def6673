/**
 * The JavaScript values a handler reads from a parsed JSON request body,
 * and the few JavaScript operators the controllers apply to them:
 * truthiness, `typeof x !== 'undefined'`, `x || null` and `toLowerCase`.
 */
module JsValues {
  import opened Wrappers

  /** A JSON scalar as `JSON.parse` yields it; `Null` is also SQL NULL once stored. */
  datatype Json = Null | Bool(b: bool) | Num(x: real) | Str(s: string)

  /** One field of a request body; `Absent` is JavaScript's `undefined`. */
  datatype Field<T> = Absent | Present(value: T)

  /** JavaScript truthiness: `undefined`, `null`, `false`, `0` and `""` are falsy. */
  predicate Truthy(f: Field<Json>) {
    match f
    case Absent => false
    case Present(v) =>
      match v
      case Null => false
      case Bool(b) => b
      case Num(x) => x != 0.0
      case Str(s) => s != ""
  }

  /** `x || null`: a falsy value is stored as null, any other as given. */
  function OrNull(f: Field<Json>): (r: Json)
    ensures r == Null || (Truthy(f) && f == Present(r))
    ensures Truthy(f) ==> f == Present(r)
  {
    if Truthy(f) then f.value else Null
  }

  /** A field the body leaves out is stored as null, any other as given. */
  function ValueOrNull(f: Field<Json>): Json {
    match f
    case Absent => Null
    case Present(v) => v
  }

  /** `if (typeof x !== 'undefined') target = x`: the new value of `target`. */
  function Override<T>(f: Field<T>, current: T): T {
    match f
    case Absent => current
    case Present(v) => v
  }

  /**
   * `!Number.isNaN(Number(v))` for a JSON scalar. `numeric(s)` stands for the
   * outcome of JavaScript's `Number(s)` on a string being a number.
   */
  predicate NumberIsNotNaN(v: Json, numeric: string -> bool) {
    match v
    case Null => true
    case Bool(_) => true
    case Num(_) => true
    case Str(s) => numeric(s)
  }

  /**
   * `typeof price === 'number' || (price && !Number.isNaN(Number(price))) ? price : null`:
   * the price a new booking stores.
   */
  function StoredPrice(f: Field<Json>, numeric: string -> bool): (r: Json)
    ensures r == Null || f == Present(r)
    ensures f.Present? && f.value.Num? ==> r == f.value
    ensures f.Present? && f.value.Str? ==> (r == f.value <==> f.value.s != "" && numeric(f.value.s))
    ensures f == Present(Bool(true)) ==> r == f.value
    ensures f == Absent || f == Present(Null) || f == Present(Bool(false)) ==> r == Null
  {
    if f.Present? && f.value.Num? then f.value
    else if Truthy(f) && NumberIsNotNaN(f.value, numeric) then f.value
    else Null
  }

  /** `toLowerCase` on one character, for the ASCII letters. */
  function LowerChar(c: char): char {
    if 'A' <= c <= 'Z' then (c as int - 'A' as int + 'a' as int) as char else c
  }

  predicate IsLowerCase(s: string) {
    forall i :: 0 <= i < |s| ==> LowerChar(s[i]) == s[i]
  }

  /** `s.toLowerCase()`: same length, every letter lowered, no upper-case letter left. */
  function ToLower(s: string): (r: string)
    ensures |r| == |s|
    ensures IsLowerCase(r)
    ensures forall i :: 0 <= i < |s| && !('A' <= s[i] <= 'Z') ==> r[i] == s[i]
    ensures forall i :: 0 <= i < |s| && 'A' <= s[i] <= 'Z' ==> r[i] as int == s[i] as int + ('a' as int - 'A' as int)
  {
    seq(|s|, i requires 0 <= i < |s| => LowerChar(s[i]))
  }

  /**
   * `String(v).toLowerCase()`. For a number the result is `None`: its
   * numeral (digits, a sign, a point, an exponent, `NaN` or `Infinity`) is
   * not modelled, and it is never a word of letters only.
   */
  function StringLower(v: Json): (r: Option<string>)
    ensures r.Some? ==> IsLowerCase(r.value)
    ensures v.Num? <==> r.None?
  {
    match v
    case Null => Some("null")
    case Bool(b) => Some(if b then "true" else "false")
    case Num(_) => None
    case Str(s) => Some(ToLower(s))
  }

  /** Lower-casing a lower-case string changes nothing. */
  lemma ToLowerFixesLowerCase(s: string)
    requires IsLowerCase(s)
    ensures ToLower(s) == s
  {
  }
}
