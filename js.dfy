/**
 * JavaScript values as the application sees them, and the handful of
 * language rules its code depends on: truthiness, `||`, `===`, property
 * access, `String(v)`, `Array.prototype.join`, `for ... of`, and the string
 * methods `trim`, `toLowerCase`, `includes` and `endsWith`.
 *
 * JSON values are a concrete datatype; `undefined` is `None`. A thrown
 * exception is an `Err`.
 */
module Js {

  datatype Option<+T> = None | Some(value: T)

  /** The exceptions the modelled code can raise or observe. */
  datatype Error =
    | TypeError        // a property of null/undefined, a missing method
    | SyntaxError      // JSON.parse of malformed text
    | DataError        // IndexedDB: a value without a valid in-line key
    | ConstraintError  // IndexedDB: add() of an existing key, exhausted key generator
    | NotFoundError    // IndexedDB: a transaction on a store that does not exist
    | VersionError     // IndexedDB: opening with a lower version than stored
    | NetworkError     // fetch() rejected
    | Thrown(message: string)  // `throw new Error(message)` in application code

  datatype Result<+T> = Ok(value: T) | Err(error: Error) {
    predicate IsFailure() { Err? }
    function PropagateFailure<U>(): Result<U>
      requires Err?
    {
      Err(error)
    }
    function Extract(): T
      requires Ok?
    {
      value
    }
  }

  /** A JSON value (numbers are taken to be integers). */
  datatype Json =
    | Null
    | Bool(b: bool)
    | Num(n: int)
    | Str(s: string)
    | Arr(items: seq<Json>)
    | Obj(fields: map<string, Json>)

  /** The outcome of `fetch(url)` followed by `res.json()`: the promise
      rejects (`NetworkDown`), or a response arrives with a status and a body
      that either parses (`Some`) or makes `res.json()` throw (`None`). */
  datatype Fetch = NetworkDown | Responded(status: int, json: Option<Json>) {
    /** `res.ok`: the status is in the range 200-299. */
    predicate Ok() { Responded? && 200 <= status <= 299 }
  }

  // ---------------------------------------------------------------------
  // Truthiness, `||` and `===`

  /** JavaScript truthiness of a possibly undefined value. */
  predicate Truthy(v: Option<Json>) {
    match v
    case None => false
    case Some(Null) => false
    case Some(Bool(b)) => b
    case Some(Num(n)) => n != 0
    case Some(Str(s)) => s != ""
    case Some(Arr(_)) => true
    case Some(Obj(_)) => true
  }

  /** `v || d`. */
  function Or(v: Option<Json>, d: Json): (r: Json)
    ensures Truthy(v) ==> Some(r) == v
    ensures !Truthy(v) ==> r == d
  {
    if Truthy(v) then v.value else d
  }

  predicate IsPrimitive(j: Json) {
    !j.Arr? && !j.Obj?
  }

  /** `a === b` for values that come from distinct parses: primitives compare
      by value, while two objects or arrays are never the same object. This is
      also the SameValueZero used by `Set` and `Array.prototype.includes`, the
      two differing only on NaN, which integers do not have. */
  predicate StrictEq(a: Option<Json>, b: Option<Json>) {
    match (a, b)
    case (None, None) => true
    case (Some(x), Some(y)) => IsPrimitive(x) && x == y
    case _ => false
  }

  // ---------------------------------------------------------------------
  // Property access

  predicate IsDigit(c: char) { '0' <= c <= '9' }

  function DigitsValue(s: string): nat
    requires forall i | 0 <= i < |s| :: IsDigit(s[i])
  {
    if s == [] then 0
    else
      assert IsDigit(s[|s| - 1]);
      DigitsValue(s[..|s| - 1]) * 10 + (s[|s| - 1] as int - '0' as int)
  }

  /** The array index a property key denotes, if it is a canonical one. */
  function CanonicalIndex(k: string): Option<nat> {
    if k != [] && (forall i | 0 <= i < |k| :: IsDigit(k[i])) && (k == "0" || k[0] != '0')
    then Some(DigitsValue(k))
    else None
  }

  /** The largest array index: an array's length stays below 2^32, so a
      canonical key of 2^32 - 1 or more is an ordinary property of the
      array, not an element. */
  const MaxArrayIndex := 4294967294

  /** The array element a property key denotes, if any. */
  function ArrayIndex(k: string): Option<nat> {
    match CanonicalIndex(k)
    case Some(i) => if i <= MaxArrayIndex then Some(i) else None
    case None => None
  }

  /** `v[k]` for a value that is not undefined: null throws; arrays and
      strings answer `length` and their indices; objects their own fields;
      other primitives have no such property. */
  function Prop(v: Json, k: string): Result<Option<Json>> {
    match v
    case Null => Err(TypeError)
    case Obj(m) => Ok(if k in m then Some(m[k]) else None)
    case Arr(xs) =>
      if k == "length" then Ok(Some(Num(|xs|)))
      else Ok(match ArrayIndex(k)
              case Some(i) => if i < |xs| then Some(xs[i]) else None
              case None => None)
    case Str(s) =>
      if k == "length" then Ok(Some(Num(|s|)))
      else Ok(match CanonicalIndex(k)
              case Some(i) => if i < |s| then Some(Str([s[i]])) else None
              case None => None)
    case _ => Ok(None)
  }

  /** `v[k]` where `v` may itself be undefined (which throws). */
  function Member(v: Option<Json>, k: string): Result<Option<Json>> {
    if v.None? then Err(TypeError) else Prop(v.value, k)
  }

  /** Optional chaining `v?.[k]`: undefined when `v` is null or undefined. */
  function Chain(v: Option<Json>, k: string): Option<Json> {
    if v.None? || v.value.Null? then None
    else match Prop(v.value, k)
         case Ok(r) => r
         case Err(_) => None
  }

  /** `for (const x of v)`, `new Set(v)`: arrays yield their elements,
      strings their characters, anything else is not iterable. */
  function Iterate(v: Json): (r: Result<seq<Json>>)
    ensures v.Arr? ==> r == Ok(v.items)
    ensures r.Ok? <==> v.Arr? || v.Str?
  {
    match v
    case Arr(xs) => Ok(xs)
    case Str(s) => Ok(seq(|s|, i requires 0 <= i < |s| => Str([s[i]])))
    case _ => Err(TypeError)
  }

  // ---------------------------------------------------------------------
  // Conversions to string

  function DigitChar(d: nat): char
    requires d < 10
  {
    ('0' as int + d) as char
  }

  function NatToString(n: nat): (s: string)
    ensures s != [] && forall i | 0 <= i < |s| :: IsDigit(s[i])
  {
    if n < 10 then [DigitChar(n)] else NatToString(n / 10) + [DigitChar(n % 10)]
  }

  /** The decimal form JavaScript gives an integer. */
  function IntToString(n: int): string {
    if n < 0 then "-" + NatToString(-n) else NatToString(n)
  }

  function Concat(parts: seq<string>, sep: string): string {
    if parts == [] then ""
    else if |parts| == 1 then parts[0]
    else parts[0] + sep + Concat(parts[1..], sep)
  }

  /** `String(j)` for a defined value. */
  function JsonToString(j: Json): string
    decreases j, 0
  {
    match j
    case Null => "null"
    case Bool(b) => if b then "true" else "false"
    case Num(n) => IntToString(n)
    case Str(s) => s
    case Arr(xs) => Concat(seq(|xs|, i requires 0 <= i < |xs| => JoinPart(xs[i])), ",")
    case Obj(_) => "[object Object]"
  }

  /** How `join` renders one element: null (and undefined) become "". */
  function JoinPart(j: Json): string
    decreases j, 1
  {
    if j.Null? then "" else JsonToString(j)
  }

  /** `String(v)` and template-literal interpolation. */
  function ToString(v: Option<Json>): string {
    match v
    case None => "undefined"
    case Some(j) => JsonToString(j)
  }

  /** `xs.join(sep)`. */
  function Join(xs: seq<Json>, sep: string): string {
    Concat(seq(|xs|, i requires 0 <= i < |xs| => JoinPart(xs[i])), sep)
  }

  // ---------------------------------------------------------------------
  // Object spread

  /** Decimal index strings name different indices. */
  lemma NatToStringInjective()
    ensures forall i: nat, j: nat | NatToString(i) == NatToString(j) :: i == j
  {
    forall i: nat, j: nat | NatToString(i) == NatToString(j)
      ensures i == j
    {
      NatToStringRoundTrip(i);
      NatToStringRoundTrip(j);
    }
  }

  /** The own enumerable properties of an array: its indices. */
  function IndexMap(xs: seq<Json>): (m: map<string, Json>)
    ensures forall i | 0 <= i < |xs| :: NatToString(i) in m && m[NatToString(i)] == xs[i]
  {
    if xs == [] then map[]
    else
      var n := |xs| - 1;
      var m := IndexMap(xs[..n]);
      NatToStringInjective();
      assert forall i | 0 <= i < n :: xs[..n][i] == xs[i];
      m[NatToString(n) := xs[n]]
  }

  /** `{ ...base, ...v }` where `base` is an object literal: the own
      properties of `v` are copied over it, later ones winning. Objects give
      their fields, arrays and strings their indices; null, undefined and
      the other primitives give nothing. */
  function Spread(base: map<string, Json>, v: Option<Json>): map<string, Json> {
    match v
    case Some(Obj(m)) => base + m
    case Some(Arr(xs)) => base + IndexMap(xs)
    case Some(Str(_)) => base + IndexMap(Iterate(v.value).value)
    case _ => base
  }

  /** `{ ...m, [k]: v }` for a value that may be undefined (then left out, as
      `JSON.stringify` and the model of objects do). */
  function WithField(m: map<string, Json>, k: string, v: Option<Json>): map<string, Json> {
    if v.Some? then m[k := v.value] else m
  }

  /** Spread fields override the literal's own, and every other field of the
      literal survives. */
  lemma SpreadOverrides(base: map<string, Json>, m: map<string, Json>, k: string)
    ensures k in m ==> k in Spread(base, Some(Obj(m))) && Spread(base, Some(Obj(m)))[k] == m[k]
    ensures k !in m && k in base ==> k in Spread(base, Some(Obj(m))) && Spread(base, Some(Obj(m)))[k] == base[k]
    ensures Spread(base, Some(Obj(m))).Keys == base.Keys + m.Keys
    ensures Spread(base, None) == base && Spread(base, Some(Null)) == base
  {
  }

  // ---------------------------------------------------------------------
  // String methods

  /** `toLowerCase` on one character (ASCII and Latin-1 letters). */
  function LowerChar(c: char): char {
    if 'A' <= c <= 'Z' || ('\U{C0}' <= c <= '\U{DE}' && c != '\U{D7}')
    then (c as int + 32) as char
    else c
  }

  function Lower(s: string): (r: string)
    ensures |r| == |s|
    ensures forall i | 0 <= i < |s| :: r[i] == LowerChar(s[i])
  {
    seq(|s|, i requires 0 <= i < |s| => LowerChar(s[i]))
  }

  /** The characters `String.prototype.trim` strips: WhiteSpace and
      LineTerminator of ECMAScript. */
  predicate IsSpace(c: char) {
    c == '\t' || c == '\n' || c == '\U{B}' || c == '\U{C}' || c == '\r' || c == ' '
    || c == '\U{A0}' || c == '\U{1680}' || ('\U{2000}' <= c <= '\U{200A}')
    || c == '\U{2028}' || c == '\U{2029}' || c == '\U{202F}' || c == '\U{205F}'
    || c == '\U{3000}' || c == '\U{FEFF}'
  }

  function TrimStart(s: string): (r: string)
    ensures |r| <= |s| && r == s[|s| - |r|..]
    ensures forall i | 0 <= i < |s| - |r| :: IsSpace(s[i])
    ensures r == [] || !IsSpace(r[0])
  {
    if s != [] && IsSpace(s[0]) then TrimStart(s[1..]) else s
  }

  function TrimEnd(s: string): (r: string)
    ensures |r| <= |s| && r == s[..|r|]
    ensures forall i | |r| <= i < |s| :: IsSpace(s[i])
    ensures r == [] || !IsSpace(r[|r| - 1])
  {
    if s != [] && IsSpace(s[|s| - 1]) then TrimEnd(s[..|s| - 1]) else s
  }

  /** `s.trim()`. */
  function Trim(s: string): string {
    TrimEnd(TrimStart(s))
  }

  predicate OccursAt(hay: string, needle: string, i: int) {
    0 <= i && i + |needle| <= |hay| && hay[i..i + |needle|] == needle
  }

  /** `hay.includes(needle)` on strings. */
  predicate Contains(hay: string, needle: string) {
    exists i | 0 <= i <= |hay| :: OccursAt(hay, needle, i)
  }

  /** `s.endsWith(suffix)`. */
  predicate EndsWith(s: string, suffix: string) {
    |suffix| <= |s| && s[|s| - |suffix|..] == suffix
  }

  /** `v.includes(x)` with a string argument: a substring test on strings,
      an element test on arrays, and a TypeError on anything else. */
  function Includes(v: Option<Json>, x: string): Result<bool> {
    match v
    case Some(Str(s)) => Ok(Contains(s, x))
    case Some(Arr(xs)) => Ok(exists i | 0 <= i < |xs| :: xs[i] == Str(x))
    case _ => Err(TypeError)
  }

  /** `v.toLowerCase()`: only strings have the method. */
  function LowerOf(v: Option<Json>): Result<string> {
    match v
    case Some(Str(s)) => Ok(Lower(s))
    case _ => Err(TypeError)
  }

  // ---------------------------------------------------------------------
  // Facts about the string model

  /** Lower-casing leaves white space alone. */
  lemma LowerKeepsSpace(c: char)
    ensures IsSpace(LowerChar(c)) <==> IsSpace(c)
  {
  }

  /** Trimmed text has no white space at either end. */
  lemma TrimEnds(s: string)
    ensures var r := Trim(s); r == [] || (!IsSpace(r[0]) && !IsSpace(r[|r| - 1]))
  {
    var r := Trim(s);
    var t := TrimStart(s);
    if r != [] {
      assert r == t[..|r|];
    }
  }

  /** Trimming twice is trimming once. */
  lemma {:induction false} TrimIdempotent(s: string)
    ensures Trim(Trim(s)) == Trim(s)
  {
    TrimEnds(s);
  }

  /** Lower-casing twice is lower-casing once. */
  lemma LowerIdempotent(s: string)
    ensures Lower(Lower(s)) == Lower(s)
  {
  }

  /** Lower-casing commutes with trimming, as white space has no case. */
  lemma {:induction false} LowerTrimCommute(s: string)
    ensures Lower(Trim(s)) == Trim(Lower(s))
  {
    LowerTrimStart(s);
    LowerTrimEnd(TrimStart(s));
  }

  lemma {:induction false} LowerTrimStart(s: string)
    ensures Lower(TrimStart(s)) == TrimStart(Lower(s))
    decreases |s|
  {
    if s != [] && IsSpace(s[0]) {
      LowerKeepsSpace(s[0]);
      assert Lower(s)[1..] == Lower(s[1..]);
      LowerTrimStart(s[1..]);
    } else if s != [] {
      LowerKeepsSpace(s[0]);
    }
  }

  lemma {:induction false} LowerTrimEnd(s: string)
    ensures Lower(TrimEnd(s)) == TrimEnd(Lower(s))
    decreases |s|
  {
    if s != [] && IsSpace(s[|s| - 1]) {
      LowerKeepsSpace(s[|s| - 1]);
      assert Lower(s)[..|s| - 1] == Lower(s[..|s| - 1]);
      LowerTrimEnd(s[..|s| - 1]);
    } else if s != [] {
      LowerKeepsSpace(s[|s| - 1]);
    }
  }

  /** A string contains itself and each of its suffixes. */
  lemma EndsWithAppend(s: string, suffix: string)
    ensures EndsWith(s + suffix, suffix)
  {
    assert (s + suffix)[|s|..] == suffix;
  }

  /** The decimal digits of a natural number read back as that number, and
      the string is a canonical index, an array's up to `MaxArrayIndex`. */
  lemma {:induction false} NatToStringRoundTrip(n: nat)
    ensures DigitsValue(NatToString(n)) == n
    ensures CanonicalIndex(NatToString(n)) == Some(n)
    ensures ArrayIndex(NatToString(n)) == if n <= MaxArrayIndex then Some(n) else None
  {
    var s := NatToString(n);
    if n < 10 {
    } else {
      NatToStringRoundTrip(n / 10);
      assert s[..|s| - 1] == NatToString(n / 10);
      assert s[0] == NatToString(n / 10)[0];
      NatToStringLeading(n / 10);
    }
  }

  /** Only zero is written with a leading zero. */
  lemma {:induction false} NatToStringLeading(n: nat)
    ensures NatToString(n)[0] == '0' <==> n == 0
  {
    if n >= 10 {
      NatToStringLeading(n / 10);
      assert NatToString(n)[0] == NatToString(n / 10)[0];
    }
  }
}
