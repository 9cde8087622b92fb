/**
 * Python values as the routers see them in a Firestore document (a `dict`),
 * together with the handful of Python operations the routers apply to them:
 * truthiness, `==`, `dict.get`, `dict.update` and `str()`.
 */
module Values {

  datatype Option<T> = None | Some(value: T) {
    function GetOr(default: T): T {
      if Some? then value else default
    }
  }

  datatype Result<T, E> = Ok(value: T) | Err(error: E)

  /** A field value of a stored document.  `Time` is a `datetime` object,
      kept as its opaque text; `Str` also carries ISO timestamps that the
      routers store as strings. */
  datatype Value = Null | Bool(b: bool) | Int(i: int) | Str(s: string) | Time(stamp: string)

  /** A document: Python `Dict[str, Any]`. */
  type Record = map<string, Value>

  /** Python truthiness (`if x:` / `x or y` / `not x`). */
  predicate Truthy(v: Value) {
    match v
    case Null => false
    case Bool(b) => b
    case Int(i) => i != 0
    case Str(s) => s != ""
    case Time(_) => true
  }

  /** Python `==`: like structural equality, except that `True == 1` and `False == 0`. */
  predicate PyEq(a: Value, b: Value) {
    match (a, b)
    case (Bool(x), Int(y)) => (if x then 1 else 0) == y
    case (Int(x), Bool(y)) => x == (if y then 1 else 0)
    case _ => a == b
  }

  /** `None` for Python's absent optional string, a string value otherwise. */
  function OptStr(s: Option<string>): (v: Value)
    ensures s.None? <==> v == Null
    ensures s.Some? ==> v == Str(s.value)
  {
    if s.Some? then Str(s.value) else Null
  }

  /** `d.get(key, default)`. */
  function Get(d: Record, key: string, default: Value): (v: Value)
    ensures key in d ==> v == d[key]
    ensures key !in d ==> v == default
  {
    if key in d then d[key] else default
  }

  /** `base.update(fields)`: given keys are overwritten or added, all other keys are kept. */
  function Merge(base: Record, fields: Record): (r: Record)
    ensures r.Keys == base.Keys + fields.Keys
    ensures forall k :: k in fields ==> r[k] == fields[k]
    ensures forall k :: k in base && k !in fields ==> r[k] == base[k]
  {
    base + fields
  }

  function DigitChar(d: nat): (c: char)
    requires d < 10
    ensures '0' <= c <= '9'
  {
    "0123456789"[d]
  }

  predicate IsDigit(c: char) {
    '0' <= c <= '9'
  }

  predicate AllDigits(s: string) {
    forall i :: 0 <= i < |s| ==> IsDigit(s[i])
  }

  /** `str(n)` for a natural number: its decimal digits, most significant first. */
  function NatToString(n: nat): (s: string)
    ensures |s| > 0 && AllDigits(s)
    decreases n
  {
    if n < 10 then [DigitChar(n)] else NatToString(n / 10) + [DigitChar(n % 10)]
  }

  /** The value of a non-empty string of decimal digits. */
  function DigitsValue(s: string): nat
    requires |s| > 0 && AllDigits(s)
    decreases |s|
  {
    if |s| == 1 then (s[0] as int - '0' as int)
    else DigitsValue(s[..|s| - 1]) * 10 + (s[|s| - 1] as int - '0' as int)
  }

  /** `str(i)` for any integer. */
  function IntToString(i: int): string {
    if i < 0 then "-" + NatToString(-i) else NatToString(i)
  }

  /** `str(v)` as an f-string renders a field value. */
  function PyStr(v: Value): string {
    match v
    case Null => "None"
    case Bool(b) => if b then "True" else "False"
    case Int(i) => IntToString(i)
    case Str(s) => s
    case Time(t) => t
  }

  /** Reading the decimal text of `n` back gives `n`. */
  lemma {:induction false} NatToStringRoundTrip(n: nat)
    ensures DigitsValue(NatToString(n)) == n
    decreases n
  {
    if n >= 10 {
      var s := NatToString(n);
      var prefix := NatToString(n / 10);
      assert s[..|s| - 1] == prefix;
      NatToStringRoundTrip(n / 10);
    }
  }

  /** Distinct numbers have distinct decimal texts. */
  lemma NatToStringInjective(a: nat, b: nat)
    requires NatToString(a) == NatToString(b)
    ensures a == b
  {
    NatToStringRoundTrip(a);
    NatToStringRoundTrip(b);
  }
}
