/**
 * Python values as the scripts see them: a dictionary key that may be absent,
 * `dict.get(key, default)`, the truthiness of a string, and `str(int)` as used
 * inside f-strings.
 */
module Values {

  /** An optional value: `None` stands for a dictionary key that is absent. */
  datatype Option<T> = None | Some(value: T)

  /** `d.get(key, default)` for a key whose presence is recorded as an Option. */
  function GetOr<T>(o: Option<T>, default: T): T
  {
    match o
    case Some(v) => v
    case None => default
  }

  /** `d.get(key, default)` on a dictionary of strings. */
  function Lookup(m: map<string, string>, key: string, default: string): string
  {
    if key in m then m[key] else default
  }

  /** Python truthiness of a value that is a string or missing: `not s` is false. */
  predicate Truthy(o: Option<string>)
  {
    o.Some? && o.value != ""
  }

  predicate IsDigit(c: char)
  {
    '0' <= c <= '9'
  }

  function DigitChar(d: nat): (c: char)
    requires d < 10
    ensures IsDigit(c)
  {
    "0123456789"[d]
  }

  /** Decimal rendering of a natural number, as `str(n)` prints it. */
  function NatToString(n: nat): (s: string)
    ensures |s| >= 1
    ensures forall i :: 0 <= i < |s| ==> IsDigit(s[i])
    ensures n >= 10 ==> s[0] != '0'
    decreases n
  {
    if n < 10 then [DigitChar(n)] else NatToString(n / 10) + [DigitChar(n % 10)]
  }

  /** `str(i)` for a Python int: a minus sign in front of negative numbers. */
  function IntToString(i: int): (s: string)
    ensures |s| >= 1
    ensures i >= 0 <==> IsDigit(s[0])
  {
    if i < 0 then "-" + NatToString(-i) else NatToString(i)
  }
}
