/** JSON values as Python's `json` module decodes them, together with the
    few Python operations the core applies to them: truthiness, `dict.get`
    and `str()`. */
module Json {
  import opened Wrappers

  /** Objects become dicts, arrays lists, `null` becomes `None`. Numbers are
      integers; floating-point numbers are not part of this model. */
  datatype Json =
    | JNull
    | JBool(b: bool)
    | JNum(n: int)
    | JStr(s: string)
    | JArr(items: seq<Json>)
    | JObj(fields: map<string, Json>)

  /** The exceptions the core can raise while it walks a decoded document. */
  datatype PyError =
    | AttributeError      // `.get` on something that is not a dict
    | IndexError          // `[0]` on an empty list or string
    | KeyError(key: Json) // `d[k]` with `k` not in the dict
    | TypeError           // subscripting or iterating a value that does not support it

  /** Python's `bool(v)`: empty containers, zero, `False` and `None` are false. */
  predicate Truthy(v: Json) {
    match v
    case JNull => false
    case JBool(b) => b
    case JNum(n) => n != 0
    case JStr(s) => |s| > 0
    case JArr(items) => |items| > 0
    case JObj(fields) => |fields| > 0
  }

  /** Truthiness of a `.get` result: a missing key gives `None`, which is false. */
  predicate TruthyOpt(o: Option<Json>) {
    o.Some? && Truthy(o.value)
  }

  /** `d.get(key)` on a dict. */
  function Get(fields: map<string, Json>, key: string): Option<Json> {
    if key in fields then Some(fields[key]) else None
  }

  /** `d.get(key)` with a missing key read as `None`. */
  function GetOrNull(fields: map<string, Json>, key: string): Json {
    Get(fields, key).GetOr(JNull)
  }

  /** Python's `v == 0` for a `.get` result: `False == 0` holds in Python. */
  predicate EqualsZero(o: Option<Json>) {
    o == Some(JNum(0)) || o == Some(JBool(false))
  }

  predicate IsDigit(c: char) {
    '0' <= c <= '9'
  }

  function DigitChar(d: nat): (c: char)
    requires d < 10
    ensures IsDigit(c) && c as int - '0' as int == d
  {
    "0123456789"[d]
  }

  /** Decimal digits of `n`, most significant first, without leading zeros. */
  function NatToString(n: nat): (r: string)
    ensures |r| > 0
    ensures forall i :: 0 <= i < |r| ==> IsDigit(r[i])
    ensures |r| > 1 ==> r[0] != '0'
    ensures n > 0 ==> r[0] != '0'
  {
    if n < 10 then [DigitChar(n)] else NatToString(n / 10) + [DigitChar(n % 10)]
  }

  /** The number a run of decimal digits denotes. */
  function DigitsValue(s: string): int
    requires forall i :: 0 <= i < |s| ==> IsDigit(s[i])
  {
    if s == [] then 0 else 10 * DigitsValue(s[..|s| - 1]) + (s[|s| - 1] as int - '0' as int)
  }

  /** Reading the digits of `NatToString(n)` gives back `n`. */
  lemma {:induction false} NatToStringRoundTrip(n: nat)
    ensures DigitsValue(NatToString(n)) == n
  {
    if n >= 10 {
      var r := NatToString(n);
      assert r[..|r| - 1] == NatToString(n / 10);
      NatToStringRoundTrip(n / 10);
    }
  }

  /** `s` is the decimal form Python's `str()` gives the natural `n`: digits
      only, denoting `n`, with no leading zero. */
  predicate CanonicalDecimal(s: string, n: nat) {
    && |s| > 0
    && (forall i :: 0 <= i < |s| ==> IsDigit(s[i]))
    && DigitsValue(s) == n
    && (|s| > 1 || n > 0 ==> s[0] != '0')
  }

  lemma NatToStringCanonical(n: nat)
    ensures CanonicalDecimal(NatToString(n), n)
  {
    NatToStringRoundTrip(n);
  }

  /** Python's `str(v)` as an f-string renders it. Lists and dicts are
      rendered as the markers "[...]" and "{...}" instead of Python's repr. */
  function Str(v: Json): (r: string)
    ensures v.JStr? ==> r == v.s
    ensures v.JNull? ==> r == "None"
    ensures v.JBool? ==> r == (if v.b then "True" else "False")
    ensures v.JNum? && v.n >= 0 ==> CanonicalDecimal(r, v.n)
    ensures v.JNum? && v.n < 0 ==> |r| > 1 && r[0] == '-' && CanonicalDecimal(r[1..], -v.n)
  {
    match v
    case JNull => "None"
    case JBool(b) => if b then "True" else "False"
    case JNum(n) =>
      if n < 0 then
        NatToStringCanonical(-n);
        var digits := NatToString(-n);
        assert ("-" + digits)[1..] == digits;
        "-" + digits
      else
        NatToStringCanonical(n);
        NatToString(n)
    case JStr(s) => s
    case JArr(_) => "[...]"
    case JObj(_) => "{...}"
  }
}
