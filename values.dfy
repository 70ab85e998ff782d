/**
 * The dynamically typed values the engine handles (tag values, query values,
 * payloads), and the three conversions of the Python runtime it relies on:
 * `int(v)`, `bool(v)` and `str(n)` for an integer `n`.
 */
module Values {
  import opened Wrappers

  /** A Python object as far as the engine distinguishes it: None, int, str or bool. */
  datatype Value = NoneV | IntV(i: int) | StrV(s: string) | BoolV(b: bool)

  /**
   * Python's `==` (and hence set membership and dictionary lookup) on these
   * values: True equals 1 and False equals 0; otherwise equality of values.
   */
  predicate PyEq(a: Value, b: Value)
  {
    match (a, b)
    case (IntV(i), BoolV(c)) => i == (if c then 1 else 0)
    case (BoolV(c), IntV(i)) => i == (if c then 1 else 0)
    case _ => a == b
  }

  predicate IsDigit(c: char) { '0' <= c <= '9' }

  predicate AllDigits(s: string) { forall k | 0 <= k < |s| :: IsDigit(s[k]) }

  /** The number spelled by a string of decimal digits, most significant first. */
  function DigitsValue(s: string): (n: nat)
    requires AllDigits(s)
    decreases |s|
  {
    if s == [] then 0 else DigitsValue(s[..|s| - 1]) * 10 + (s[|s| - 1] as int - '0' as int)
  }

  /**
   * `int(s)` on a string: an optional sign followed by one or more decimal digits.
   * Leading zeros are accepted, as Python does.
   */
  function ParseInt(s: string): (r: Option<int>)
    ensures r.Some? ==> |s| > 0
    ensures |s| > 0 && AllDigits(s) ==> r == Some(DigitsValue(s))
  {
    if |s| > 1 && (s[0] == '+' || s[0] == '-') && AllDigits(s[1..]) then
      var d: int := DigitsValue(s[1..]);
      Some(if s[0] == '-' then -d else d)
    else if |s| > 0 && AllDigits(s) then
      Some(DigitsValue(s))
    else
      None
  }

  function DigitChar(d: nat): (c: char)
    requires d < 10
    ensures IsDigit(c) && c as int - '0' as int == d
  {
    ('0' as int + d) as char
  }

  /** `str(n)` for a non-negative integer: its shortest decimal spelling. */
  function ShowNat(n: nat): (s: string)
    ensures |s| > 0 && AllDigits(s)
    decreases n
  {
    if n < 10 then [DigitChar(n)] else ShowNat(n / 10) + [DigitChar(n % 10)]
  }

  /** `str(n)` for any integer. */
  function ShowInt(n: int): (s: string)
    ensures |s| > 0
  {
    if n < 0 then "-" + ShowNat(-n) else ShowNat(n)
  }

  lemma {:induction false} DigitsOfShowNat(n: nat)
    ensures DigitsValue(ShowNat(n)) == n
    decreases n
  {
    var s := ShowNat(n);
    if n >= 10 {
      assert s[..|s| - 1] == ShowNat(n / 10);
      DigitsOfShowNat(n / 10);
    }
  }

  /** `int(str(n)) == n`: the spelling of an integer parses back to it. */
  lemma ParseShowInt(n: int)
    ensures ParseInt(ShowInt(n)) == Some(n)
  {
    if n < 0 {
      var s := ShowInt(n);
      assert s[1..] == ShowNat(-n);
      DigitsOfShowNat(-n);
    } else {
      DigitsOfShowNat(n);
    }
  }

  /** Python's `int(v)`; None when it raises. */
  function ToInt(v: Value): (r: Option<int>)
    ensures v.IntV? ==> r == Some(v.i)
    ensures v.NoneV? ==> r.None?
  {
    match v
    case NoneV => None
    case IntV(i) => Some(i)
    case StrV(s) => ParseInt(s)
    case BoolV(b) => Some(if b then 1 else 0)
  }

  /** Python's `bool(v)` (truthiness); it never raises on these values. */
  function ToBool(v: Value): (r: bool)
    ensures v.BoolV? ==> r == v.b
  {
    match v
    case NoneV => false
    case IntV(i) => i != 0
    case StrV(s) => s != ""
    case BoolV(b) => b
  }
}
