/**
 * The text Python produces for values the gateway formats into strings:
 * `str(n)` of an integer (used for the multipart keys `"{idx}.file"`),
 * `str(x)` of a decoded JSON value (used when a file path is joined to the
 * CDN base URL) and `sep.join(parts)`.
 */
module PyText {
  import opened Json

  const Digits: string := "0123456789"

  function DigitChar(d: nat): char
    requires d < 10
  {
    Digits[d]
  }

  /** The value of a decimal digit character. */
  function DigitValue(c: char): nat
  {
    if '0' <= c <= '9' then (c as int - '0' as int) as nat else 0
  }

  /** `str(n)` for a non-negative integer: its decimal digits, no leading zero. */
  function Decimal(n: nat): (s: string)
    ensures |s| >= 1
    ensures forall i :: 0 <= i < |s| ==> '0' <= s[i] <= '9'
  {
    if n < 10 then [DigitChar(n)] else Decimal(n / 10) + [DigitChar(n % 10)]
  }

  /** Reads a string of decimal digits back as a number (`int(s)`). */
  function ParseDecimal(s: string): nat
  {
    if |s| == 0 then 0 else 10 * ParseDecimal(s[..|s| - 1]) + DigitValue(s[|s| - 1])
  }

  /** `int(str(n)) == n`. */
  lemma {:induction false} DecimalRoundTrip(n: nat)
    ensures ParseDecimal(Decimal(n)) == n
  {
    var s := Decimal(n);
    if n >= 10 {
      DecimalRoundTrip(n / 10);
      assert s[..|s| - 1] == Decimal(n / 10);
      assert DigitValue(s[|s| - 1]) == n % 10;
    } else {
      assert DigitValue(s[0]) == n;
    }
  }

  /** Different numbers have different decimal texts. */
  lemma DecimalInjective(a: nat, b: nat)
    requires Decimal(a) == Decimal(b)
    ensures a == b
  {
    DecimalRoundTrip(a);
    DecimalRoundTrip(b);
  }

  /** `str(i)` for any integer. */
  function IntText(i: int): string
  {
    if i < 0 then "-" + Decimal(-i) else Decimal(i)
  }

  /** `str(b)` of a boolean. */
  function BoolText(b: bool): string
  {
    if b then "True" else "False"
  }

  /** `s.lower()` for text whose letters are ASCII. */
  function Lower(s: string): (r: string)
  {
    seq(|s|, i requires 0 <= i < |s| => if 'A' <= s[i] <= 'Z' then (s[i] as int + 32) as char else s[i])
  }

  /** `str(b).lower()` is `"true"` or `"false"`. */
  lemma LowerBoolText(b: bool)
    ensures Lower(BoolText(b)) == if b then "true" else "false"
  {
    var r := Lower(BoolText(b));
    if b {
      assert r[0] == 't' && r[1] == 'r' && r[2] == 'u' && r[3] == 'e';
    } else {
      assert r[0] == 'f' && r[1] == 'a' && r[2] == 'l' && r[3] == 's' && r[4] == 'e';
    }
  }

  /** `sep.join(parts)`. */
  function Join(parts: seq<string>, sep: string): string
  {
    if |parts| == 0 then ""
    else if |parts| == 1 then parts[0]
    else parts[0] + sep + Join(parts[1..], sep)
  }

  /**
   * `str(x)` of a decoded JSON value: a string is itself, the scalars print as
   * Python prints them, and a list or dict prints through `Repr` of its parts.
   */
  function Str(j: Json): string
    decreases j, 1
  {
    match j
    case JNull => "None"
    case JBool(b) => BoolText(b)
    case JInt(i) => IntText(i)
    case JString(s) => s
    case JArray(items) =>
      "[" + Join(seq(|items|, k requires 0 <= k < |items| => Repr(items[k])), ", ") + "]"
    case JObject(ms) =>
      "{" + Join(seq(|ms|, k requires 0 <= k < |ms| => Quoted(ms[k].0) + ": " + Repr(ms[k].1)), ", ") + "}"
  }

  /** `repr(x)`: a string in single quotes, anything else as `Str`. */
  function Repr(j: Json): string
    decreases j, 2
  {
    if j.JString? then Quoted(j.s) else Str(j)
  }

  function Quoted(s: string): string
  {
    "'" + s + "'"
  }
}
