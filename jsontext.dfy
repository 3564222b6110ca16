/**
 * `json.dumps` of a list of strings with Python's default options
 * (`ensure_ascii=True`, separators `", "`), which is how the start-task form
 * field `urls` is encoded, and a reader for that text. The reader is the
 * partner of the encoder: `Loads(Dumps(xs)) == Some(xs)` for every list.
 */
module JsonText {
  import opened Wrappers
  import PyText

  /** A lower-case hexadecimal digit. */
  function HexChar(d: nat): char
    requires d < 16
  {
    if d < 10 then ('0' as int + d) as char else ('a' as int + d - 10) as char
  }

  function HexValue(c: char): (r: Option<nat>)
    ensures r.Some? ==> r.value < 16
  {
    if '0' <= c <= '9' then Some((c as int - '0' as int) as nat)
    else if 'a' <= c <= 'f' then Some((c as int - 'a' as int + 10) as nat)
    else if 'A' <= c <= 'F' then Some((c as int - 'A' as int + 10) as nat)
    else None
  }

  /** `'{0:04x}'.format(n)`: four lower-case hexadecimal digits. */
  function Hex4(n: nat): (s: string)
    requires n < 0x10000
    ensures |s| == 4
  {
    [HexChar(n / 0x10 / 0x10 / 0x10), HexChar(n / 0x10 / 0x10 % 0x10), HexChar(n / 0x10 % 0x10), HexChar(n % 0x10)]
  }

  function ParseHex4(s: string): (r: Option<nat>)
    requires |s| == 4
    ensures r.Some? ==> r.value < 0x10000
  {
    match (HexValue(s[0]), HexValue(s[1]), HexValue(s[2]), HexValue(s[3]))
    case (Some(a), Some(b), Some(c), Some(d)) => Some(a * 0x1000 + b * 0x100 + c * 0x10 + d)
    case _ => None
  }

  lemma Hex4RoundTrip(n: nat)
    requires n < 0x10000
    ensures ParseHex4(Hex4(n)) == Some(n)
  {
    var a, b, c, d := n / 0x10 / 0x10 / 0x10, n / 0x10 / 0x10 % 0x10, n / 0x10 % 0x10, n % 0x10;
    var h := Hex4(n);
    assert HexValue(h[0]) == Some(a);
    assert HexValue(h[1]) == Some(b);
    assert HexValue(h[2]) == Some(c);
    assert HexValue(h[3]) == Some(d);
    Hex4Digits(n);
  }

  lemma Hex4Digits(n: nat)
    requires n < 0x10000
    ensures n == n / 0x10 / 0x10 / 0x10 * 0x1000 + n / 0x10 / 0x10 % 0x10 * 0x100 + n / 0x10 % 0x10 * 0x10 + n % 0x10
  {
    var q1 := n / 0x10;
    var q2 := q1 / 0x10;
    assert n == q1 * 0x10 + n % 0x10;
    assert q1 == q2 * 0x10 + q1 % 0x10;
    assert q2 == q2 / 0x10 * 0x10 + q2 % 0x10;
  }

  /**
   * How the encoder writes one character: the quote, the backslash and the
   * five control characters with short escapes get those; other printable
   * ASCII characters stand for themselves; everything else becomes `\uXXXX`,
   * as a UTF-16 surrogate pair above U+FFFF.
   */
  function EscapeChar(c: char): (e: string)
    ensures |e| > 0 && e[0] != '"'
  {
    if c == '"' then ['\\', '"']
    else if c == '\\' then ['\\', '\\']
    else if c == '\n' then ['\\', 'n']
    else if c == '\r' then ['\\', 'r']
    else if c == '\t' then ['\\', 't']
    else if c as int == 0x08 then ['\\', 'b']
    else if c as int == 0x0c then ['\\', 'f']
    else if ' ' <= c <= '~' then [c]
    else if c as int < 0x10000 then ['\\', 'u'] + Hex4(c as int)
    else SurrogateEscape(c as int)
  }

  /** A code point above U+FFFF written as a `\uXXXX\uXXXX` surrogate pair. */
  function SurrogateEscape(cp: int): (e: string)
    requires 0x10000 <= cp < 0x110000
    ensures |e| == 12 && e[0] == '\\'
  {
    var n := cp - 0x10000;
    ['\\', 'u'] + Hex4(0xD800 + n / 0x400) + ['\\', 'u'] + Hex4(0xDC00 + n % 0x400)
  }

  /** The body of an encoded string: every character escaped. */
  function Escape(s: string): string
  {
    if |s| == 0 then "" else EscapeChar(s[0]) + Escape(s[1..])
  }

  predicate IsPrintableAscii(s: string)
  {
    forall i :: 0 <= i < |s| ==> ' ' <= s[i] <= '~'
  }

  lemma HexCharPrintable(d: nat)
    requires d < 16
    ensures ' ' <= HexChar(d) <= '~'
  {
  }

  /** Every escape is printable ASCII, as `ensure_ascii` promises. */
  lemma EscapeCharPrintable(c: char)
    ensures IsPrintableAscii(EscapeChar(c))
  {
    if !(' ' <= c <= '~') && !(c == '\n' || c == '\r' || c == '\t' || c as int == 0x08 || c as int == 0x0c) {
      forall n: nat | n < 0x10000
        ensures IsPrintableAscii(Hex4(n))
      {
        HexCharPrintable(n / 0x10 / 0x10 / 0x10);
        HexCharPrintable(n / 0x10 / 0x10 % 0x10);
        HexCharPrintable(n / 0x10 % 0x10);
        HexCharPrintable(n % 0x10);
      }
    }
  }

  /** An encoded string body is printable ASCII whatever the input. */
  lemma {:induction false} EscapePrintable(s: string)
    ensures IsPrintableAscii(Escape(s))
  {
    if |s| > 0 {
      EscapeCharPrintable(s[0]);
      EscapePrintable(s[1..]);
    }
  }

  function Quote(s: string): string
  {
    "\"" + Escape(s) + "\""
  }

  function QuoteAll(xs: seq<string>): (qs: seq<string>)
    ensures |qs| == |xs|
  {
    if |xs| == 0 then [] else [Quote(xs[0])] + QuoteAll(xs[1..])
  }

  /** `json.dumps(xs)` for a list of strings. */
  function Dumps(xs: seq<string>): string
  {
    "[" + PyText.Join(QuoteAll(xs), ", ") + "]"
  }

  // The reader.

  function SimpleEscape(e: char): Option<char>
  {
    if e == '"' then Some('"')
    else if e == '\\' then Some('\\')
    else if e == '/' then Some('/')
    else if e == 'b' then Some(0x08 as char)
    else if e == 'f' then Some(0x0c as char)
    else if e == 'n' then Some('\n')
    else if e == 'r' then Some('\r')
    else if e == 't' then Some('\t')
    else None
  }

  /** The character written by `\u` + `t`, and what follows it. */
  function ParseUnicodeEscape(t: string): (r: Option<(char, string)>)
    ensures r.Some? ==> |r.value.1| < |t|
  {
    if |t| < 4 then None
    else match ParseHex4(t[..4])
      case None => None
      case Some(v) =>
        if 0xD800 <= v < 0xDC00 then
          if |t| >= 10 && t[4] == '\\' && t[5] == 'u' then
            match ParseHex4(t[6..10])
            case None => None
            case Some(w) =>
              if 0xDC00 <= w < 0xE000
              then Some(((0x10000 + (v - 0xD800) * 0x400 + (w - 0xDC00)) as char, t[10..]))
              else None
          else None
        else if 0xDC00 <= v < 0xE000 then None
        else Some((v as char, t[4..]))
  }

  /** One character of a string body, plain or escaped, and what follows it. */
  function ParseChar(t: string): (r: Option<(char, string)>)
    ensures r.Some? ==> |r.value.1| < |t|
  {
    if |t| == 0 then None
    else if t[0] != '\\' then Some((t[0], t[1..]))
    else if |t| < 2 then None
    else if t[1] == 'u' then ParseUnicodeEscape(t[2..])
    else match SimpleEscape(t[1])
      case Some(c) => Some((c, t[2..]))
      case None => None
  }

  /** A string body up to and including its closing quote. */
  function ParseBody(t: string): (r: Option<(string, string)>)
    ensures r.Some? ==> |r.value.1| < |t|
    decreases |t|
  {
    if |t| == 0 then None
    else if t[0] == '"' then Some(("", t[1..]))
    else match ParseChar(t)
      case None => None
      case Some((c, rest)) =>
        match ParseBody(rest)
        case None => None
        case Some((s, after)) => Some(([c] + s, after))
  }

  function ParseString(t: string): (r: Option<(string, string)>)
    ensures r.Some? ==> |r.value.1| < |t|
  {
    if |t| > 0 && t[0] == '"' then ParseBody(t[1..]) else None
  }

  /** One or more strings separated by `", "` and closed by `]`. */
  function ParseItems(t: string): Option<seq<string>>
    decreases |t|
  {
    match ParseString(t)
    case None => None
    case Some((s, rest)) =>
      if rest == "]" then Some([s])
      else if |rest| >= 2 && rest[..2] == ", " then
        match ParseItems(rest[2..])
        case None => None
        case Some(xs) => Some([s] + xs)
      else None
  }

  /** Reads back the text `Dumps` writes: a list of strings, `", "` between items and no other whitespace. */
  function Loads(t: string): Option<seq<string>>
  {
    if t == "[]" then Some([])
    else if |t| > 0 && t[0] == '[' then ParseItems(t[1..])
    else None
  }

  // The round trip.

  lemma EscapeCharRoundTrip(c: char, rest: string)
    ensures ParseChar(EscapeChar(c) + rest) == Some((c, rest))
  {
    if c == '"' || c == '\\' || c == '\n' || c == '\r' || c == '\t' || c as int == 0x08 || c as int == 0x0c {
      ShortEscapeRoundTrip(c, rest);
    } else if ' ' <= c <= '~' {
      assert EscapeChar(c) == [c];
      assert ([c] + rest)[1..] == rest;
    } else if c as int < 0x10000 {
      BmpEscapeRoundTrip(c, rest);
    } else {
      AstralEscapeRoundTrip(c, rest);
    }
  }

  lemma ShortEscapeRoundTrip(c: char, rest: string)
    requires c == '"' || c == '\\' || c == '\n' || c == '\r' || c == '\t' || c as int == 0x08 || c as int == 0x0c
    ensures ParseChar(EscapeChar(c) + rest) == Some((c, rest))
  {
    var e := EscapeChar(c);
    assert |e| == 2 && e[0] == '\\' && e[1] != 'u';
    assert SimpleEscape(e[1]) == Some(c);
    assert (e + rest)[2..] == rest;
  }

  lemma BmpEscapeRoundTrip(c: char, rest: string)
    requires !(c == '"' || c == '\\' || c == '\n' || c == '\r' || c == '\t' || c as int == 0x08 || c as int == 0x0c)
    requires !(' ' <= c <= '~') && c as int < 0x10000
    ensures ParseChar(EscapeChar(c) + rest) == Some((c, rest))
  {
    var h := Hex4(c as int);
    assert EscapeChar(c) == ['\\', 'u'] + h;
    var u := (EscapeChar(c) + rest)[2..];
    assert u == h + rest;
    assert u[..4] == h;
    Hex4RoundTrip(c as int);
    assert u[4..] == rest;
  }

  lemma AstralEscapeRoundTrip(c: char, rest: string)
    requires c as int >= 0x10000
    ensures ParseChar(EscapeChar(c) + rest) == Some((c, rest))
  {
    assert EscapeChar(c) == SurrogateEscape(c as int);
    SurrogateRoundTrip(c as int, rest);
  }

  lemma SurrogateRoundTrip(cp: int, rest: string)
    requires 0x10000 <= cp < 0x110000
    ensures ParseChar(SurrogateEscape(cp) + rest) == Some((cp as char, rest))
  {
    var n := cp - 0x10000;
    var hi, lo := 0xD800 + n / 0x400, 0xDC00 + n % 0x400;
    SurrogatePair(cp);
    var x := Hex4(hi) + ['\\', 'u'] + Hex4(lo);
    var t := SurrogateEscape(cp) + rest;
    assert SurrogateEscape(cp) == ['\\', 'u'] + x;
    assert t == ['\\', 'u'] + (x + rest);
    DropPrefix(['\\', 'u'], x + rest);
    assert t[0] == '\\' && t[1] == 'u' && t[2..] == x + rest;
    PairParses(hi, lo, rest);
  }

  /** Reading the two halves of a surrogate-pair escape, after its leading `\u`. */
  lemma PairParses(hi: int, lo: int, rest: string)
    requires 0xD800 <= hi < 0xDC00 && 0xDC00 <= lo < 0xE000
    ensures ParseUnicodeEscape(Hex4(hi) + ['\\', 'u'] + Hex4(lo) + rest)
      == Some(((0x10000 + (hi - 0xD800) * 0x400 + (lo - 0xDC00)) as char, rest))
  {
    PairSlices([], Hex4(hi), ['\\', 'u'], Hex4(lo), rest);
    Hex4RoundTrip(hi);
    Hex4RoundTrip(lo);
  }

  /** A code point above U+FFFF splits into a high and a low surrogate that recombine to it. */
  lemma SurrogatePair(cp: int)
    requires 0x10000 <= cp < 0x110000
    ensures var n := cp - 0x10000;
      0xD800 <= 0xD800 + n / 0x400 < 0xDC00 && 0xDC00 <= 0xDC00 + n % 0x400 < 0xE000
      && 0x10000 + (0xD800 + n / 0x400 - 0xD800) * 0x400 + (0xDC00 + n % 0x400 - 0xDC00) == cp
  {
  }

  /** Where the parts of a surrogate-pair escape sit. */
  lemma PairSlices<T>(a: seq<T>, b: seq<T>, c: seq<T>, d: seq<T>, e: seq<T>)
    requires |a| == 0 && |b| == 4 && |c| == 2 && |d| == 4
    ensures var u := a + b + c + d + e;
      |u| >= 10 && u[..4] == b && u[4] == c[0] && u[5] == c[1] && u[6..10] == d && u[10..] == e
  {
    var u := a + b + c + d + e;
    assert u == b + c + d + e;
  }

  lemma {:induction false} BodyRoundTrip(s: string, rest: string)
    ensures ParseBody(Escape(s) + "\"" + rest) == Some((s, rest))
  {
    if |s| > 0 {
      var e := EscapeChar(s[0]);
      var tail := Escape(s[1..]) + "\"" + rest;
      Regroup(e, Escape(s[1..]), "\"", rest);
      EscapeCharRoundTrip(s[0], tail);
      BodyRoundTrip(s[1..], rest);
      assert (e + tail)[0] == e[0];
      ConsTail(s);
    } else {
      assert Escape(s) + "\"" + rest == "\"" + rest;
    }
  }

  /** Regrouping a four-part concatenation to the right. */
  lemma Regroup<T>(a: seq<T>, b: seq<T>, c: seq<T>, d: seq<T>)
    ensures a + b + c + d == a + (b + c + d)
  {
  }

  lemma DropPrefix<T>(a: seq<T>, b: seq<T>)
    ensures (a + b)[..|a|] == a && (a + b)[|a|..] == b
  {
  }

  lemma ConsTail<T>(s: seq<T>)
    requires |s| > 0
    ensures [s[0]] + s[1..] == s
  {
  }

  lemma QuoteRoundTrip(s: string, rest: string)
    ensures ParseString(Quote(s) + rest) == Some((s, rest))
  {
    Regroup("\"", Escape(s), "\"", rest);
    DropPrefix("\"", Escape(s) + "\"" + rest);
    BodyRoundTrip(s, rest);
  }

  lemma {:induction false} ItemsRoundTrip(xs: seq<string>)
    requires |xs| > 0
    ensures ParseItems(PyText.Join(QuoteAll(xs), ", ") + "]") == Some(xs)
  {
    var qs := QuoteAll(xs);
    assert qs[0] == Quote(xs[0]);
    if |xs| == 1 {
      assert PyText.Join(qs, ", ") == Quote(xs[0]);
      QuoteRoundTrip(xs[0], "]");
      assert [xs[0]] == xs;
    } else {
      var joined := PyText.Join(QuoteAll(xs[1..]), ", ");
      var more := joined + "]";
      assert qs[1..] == QuoteAll(xs[1..]);
      assert PyText.Join(qs, ", ") == Quote(xs[0]) + ", " + joined;
      Regroup(Quote(xs[0]), ", ", joined, "]");
      QuoteRoundTrip(xs[0], ", " + more);
      DropPrefix(", ", more);
      var r := ", " + more;
      assert PyText.Join(qs, ", ") + "]" == Quote(xs[0]) + r;
      assert ParseString(Quote(xs[0]) + r) == Some((xs[0], r));
      assert r != "]" && |r| >= 2 && r[..2] == ", " && r[2..] == more;
      ItemsRoundTrip(xs[1..]);
      assert ParseItems(more) == Some(xs[1..]);
      ConsTail(xs);
    }
  }

  /** Reading back what `json.dumps` wrote gives the original list. */
  lemma LoadsDumps(xs: seq<string>)
    ensures Loads(Dumps(xs)) == Some(xs)
  {
    if |xs| > 0 {
      var t := Dumps(xs);
      assert t[1..] == PyText.Join(QuoteAll(xs), ", ") + "]";
      ItemsRoundTrip(xs);
      assert t != "[]" by {
        assert t[1] == '"';
      }
    } else {
      assert Dumps(xs) == "[]";
    }
  }

  /** Different lists are encoded differently. */
  lemma DumpsInjective(xs: seq<string>, ys: seq<string>)
    requires Dumps(xs) == Dumps(ys)
    ensures xs == ys
  {
    LoadsDumps(xs);
    LoadsDumps(ys);
  }
}
