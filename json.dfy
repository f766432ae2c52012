/**
 * The part of JavaScript's `JSON.stringify` and `JSON.parse` the frontend's
 * session store relies on: string literals with their escapes, and
 * non-negative integers.
 */
module Json {
  import opened Wrappers

  // ---------------------------------------------------------------- strings

  const LowerHex: string := "0123456789abcdef"

  /** How `JSON.stringify` writes one character inside a string literal. */
  function EscapeChar(c: char): (e: string)
    ensures 1 <= |e| && (e[0] == '\\' <==> c == '"' || c == '\\' || c as int < 0x20)
    ensures |e| == 1 ==> e == [c]
  {
    if c == '"' then "\\\""
    else if c == '\\' then "\\\\"
    else if c == '\U{8}' then "\\b"
    else if c == '\t' then "\\t"
    else if c == '\n' then "\\n"
    else if c == '\U{C}' then "\\f"
    else if c == '\r' then "\\r"
    else if c as int < 0x20 then ['\\', 'u', '0', '0', LowerHex[c as int / 16], LowerHex[c as int % 16]]
    else [c]
  }

  /** The characters between the quotes of `JSON.stringify(s)`. */
  function Escape(s: string): string {
    if s == [] then [] else EscapeChar(s[0]) + Escape(s[1..])
  }

  /** `JSON.stringify` of a string. */
  function Quote(s: string): string {
    "\"" + Escape(s) + "\""
  }

  /** The value of a hexadecimal digit of either case. */
  function HexValue(c: char): Option<nat> {
    if '0' <= c <= '9' then Some(c as int - '0' as int)
    else if 'a' <= c <= 'f' then Some(c as int - 'a' as int + 10)
    else if 'A' <= c <= 'F' then Some(c as int - 'A' as int + 10)
    else None
  }

  /** The value of four hexadecimal digits. */
  function Hex4(s: string): Option<nat>
    requires |s| == 4
  {
    match (HexValue(s[0]), HexValue(s[1]), HexValue(s[2]), HexValue(s[3]))
    case (Some(a), Some(b), Some(c), Some(d)) => Some(((a * 16 + b) * 16 + c) * 16 + d)
    case _ => None
  }

  /**
   * The escape after a backslash: the character it stands for and what
   * follows it.  A `\u` escape naming half of a surrogate pair is refused.
   */
  function ParseEscape(s: string): (r: Option<(char, string)>)
    ensures r.Some? ==> |r.value.1| < |s|
  {
    if s == [] then None
    else if s[0] == '"' then Some(('"', s[1..]))
    else if s[0] == '\\' then Some(('\\', s[1..]))
    else if s[0] == '/' then Some(('/', s[1..]))
    else if s[0] == 'b' then Some(('\U{8}', s[1..]))
    else if s[0] == 'f' then Some(('\U{C}', s[1..]))
    else if s[0] == 'n' then Some(('\n', s[1..]))
    else if s[0] == 'r' then Some(('\r', s[1..]))
    else if s[0] == 't' then Some(('\t', s[1..]))
    else if s[0] == 'u' && |s| >= 5 then
      match Hex4(s[1..5])
      case Some(v) => if v < 0xD800 || 0xE000 <= v then Some((v as char, s[5..])) else None
      case None => None
    else None
  }

  /**
   * The rest of a string literal after its opening quote: its value and
   * what follows the closing quote.  Raw control characters are refused.
   */
  function ParseStringBody(s: string): (r: Option<(string, string)>)
    ensures r.Some? ==> |r.value.1| < |s|
    decreases |s|
  {
    if s == [] then None
    else if s[0] == '"' then Some(("", s[1..]))
    else if s[0] as int < 0x20 then None
    else
      var step := if s[0] == '\\' then ParseEscape(s[1..]) else Some((s[0], s[1..]));
      match step
      case None => None
      case Some((c, rest)) =>
        match ParseStringBody(rest)
        case None => None
        case Some((t, after)) => Some(([c] + t, after))
  }

  /** One escaped character is read back as itself, and reading resumes right after it. */
  lemma EscapeCharRoundTrip(c: char, t: string)
    ensures ParseStringBody(EscapeChar(c) + t) ==
      match ParseStringBody(t)
      case None => None
      case Some((u, after)) => Some(([c] + u, after))
  {
    var s := EscapeChar(c) + t;
    if c as int < 0x20 && !(c == '\U{8}' || c == '\t' || c == '\n' || c == '\U{C}' || c == '\r') {
      var hi, lo := c as int / 16, c as int % 16;
      assert s[1..][1..5] == ['0', '0', LowerHex[hi], LowerHex[lo]];
      assert HexValue(LowerHex[hi]) == Some(hi);
      assert HexValue(LowerHex[lo]) == Some(lo);
      assert ParseEscape(s[1..]) == Some((c, t)) by {
        assert Hex4(s[1..][1..5]) == Some(c as int);
        assert (c as int) as char == c;
        assert s[1..][5..] == t;
      }
    } else if |EscapeChar(c)| == 1 {
      assert s[0] == c && s[1..] == t;
    } else {
      assert s[1..] == EscapeChar(c)[1..] + t;
      assert s[1..][1..] == t;
    }
  }

  /** `JSON.parse` inverts `JSON.stringify` on strings. */
  lemma {:induction false} StringRoundTrip(x: string, t: string)
    ensures ParseStringBody(Escape(x) + "\"" + t) == Some((x, t))
  {
    if x == [] {
      assert Escape(x) + "\"" + t == "\"" + t;
    } else {
      StringRoundTrip(x[1..], t);
      assert Escape(x) + "\"" + t == EscapeChar(x[0]) + (Escape(x[1..]) + "\"" + t);
      EscapeCharRoundTrip(x[0], Escape(x[1..]) + "\"" + t);
      assert [x[0]] + x[1..] == x;
    }
  }

  // ---------------------------------------------------------------- numbers

  predicate IsDigit(c: char) {
    '0' <= c <= '9'
  }

  /** The decimal digits of `n`, as `JSON.stringify` writes a non-negative integer. */
  function NatToDigits(n: nat): (s: string)
    ensures |s| >= 1 && forall k :: 0 <= k < |s| ==> IsDigit(s[k])
    ensures n > 0 ==> s[0] != '0'
  {
    if n < 10 then ["0123456789"[n]] else NatToDigits(n / 10) + ["0123456789"[n % 10]]
  }

  /** The value of a run of decimal digits. */
  function DigitsValue(s: string): nat
    requires forall k :: 0 <= k < |s| ==> IsDigit(s[k])
  {
    if s == [] then 0
    else
      assert IsDigit(s[|s| - 1]);
      10 * DigitsValue(s[..|s| - 1]) + (s[|s| - 1] as int - '0' as int)
  }

  lemma {:induction false} DigitsValueOfNat(n: nat)
    ensures DigitsValue(NatToDigits(n)) == n
  {
    if n >= 10 {
      DigitsValueOfNat(n / 10);
      var s := NatToDigits(n);
      assert s[..|s| - 1] == NatToDigits(n / 10);
    }
  }

  /** The length of the run of digits `s` starts with. */
  function DigitRun(s: string): (k: nat)
    ensures k <= |s| && (forall i :: 0 <= i < k ==> IsDigit(s[i])) && (k < |s| ==> !IsDigit(s[k]))
  {
    if s == [] || !IsDigit(s[0]) then 0 else 1 + DigitRun(s[1..])
  }

  /**
   * A non-negative integer and what follows it.  As in JSON, a leading `0`
   * is the whole number, so `01` reads as `0` followed by `1`.
   */
  function ParseNat(s: string): Option<(nat, string)> {
    if s == [] || !IsDigit(s[0]) then None
    else if s[0] == '0' then Some((0, s[1..]))
    else
      var k := DigitRun(s);
      Some((DigitsValue(s[..k]), s[k..]))
  }

  lemma {:induction false} DigitRunConcat(d: string, t: string)
    requires forall k :: 0 <= k < |d| ==> IsDigit(d[k])
    requires t == [] || !IsDigit(t[0])
    ensures DigitRun(d + t) == |d|
  {
    if d == [] {
      assert d + t == t;
    } else {
      DigitRunConcat(d[1..], t);
      assert (d + t)[1..] == d[1..] + t;
      assert (d + t)[0] == d[0];
    }
  }

  /** `JSON.parse` inverts `JSON.stringify` on non-negative integers followed by a non-digit. */
  lemma NatRoundTrip(n: nat, t: string)
    requires t == [] || !IsDigit(t[0])
    ensures ParseNat(NatToDigits(n) + t) == Some((n, t))
  {
    var d := NatToDigits(n);
    var s := d + t;
    assert s[0] == d[0];
    if n == 0 {
      assert d == "0";
      assert s[1..] == t;
    } else {
      DigitRunConcat(d, t);
      assert s[..|d|] == d && s[|d|..] == t;
      DigitsValueOfNat(n);
    }
  }

  // ---------------------------------------------------------------- literal text

  /** `s` with the literal text `lit` removed from its front, if it starts with it. */
  function Expect(lit: string, s: string): (r: Option<string>)
    ensures r.Some? <==> |lit| <= |s| && s[..|lit|] == lit
    ensures r.Some? ==> r.value == s[|lit|..]
  {
    if |lit| <= |s| && s[..|lit|] == lit then Some(s[|lit|..]) else None
  }

  lemma ExpectConcat(lit: string, t: string)
    ensures Expect(lit, lit + t) == Some(t)
  {
    assert (lit + t)[..|lit|] == lit;
    assert (lit + t)[|lit|..] == t;
  }
}
