/** The string conversions the client performs: integers to decimal text (template
    literals and `String(n)`), bytes to lower-case hex (`Buffer#toString('hex')`),
    JavaScript's `parseInt` without a radix, `Array#join`, `String#split` with a
    one-character separator, and `String#substring(0, n)`. */
module Text {
  import opened Wrappers

  type byte = x: int | 0 <= x < 256

  // ---------------------------------------------------------------------------
  // Decimal text
  // ---------------------------------------------------------------------------

  predicate IsDecimalDigit(c: char) {
    '0' <= c <= '9'
  }

  predicate AllDecimal(s: string) {
    forall i :: 0 <= i < |s| ==> IsDecimalDigit(s[i])
  }

  function DigitChar(d: nat): (c: char)
    requires d < 10
    ensures IsDecimalDigit(c) && c as int - '0' as int == d
  {
    ('0' as int + d) as char
  }

  /** Decimal text of a natural number, as `String(n)` writes it. */
  function NatToDecimal(n: nat): (r: string)
    ensures |r| >= 1 && AllDecimal(r)
    ensures r[0] == '0' ==> n == 0
    decreases n
  {
    if n < 10 then [DigitChar(n)] else NatToDecimal(n / 10) + [DigitChar(n % 10)]
  }

  /** Decimal text of an integer: a minus sign for negatives, no sign otherwise. */
  function IntToString(i: int): (r: string)
    ensures |r| >= 1
    ensures r[0] == '-' <==> i < 0
    ensures i < 0 ==> r[1..] == NatToDecimal(-i)
    ensures i >= 0 ==> r == NatToDecimal(i)
  {
    if i < 0 then "-" + NatToDecimal(-i) else NatToDecimal(i)
  }

  /** The value of a character read as a digit in radix 36 (`0-9`, then `a-z`/`A-Z`
      for 10..35); 36 for any other character, so it is a digit of no radix. */
  function RadixDigit(c: char): (d: nat)
    ensures d <= 36
    ensures d < 10 <==> IsDecimalDigit(c)
  {
    if '0' <= c <= '9' then c as int - '0' as int
    else if 'a' <= c <= 'z' then c as int - 'a' as int + 10
    else if 'A' <= c <= 'Z' then c as int - 'A' as int + 10
    else 36
  }

  predicate AllDigitsOf(s: string, radix: nat) {
    forall i :: 0 <= i < |s| ==> RadixDigit(s[i]) < radix
  }

  /** The number a string of digits denotes in the given radix, most significant first. */
  function DigitsValue(s: string, radix: nat): nat
    requires AllDigitsOf(s, radix)
  {
    if |s| == 0 then 0 else DigitsValue(s[..|s| - 1], radix) * radix + RadixDigit(s[|s| - 1])
  }

  /** Reading back the decimal text of `n` gives `n`. */
  lemma {:induction false} DecimalRoundTrip(n: nat)
    ensures AllDigitsOf(NatToDecimal(n), 10)
    ensures DigitsValue(NatToDecimal(n), 10) == n
    decreases n
  {
    var r := NatToDecimal(n);
    if n >= 10 {
      DecimalRoundTrip(n / 10);
      assert r[..|r| - 1] == NatToDecimal(n / 10);
    }
  }

  /** Length of the longest prefix of `s` made of digits of `radix`. */
  function DigitRun(s: string, radix: nat): (k: nat)
    ensures k <= |s|
    ensures AllDigitsOf(s[..k], radix)
    ensures k < |s| ==> RadixDigit(s[k]) >= radix
  {
    if |s| == 0 || RadixDigit(s[0]) >= radix then 0
    else
      var k := 1 + DigitRun(s[1..], radix);
      assert s[..k] == [s[0]] + s[1..][..k - 1];
      k
  }

  lemma {:induction false} DigitRunOfDigits(a: string, b: string, radix: nat)
    requires AllDigitsOf(a, radix)
    requires |b| == 0 || RadixDigit(b[0]) >= radix
    ensures DigitRun(a + b, radix) == |a|
    decreases |a|
  {
    if |a| > 0 {
      assert (a + b)[1..] == a[1..] + b;
      DigitRunOfDigits(a[1..], b, radix);
    } else {
      assert a + b == b;
    }
  }

  // ---------------------------------------------------------------------------
  // parseInt
  // ---------------------------------------------------------------------------

  /** ECMAScript WhiteSpace and LineTerminator code points (the Zs category as of
      Unicode 15, plus TAB, VT, FF, ZWNBSP, LF, CR, LS and PS). */
  predicate IsJsWhitespace(c: char) {
    || c == '\t' || c == '\n' || c == '\U{000B}' || c == '\U{000C}' || c == '\r'
    || c == ' ' || c == '\U{00A0}' || c == '\U{1680}'
    || ('\U{2000}' <= c <= '\U{200A}')
    || c == '\U{2028}' || c == '\U{2029}' || c == '\U{202F}' || c == '\U{205F}'
    || c == '\U{3000}' || c == '\U{FEFF}'
  }

  /** `s` without its leading white space. */
  function TrimStart(s: string): (r: string)
    ensures |r| <= |s| && r == s[|s| - |r|..]
    ensures forall i :: 0 <= i < |s| - |r| ==> IsJsWhitespace(s[i])
    ensures |r| > 0 ==> !IsJsWhitespace(r[0])
  {
    if |s| > 0 && IsJsWhitespace(s[0]) then TrimStart(s[1..]) else s
  }

  /** `parseInt(s)` with no radix: leading white space is skipped, then one optional
      sign, then the magnitude is read. No digit at all is NaN, written `None`. */
  function ParseInt(s: string): Option<int> {
    ParseSigned(TrimStart(s))
  }

  /** `parseInt` after white space: one optional sign, then the magnitude. */
  function ParseSigned(t: string): Option<int> {
    var negative := |t| > 0 && t[0] == '-';
    var u := if |t| > 0 && (t[0] == '-' || t[0] == '+') then t[1..] else t;
    match ParseMagnitude(u)
    case None => None
    case Some(m) => if negative then Some(-m) else Some(m)
  }

  /** The unsigned part of `parseInt`: a `0x`/`0X` prefix selects radix 16, otherwise
      radix 10, and the longest run of digits that follows is the value. */
  function ParseMagnitude(u: string): Option<int> {
    var hex := |u| >= 2 && u[0] == '0' && (u[1] == 'x' || u[1] == 'X');
    var radix := if hex then 16 else 10;
    var digits := if hex then u[2..] else u;
    var z := digits[..DigitRun(digits, radix)];
    if |z| == 0 then None else Some(DigitsValue(z, radix))
  }

  /** The decimal text of any integer parses back to it, whatever white space comes
      before and whatever follows, as long as what follows cannot extend the number
      (a decimal digit) or turn a lone `0` into a hex prefix (`x`/`X`). So
      `parseInt("3")`, `parseInt(" -12")` and `parseInt("7abc")` give 3, -12 and 7. */
  lemma {:induction false} ParseIntOfDecimal(space: string, n: int, rest: string)
    requires forall i :: 0 <= i < |space| ==> IsJsWhitespace(space[i])
    requires |rest| == 0 || (!IsDecimalDigit(rest[0]) && rest[0] != 'x' && rest[0] != 'X')
    ensures ParseInt(space + (IntToString(n) + rest)) == Some(n)
  {
    var x := IntToString(n) + rest;
    FirstCharOfNumber(n, rest);
    NoSpaceBeforeNumber(x[0]);
    TrimStartSkipsSpace(space, x);
    SignedOfDecimal(n, rest);
  }

  lemma FirstCharOfNumber(n: int, rest: string)
    ensures |IntToString(n) + rest| > 0
    ensures var c := (IntToString(n) + rest)[0]; c == '-' || IsDecimalDigit(c)
  {
    var d := IntToString(n);
    assert (d + rest)[0] == d[0];
    if n >= 0 {
      assert d == NatToDecimal(n);
    }
  }

  /** A sign or a digit is not white space. */
  lemma NoSpaceBeforeNumber(c: char)
    requires c == '-' || IsDecimalDigit(c)
    ensures !IsJsWhitespace(c)
  {
  }

  /** `ParseIntOfDecimal` with no white space in front. */
  lemma ParseIntOfDecimalText(n: int, rest: string)
    requires |rest| == 0 || (!IsDecimalDigit(rest[0]) && rest[0] != 'x' && rest[0] != 'X')
    ensures ParseInt(IntToString(n) + rest) == Some(n)
  {
    ParseIntOfDecimal("", n, rest);
    assert "" + (IntToString(n) + rest) == IntToString(n) + rest;
  }

  lemma SignedOfDecimal(n: int, rest: string)
    requires |rest| == 0 || (!IsDecimalDigit(rest[0]) && rest[0] != 'x' && rest[0] != 'X')
    ensures ParseSigned(IntToString(n) + rest) == Some(n)
  {
    if n < 0 {
      var u := NatToDecimal(-n) + rest;
      assert IntToString(n) + rest == "-" + u;
      MagnitudeOfDecimal(-n, rest);
      SignedNegative(u, -n);
    } else {
      var u := NatToDecimal(n) + rest;
      assert IntToString(n) + rest == u;
      MagnitudeOfDecimal(n, rest);
      SignedUnsigned(u, n);
    }
  }

  lemma SignedNegative(u: string, m: nat)
    requires ParseMagnitude(u) == Some(m)
    ensures ParseSigned("-" + u) == Some(0 - m)
  {
    assert ("-" + u)[1..] == u;
  }

  lemma SignedUnsigned(u: string, m: nat)
    requires ParseMagnitude(u) == Some(m)
    requires |u| > 0 && IsDecimalDigit(u[0])
    ensures ParseSigned(u) == Some(m)
  {
  }

  lemma {:induction false} MagnitudeOfDecimal(m: nat, rest: string)
    requires |rest| == 0 || (!IsDecimalDigit(rest[0]) && rest[0] != 'x' && rest[0] != 'X')
    ensures ParseMagnitude(NatToDecimal(m) + rest) == Some(m)
  {
    var d := NatToDecimal(m);
    var u := d + rest;
    if |d| >= 2 {
      assert u[1] == d[1];
    } else {
      assert |rest| > 0 ==> u[1] == rest[0];
    }
    DecimalRoundTrip(m);
    DigitRunOfDigits(d, rest, 10);
    assert u[..|d|] == d;
  }

  lemma {:induction false} TrimStartSkipsSpace(space: string, x: string)
    requires forall i :: 0 <= i < |space| ==> IsJsWhitespace(space[i])
    requires |x| > 0 && !IsJsWhitespace(x[0])
    ensures TrimStart(space + x) == x
    decreases |space|
  {
    if |space| > 0 {
      assert (space + x)[1..] == space[1..] + x;
      TrimStartSkipsSpace(space[1..], x);
    } else {
      assert space + x == x;
    }
  }

  /** After white space, anything but a sign or a decimal digit makes `parseInt` NaN. */
  lemma ParseIntRejects(s: string)
    requires var t := TrimStart(s); |t| == 0 || (t[0] != '-' && t[0] != '+' && !IsDecimalDigit(t[0]))
    ensures ParseInt(s) == None
  {
  }

  // ---------------------------------------------------------------------------
  // Lower-case hex, as Node's `Buffer#toString('hex')` writes it
  // ---------------------------------------------------------------------------

  predicate IsHexChar(c: char) {
    '0' <= c <= '9' || 'a' <= c <= 'f'
  }

  predicate AllHex(s: string) {
    forall i :: 0 <= i < |s| ==> IsHexChar(s[i])
  }

  function HexChar(d: nat): (c: char)
    requires d < 16
    ensures IsHexChar(c)
  {
    if d < 10 then ('0' as int + d) as char else ('a' as int + d - 10) as char
  }

  function HexValue(c: char): (d: nat)
    requires IsHexChar(c)
    ensures d < 16
  {
    if c <= '9' then c as int - '0' as int else c as int - 'a' as int + 10
  }

  /** Two lower-case hex digits per byte, high nibble first. */
  function BytesToHex(bs: seq<byte>): (r: string)
    ensures |r| == 2 * |bs|
    ensures AllHex(r)
  {
    if |bs| == 0 then ""
    else [HexChar(bs[0] / 16), HexChar(bs[0] % 16)] + BytesToHex(bs[1..])
  }

  /** Decoding of an even-length lower-case hex string, two digits per byte. */
  function HexToBytes(s: string): (r: seq<byte>)
    requires |s| % 2 == 0 && AllHex(s)
    ensures |r| == |s| / 2
  {
    if |s| == 0 then []
    else [HexValue(s[0]) * 16 + HexValue(s[1])] + HexToBytes(s[2..])
  }

  /** Hex encoding loses nothing: the bytes come back from their hex text. */
  lemma {:induction false} HexRoundTrip(bs: seq<byte>)
    ensures HexToBytes(BytesToHex(bs)) == bs
  {
    if |bs| > 0 {
      var r := BytesToHex(bs);
      assert r[2..] == BytesToHex(bs[1..]);
      HexRoundTrip(bs[1..]);
    }
  }

  // ---------------------------------------------------------------------------
  // join, split, substring
  // ---------------------------------------------------------------------------

  /** `parts.join(sep)`: the empty list joins to the empty string. */
  function Join(parts: seq<string>, sep: string): string {
    if |parts| == 0 then ""
    else if |parts| == 1 then parts[0]
    else parts[0] + sep + Join(parts[1..], sep)
  }

  function IndexOf(s: string, c: char): (i: nat)
    requires c in s
    ensures i < |s| && s[i] == c && c !in s[..i]
  {
    if s[0] == c then 0
    else
      var i := 1 + IndexOf(s[1..], c);
      assert s[..i] == [s[0]] + s[1..][..i - 1];
      i
  }

  /** `s.split(sep)` for a one-character separator: the pieces between separators,
      so there is always at least one piece. */
  function Split(s: string, sep: char): (r: seq<string>)
    ensures |r| >= 1
    decreases |s|
  {
    if sep !in s then [s]
    else
      var i := IndexOf(s, sep);
      [s[..i]] + Split(s[i + 1..], sep)
  }

  /** Splitting a join on its separator recovers the parts, when no part holds the
      separator. */
  lemma {:induction false} SplitJoin(parts: seq<string>, sep: char)
    requires |parts| >= 1
    requires forall k :: 0 <= k < |parts| ==> sep !in parts[k]
    ensures Split(Join(parts, [sep]), sep) == parts
  {
    if |parts| > 1 {
      var s := Join(parts, [sep]);
      var rest := Join(parts[1..], [sep]);
      assert s == parts[0] + [sep] + rest;
      assert s[|parts[0]|] == sep;
      assert s[..|parts[0]|] == parts[0];
      assert IndexOf(s, sep) == |parts[0]|;
      assert s[|parts[0]| + 1..] == rest;
      SplitJoin(parts[1..], sep);
    }
  }

  /** `s.substring(0, n)` for `n >= 0`: at most the first `n` characters. */
  function Prefix(s: string, n: nat): (r: string)
    ensures |r| == if n <= |s| then n else |s|
    ensures r <= s
  {
    if n <= |s| then s[..n] else s
  }
}
