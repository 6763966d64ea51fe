/** The .NET string and number primitives the core relies on: `char.IsWhiteSpace`,
    `string.IsNullOrWhiteSpace`, `ToLower`, `int.ToString()` and `int.TryParse`. */
module Text {
  import opened Common

  /** `char.IsWhiteSpace`: the Unicode separators plus the control characters
      U+0009..U+000D, U+0085. */
  predicate IsWhiteSpace(c: char) {
    || c == ' '
    || ('\t' <= c <= '\r')
    || c == '\U{85}'
    || c == '\U{A0}'
    || c == '\U{1680}'
    || ('\U{2000}' <= c <= '\U{200A}')
    || c == '\U{2028}'
    || c == '\U{2029}'
    || c == '\U{202F}'
    || c == '\U{205F}'
    || c == '\U{3000}'
  }

  /** The white space `NumberStyles.AllowLeadingWhite`/`AllowTrailingWhite` skip:
      U+0009..U+000D and U+0020 only. */
  predicate IsNumberWhite(c: char) {
    c == ' ' || ('\t' <= c <= '\r')
  }

  /** How many leading characters of `s` satisfy `w`. */
  function LeadingCount(s: string, w: char -> bool): (n: nat)
    ensures n <= |s|
    ensures forall i :: 0 <= i < n ==> w(s[i])
    ensures n == |s| || !w(s[n])
  {
    if s == [] || !w(s[0]) then 0 else 1 + LeadingCount(s[1..], w)
  }

  /** How many trailing characters of `s` satisfy `w`. */
  function TrailingCount(s: string, w: char -> bool): (n: nat)
    ensures n <= |s|
    ensures forall i :: |s| - n <= i < |s| ==> w(s[i])
    ensures n == |s| || !w(s[|s| - n - 1])
  {
    if s == [] || !w(s[|s| - 1]) then 0 else 1 + TrailingCount(s[..|s| - 1], w)
  }

  /** Drops the longest prefix made of characters satisfying `w`. */
  function TrimStart(s: string, w: char -> bool): (r: string)
    ensures |r| <= |s| && r == s[|s| - |r|..]
    ensures forall i :: 0 <= i < |s| - |r| ==> w(s[i])
    ensures r == [] || !w(r[0])
  {
    s[LeadingCount(s, w)..]
  }

  /** Drops the longest suffix made of characters satisfying `w`. */
  function TrimEnd(s: string, w: char -> bool): (r: string)
    ensures |r| <= |s| && r == s[..|r|]
    ensures forall i :: |r| <= i < |s| ==> w(s[i])
    ensures r == [] || !w(r[|r| - 1])
  {
    s[..|s| - TrailingCount(s, w)]
  }

  function Trim(s: string, w: char -> bool): string {
    TrimEnd(TrimStart(s, w), w)
  }

  /** A string in which no character satisfies `w` is its own trim. */
  lemma TrimNoop(s: string, w: char -> bool)
    requires forall i :: 0 <= i < |s| ==> !w(s[i])
    ensures Trim(s, w) == s
  {
  }

  /** `string.IsNullOrWhiteSpace`. */
  predicate IsNullOrWhiteSpace(s: Option<string>) {
    s.None? || forall i :: 0 <= i < |s.value| ==> IsWhiteSpace(s.value[i])
  }

  /** `char.ToLower` restricted to ASCII letters. */
  function LowerChar(c: char): char {
    if 'A' <= c <= 'Z' then (c as int + 32) as char else c
  }

  /** `string.ToLower()`: same length, every character lowered. */
  function ToLower(s: string): (r: string)
    ensures |r| == |s|
    ensures forall i :: 0 <= i < |s| ==> r[i] == LowerChar(s[i])
  {
    seq(|s|, i requires 0 <= i < |s| => LowerChar(s[i]))
  }

  predicate IsDigit(c: char) {
    '0' <= c <= '9'
  }

  predicate AllDigits(s: string) {
    forall i :: 0 <= i < |s| ==> IsDigit(s[i])
  }

  function DigitValue(c: char): nat
    requires IsDigit(c)
  {
    c as int - '0' as int
  }

  function DigitChar(d: nat): (c: char)
    requires d < 10
    ensures IsDigit(c) && DigitValue(c) == d
  {
    ('0' as int + d) as char
  }

  /** The number a string of decimal digits denotes. */
  function DecimalValue(s: string): nat
    requires AllDigits(s)
  {
    if s == [] then 0 else 10 * DecimalValue(s[..|s| - 1]) + DigitValue(s[|s| - 1])
  }

  /** `n.ToString()` for a non-negative `n`: a non-empty digit string that denotes `n`. */
  function NatToDecimal(n: nat): (s: string)
    ensures |s| > 0 && AllDigits(s)
    ensures DecimalValue(s) == n
    ensures n < 10 <==> |s| == 1
  {
    if n < 10 then [DigitChar(n)]
    else
      var prefix := NatToDecimal(n / 10);
      var s := prefix + [DigitChar(n % 10)];
      assert s[..|s| - 1] == prefix;
      s
  }

  /** `n.ToString()` with the invariant culture's minus sign. */
  function IntToDecimal(n: int): (s: string)
    ensures |s| > 0
    ensures n >= 0 ==> AllDigits(s)
    ensures n < 0 ==> s[0] == '-' && AllDigits(s[1..])
  {
    if n < 0 then "-" + NatToDecimal(-n) else NatToDecimal(n)
  }

  const Int32Min: int := -0x8000_0000
  const Int32Max: int := 0x7FFF_FFFF

  /** The value of an optionally signed run of ASCII digits, if that is what `t` is. */
  function ParseInteger(t: string): (r: Option<int>)
    ensures r.Some? ==> t != []
  {
    if t != [] && (t[0] == '-' || t[0] == '+') then
      var digits := t[1..];
      if digits != [] && AllDigits(digits) then
        Some(if t[0] == '-' then -(DecimalValue(digits) as int) else DecimalValue(digits) as int)
      else None
    else if t != [] && AllDigits(t) then Some(DecimalValue(t))
    else None
  }

  /** The character U+0000, which .NET's integer parser tolerates at the very end. */
  predicate IsNul(c: char) {
    c == '\0'
  }

  /** `int.TryParse(s, out v)` with `NumberStyles.Integer`: an optionally signed digit run
      between number white space, optionally followed by a run of U+0000 characters,
      whose value lies in the 32-bit range. `null` and everything else fail. */
  function TryParseInt32(s: Option<string>): (r: Option<int>)
    ensures r.Some? ==> s.Some? && Int32Min <= r.value <= Int32Max
  {
    match s
    case None => None
    case Some(text) =>
      match ParseInteger(Trim(TrimEnd(text, IsNul), IsNumberWhite))
      case Some(v) => if Int32Min <= v <= Int32Max then Some(v) else None
      case None => None
  }

  /** `ToString()` never writes number white space or U+0000. */
  lemma NoNumberWhite(n: int)
    ensures forall i :: 0 <= i < |IntToDecimal(n)| ==> !IsNumberWhite(IntToDecimal(n)[i]) && !IsNul(IntToDecimal(n)[i])
  {
    var s := IntToDecimal(n);
    forall i | 0 <= i < |s| ensures !IsNumberWhite(s[i]) && !IsNul(s[i]) {
      if n < 0 && i > 0 { assert s[i] == s[1..][i - 1]; }
    }
  }

  /** The digit run `ToString()` writes reads back as the same number. */
  lemma ParseIntegerOfDecimal(n: int)
    ensures ParseInteger(IntToDecimal(n)) == Some(n)
  {
    if n < 0 {
      var s := IntToDecimal(n);
      assert s[1..] == NatToDecimal(-n);
    }
  }

  /** What `ToString()` prints, `TryParse` reads back. */
  lemma TryParseInt32RoundTrip(n: int)
    requires Int32Min <= n <= Int32Max
    ensures TryParseInt32(Some(IntToDecimal(n))) == Some(n)
  {
    var s := IntToDecimal(n);
    NoNumberWhite(n);
    TrimNoop(s, IsNumberWhite);
    ParseIntegerOfDecimal(n);
    assert ParseInteger(Trim(s, IsNumberWhite)) == Some(n);
  }

  /** `n` copies of U+0000. */
  function Nuls(n: nat): (r: string)
    ensures |r| == n && forall i :: 0 <= i < n ==> IsNul(r[i])
  {
    seq(n, _ => '\0')
  }

  /** Trailing U+0000 characters vanish under `TrimEnd`, however many there are. */
  lemma {:induction false} TrimEndAppendNuls(s: string, n: nat)
    ensures TrimEnd(s + Nuls(n), IsNul) == TrimEnd(s, IsNul)
  {
    if n == 0 {
      assert s + Nuls(n) == s;
    } else {
      var t := s + Nuls(n - 1);
      var u := t + ['\0'];
      assert s + Nuls(n) == u;
      assert u[..|u| - 1] == t;
      assert TrailingCount(u, IsNul) == 1 + TrailingCount(t, IsNul);
      TrimEndAppendNuls(s, n - 1);
      assert TrimEnd(u, IsNul) == t[..|t| - TrailingCount(t, IsNul)];
    }
  }

  /** `int.TryParse` reads a string followed by U+0000 characters as the string alone. */
  lemma TryParseIgnoresTrailingNuls(text: string, n: nat)
    ensures TryParseInt32(Some(text + Nuls(n))) == TryParseInt32(Some(text))
  {
    TrimEndAppendNuls(text, n);
  }

  /** So `"12\0"` reads as 12, like `"12"`. */
  lemma TryParseInt32WithNuls(v: int, n: nat)
    requires Int32Min <= v <= Int32Max
    ensures TryParseInt32(Some(IntToDecimal(v) + Nuls(n))) == Some(v)
  {
    TryParseIgnoresTrailingNuls(IntToDecimal(v), n);
    TryParseInt32RoundTrip(v);
  }
}
