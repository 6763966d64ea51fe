/** `System.Guid` as far as the core uses it: `Guid.Empty`, `ToString()` ("D" format),
    `ToString("N")` and `Guid.TryParse`. */
module Guids {
  import opened Common
  import opened Text

  type Nibble = n: int | 0 <= n < 16

  /** A GUID, as its 32 hexadecimal digits in display order. */
  type Guid = s: seq<Nibble> | |s| == 32 witness seq(32, _ => 0)

  /** `Guid.Empty`: all digits zero. */
  const Empty: Guid := [0, 0, 0, 0, 0, 0, 0, 0, 0, 0, 0, 0, 0, 0, 0, 0, 0, 0, 0, 0, 0, 0, 0, 0, 0, 0, 0, 0, 0, 0, 0, 0]

  /** The lower-case hexadecimal digit .NET prints for `d`. */
  function HexChar(d: Nibble): char {
    if d < 10 then ('0' as int + d) as char else ('a' as int + d - 10) as char
  }

  /** A hexadecimal digit in either case, as `Guid.TryParse` accepts it. */
  predicate IsHexChar(c: char) {
    ('0' <= c <= '9') || ('a' <= c <= 'f') || ('A' <= c <= 'F')
  }

  predicate IsLowerHexChar(c: char) {
    ('0' <= c <= '9') || ('a' <= c <= 'f')
  }

  function HexValue(c: char): Nibble
    requires IsHexChar(c)
  {
    if '0' <= c <= '9' then c as int - '0' as int
    else if 'a' <= c <= 'f' then c as int - 'a' as int + 10
    else c as int - 'A' as int + 10
  }

  predicate AllHex(s: string) {
    forall i :: 0 <= i < |s| ==> IsHexChar(s[i])
  }

  function HexDigits(s: string): (r: seq<Nibble>)
    requires AllHex(s)
    ensures |r| == |s|
  {
    seq(|s|, i requires 0 <= i < |s| => HexValue(s[i]))
  }

  /** `g.ToString("N")`: 32 lower-case hexadecimal digits, nothing else. */
  function FormatN(g: Guid): (s: string)
    ensures |s| == 32
    ensures forall i :: 0 <= i < 32 ==> IsLowerHexChar(s[i]) && HexValue(s[i]) == g[i]
  {
    seq(32, i requires 0 <= i < 32 => HexChar(g[i]))
  }

  /** `g.ToString()`, the "D" format: the digits grouped 8-4-4-4-12 by hyphens. */
  function FormatD(g: Guid): (s: string)
    ensures |s| == 36 && IsDShape(s)
    ensures DigitsOfD(s) == FormatN(g)
    ensures s[..8] == FormatN(g)[..8] && s[9..13] == FormatN(g)[8..12] && s[14..18] == FormatN(g)[12..16]
    ensures s[19..23] == FormatN(g)[16..20] && s[24..] == FormatN(g)[20..]
  {
    var n := FormatN(g);
    var s := n[..8] + "-" + n[8..12] + "-" + n[12..16] + "-" + n[16..20] + "-" + n[20..];
    assert s[..8] == n[..8] && s[9..13] == n[8..12] && s[14..18] == n[12..16];
    assert s[19..23] == n[16..20] && s[24..] == n[20..];
    assert DigitsOfD(s) == n;
    s
  }

  /** The 32 digit positions of a 36-character "D" string. */
  function DigitsOfD(t: string): (r: string)
    requires |t| == 36
    ensures |r| == 32
  {
    t[..8] + t[9..13] + t[14..18] + t[19..23] + t[24..]
  }

  /** Hyphens at positions 8, 13, 18 and 23 and hexadecimal digits everywhere else. */
  predicate IsDShape(t: string) {
    && |t| == 36
    && t[8] == '-' && t[13] == '-' && t[18] == '-' && t[23] == '-'
    && AllHex(DigitsOfD(t))
  }

  /** A group of a "D" string with the legacy prefixes `Guid.TryParse` still strips: one
      optional "+", then one optional "0x" or "0X". */
  function StripGroupPrefix(g: string): (r: string)
    ensures |r| <= |g| && r == g[|g| - |r|..]
  {
    var a := if |g| > 0 && g[0] == '+' then g[1..] else g;
    if |a| > 1 && a[0] == '0' && (a[1] == 'x' || a[1] == 'X') then a[2..] else a
  }

  /** A group read the legacy way: the prefixes count towards the group's fixed width,
      what follows them must be hexadecimal, and the value is that of the digits, here
      written back as the group's full width of digits by padding with zeros. */
  function LegacyGroup(g: string): (r: Option<string>)
    ensures r.Some? ==> |r.value| == |g| && AllHex(r.value)
  {
    var d := StripGroupPrefix(g);
    if AllHex(d) then
      var r := seq(|g| - |d|, _ => '0') + d;
      assert forall i :: 0 <= i < |r| ==> IsHexChar(r[i]) by {
        forall i | 0 <= i < |r| ensures IsHexChar(r[i]) {
          if i >= |g| - |d| { assert r[i] == d[i - (|g| - |d|)]; }
        }
      }
      Some(r)
    else None
  }

  lemma AllHexAppend(x: string, y: string)
    requires AllHex(x) && AllHex(y)
    ensures AllHex(x + y)
  {
    forall i | 0 <= i < |x + y| ensures IsHexChar((x + y)[i]) {
      if i >= |x| { assert (x + y)[i] == y[i - |x|]; }
    }
  }

  /** The 32 digits of a 36-character string with hyphens at 8, 13, 18 and 23 whose five
      groups all read the legacy way. */
  function LegacyDigitsOfD(t: string): (r: Option<string>)
    requires |t| == 36
    ensures r.Some? ==> |r.value| == 32 && AllHex(r.value)
  {
    var a := LegacyGroup(t[..8]);
    var b := LegacyGroup(t[9..13]);
    var c := LegacyGroup(t[14..18]);
    var d := LegacyGroup(t[19..23]);
    var e := LegacyGroup(t[24..]);
    if t[8] == '-' && t[13] == '-' && t[18] == '-' && t[23] == '-'
      && a.Some? && b.Some? && c.Some? && d.Some? && e.Some?
    then
      AllHexAppend(a.value, b.value);
      AllHexAppend(a.value + b.value, c.value);
      AllHexAppend(a.value + b.value + c.value, d.value);
      AllHexAppend(a.value + b.value + c.value + d.value, e.value);
      Some(a.value + b.value + c.value + d.value + e.value)
    else None
  }

  /** The "D" format: plain hexadecimal groups, or failing that, groups with the legacy
      prefixes. */
  function ParseD(t: string): (r: Option<Guid>)
    requires |t| == 36
  {
    if IsDShape(t) then Some(HexDigits(DigitsOfD(t)))
    else
      match LegacyDigitsOfD(t)
      case Some(digits) => Some(HexDigits(digits))
      case None => None
  }

  /** `Guid.TryParse(s, out g)`: the input is trimmed of white space, then accepted in
      the "N" (32 digits), "D" (36 characters), "B" (D in braces) or "P" (D in
      parentheses) format; digits may be in either case, and a group of a D, B or P
      string may carry the legacy "+" and "0x" prefixes within its width. */
  function ParseGuid(s: string): (r: Option<Guid>)
    ensures r.Some? ==> var t := Trim(s, IsWhiteSpace); |t| == 32 || |t| == 36 || |t| == 38
  {
    var t := Trim(s, IsWhiteSpace);
    if |t| == 32 && AllHex(t) then Some(HexDigits(t))
    else if |t| == 36 then ParseD(t)
    else if |t| == 38 && ((t[0] == '{' && t[37] == '}') || (t[0] == '(' && t[37] == ')')) then
      ParseD(t[1..37])
    else None
  }

  /** A plain hexadecimal group reads the same the legacy way, so the legacy reading
      only adds strings and never changes the value of one the plain reading accepts. */
  lemma LegacyGroupOfHex(g: string)
    requires AllHex(g)
    ensures LegacyGroup(g) == Some(g)
  {
    assert StripGroupPrefix(g) == g by {
      if |g| > 1 { assert !IsHexChar('x') && !IsHexChar('X') && !IsHexChar('+'); }
    }
    assert seq(0, _ => '0') + g == g;
  }

  /** "+" takes the place of one leading zero: "+234" reads as "0234". */
  lemma LegacyPlus(d: string)
    requires AllHex(d)
    ensures LegacyGroup("+" + d) == Some("0" + d)
  {
    var g := "+" + d;
    assert g[1..] == d;
    if |d| > 1 && d[0] == '0' { assert IsHexChar(d[1]); }
    assert StripGroupPrefix(g) == d;
    assert seq(1, _ => '0') == "0";
  }

  /** "0x" or "0X" takes the place of two leading zeros: "0x34" reads as "0034". */
  lemma LegacyHex(d: string)
    requires AllHex(d)
    ensures LegacyGroup("0x" + d) == Some("00" + d)
    ensures LegacyGroup("0X" + d) == Some("00" + d)
  {
    assert ("0x" + d)[2..] == d && ("0X" + d)[2..] == d;
    assert StripGroupPrefix("0x" + d) == d;
    assert StripGroupPrefix("0X" + d) == d;
    assert seq(2, _ => '0') == "00";
  }

  /** Both prefixes together take the place of three leading zeros: "+0x4" reads as "0004". */
  lemma LegacyPlusHex(d: string)
    requires AllHex(d)
    ensures LegacyGroup("+0x" + d) == Some("000" + d)
  {
    var g := "+0x" + d;
    assert g[1..] == "0x" + d && ("0x" + d)[2..] == d;
    assert StripGroupPrefix(g) == d;
    assert seq(3, _ => '0') == "000";
  }

  /** A string whose trimmed form has 36 characters is read by the "D" rules alone. */
  lemma ParseGuidOfD(s: string)
    requires |Trim(s, IsWhiteSpace)| == 36
    ensures ParseGuid(s) == ParseD(Trim(s, IsWhiteSpace))
  {
  }

  lemma HexDigitsOfFormatN(g: Guid)
    ensures AllHex(FormatN(g)) && HexDigits(FormatN(g)) == g
  {
  }

  /** Every character of a "D" string is a hyphen or a hexadecimal digit. */
  lemma FormatDAlphabet(g: Guid)
    ensures forall i :: 0 <= i < |FormatD(g)| ==> FormatD(g)[i] == '-' || IsHexChar(FormatD(g)[i])
  {
    var s := FormatD(g);
    forall i | 0 <= i < 36 ensures s[i] == '-' || IsHexChar(s[i]) {
      if i != 8 && i != 13 && i != 18 && i != 23 {
        var j := if i < 8 then i else if i < 13 then i - 1 else if i < 18 then i - 2
                 else if i < 23 then i - 3 else i - 4;
        assert s[i] == DigitsOfD(s)[j];
      }
    }
  }

  /** A "D" string holds no white space, so trimming leaves it alone. */
  lemma FormatDTrimmed(g: Guid)
    ensures Trim(FormatD(g), IsWhiteSpace) == FormatD(g)
  {
    FormatDAlphabet(g);
    TrimNoop(FormatD(g), IsWhiteSpace);
  }

  /** A trimmed "D" string parses to its digits. */
  lemma ParseDShape(t: string)
    requires IsDShape(t) && Trim(t, IsWhiteSpace) == t
    ensures ParseGuid(t) == Some(HexDigits(DigitsOfD(t)))
  {
  }

  /** What `ToString()` prints, `Guid.TryParse` reads back. */
  lemma ParseFormatD(g: Guid)
    ensures ParseGuid(FormatD(g)) == Some(g)
  {
    var s := FormatD(g);
    FormatDTrimmed(g);
    ParseDShape(s);
    HexDigitsOfFormatN(g);
  }

  /** What `ToString("N")` prints, `Guid.TryParse` reads back. */
  lemma ParseFormatN(g: Guid)
    ensures ParseGuid(FormatN(g)) == Some(g)
  {
    var s := FormatN(g);
    HexDigitsOfFormatN(g);
    assert forall i :: 0 <= i < |s| ==> !IsWhiteSpace(s[i]) by {
      forall i | 0 <= i < |s| ensures !IsWhiteSpace(s[i]) {
        assert IsLowerHexChar(s[i]);
      }
    }
    TrimNoop(s, IsWhiteSpace);
    assert Trim(s, IsWhiteSpace) == s;
  }

  /** The first group of a "D" string with its leading zero written as "+". */
  lemma LegacyPlusFirstGroup(g: Guid)
    requires g[0] == 0
    ensures LegacyGroup(("+" + FormatD(g)[1..])[..8]) == Some(FormatN(g)[..8])
  {
    var s := FormatD(g);
    var n := FormatN(g);
    assert ("+" + s[1..])[..8] == "+" + n[1..8] by { assert s[1..8] == s[..8][1..]; }
    assert AllHex(n[1..8]) by { HexDigitsOfFormatN(g); }
    LegacyPlus(n[1..8]);
    assert "0" + n[1..8] == n[..8];
  }

  /** A group after the first of such a string is plain and reads as its digits. */
  lemma LegacyPlusPlainGroup(g: Guid, lo: nat, hi: nat, nlo: nat, nhi: nat)
    requires 9 <= lo <= hi <= 36 && nlo <= nhi <= 32
    requires FormatD(g)[lo..hi] == FormatN(g)[nlo..nhi]
    ensures LegacyGroup(("+" + FormatD(g)[1..])[lo..hi]) == Some(FormatN(g)[nlo..nhi])
  {
    var s := FormatD(g);
    var n := FormatN(g);
    assert ("+" + s[1..])[lo..hi] == s[lo..hi];
    assert AllHex(n[nlo..nhi]) by {
      forall i | 0 <= i < nhi - nlo ensures IsHexChar(n[nlo..nhi][i]) {
        assert n[nlo..nhi][i] == n[nlo + i];
      }
    }
    LegacyGroupOfHex(n[nlo..nhi]);
  }

  /** The last group of such a string reads as the GUID's last 12 digits. */
  lemma LegacyPlusLastGroup(g: Guid)
    ensures LegacyGroup(("+" + FormatD(g)[1..])[24..]) == Some(FormatN(g)[20..])
  {
    var s := FormatD(g);
    var t := "+" + s[1..];
    assert s[24..36] == s[24..] && FormatN(g)[20..32] == FormatN(g)[20..];
    LegacyPlusPlainGroup(g, 24, 36, 20, 32);
    assert t[24..36] == t[24..];
  }

  /** The legacy digits of a GUID's "D" string whose leading zero is written as "+". */
  lemma LegacyPlusDigits(g: Guid)
    requires g[0] == 0
    ensures |"+" + FormatD(g)[1..]| == 36
    ensures LegacyDigitsOfD("+" + FormatD(g)[1..]) == Some(FormatN(g))
  {
    var s := FormatD(g);
    var n := FormatN(g);
    var t := "+" + s[1..];
    LegacyPlusFirstGroup(g);
    LegacyPlusPlainGroup(g, 9, 13, 8, 12);
    LegacyPlusPlainGroup(g, 14, 18, 12, 16);
    LegacyPlusPlainGroup(g, 19, 23, 16, 20);
    LegacyPlusLastGroup(g);
    assert t[8] == s[8] && t[13] == s[13] && t[18] == s[18] && t[23] == s[23];
    assert n[..8] + n[8..12] + n[12..16] + n[16..20] + n[20..] == n;
  }

  /** The legacy "D" reading of a GUID whose leading zero is written as "+". */
  lemma LegacyPlusD(g: Guid)
    requires g[0] == 0
    ensures |"+" + FormatD(g)[1..]| == 36
    ensures ParseD("+" + FormatD(g)[1..]) == Some(g)
  {
    var t := "+" + FormatD(g)[1..];
    assert !IsDShape(t) by {
      assert DigitsOfD(t)[0] == t[0] == '+';
    }
    LegacyPlusDigits(g);
    HexDigitsOfFormatN(g);
  }

  /** Such a string holds no white space, so `Guid.TryParse` does not trim it. */
  lemma LegacyPlusDTrimmed(g: Guid)
    ensures Trim("+" + FormatD(g)[1..], IsWhiteSpace) == "+" + FormatD(g)[1..]
  {
    var s := FormatD(g);
    var t := "+" + s[1..];
    FormatDAlphabet(g);
    forall i | 0 <= i < |t| ensures !IsWhiteSpace(t[i]) {
      if i > 0 { assert t[i] == s[i]; }
    }
    TrimNoop(t, IsWhiteSpace);
  }

  /** A "D" string whose leading zero is written as "+", such as
      "+2345678-1234-1234-1234-123456789abc", still reads as the same GUID. */
  lemma ParseLegacyPlusD(g: Guid)
    requires g[0] == 0
    ensures ParseGuid("+" + FormatD(g)[1..]) == Some(g)
  {
    var t := "+" + FormatD(g)[1..];
    LegacyPlusD(g);
    LegacyPlusDTrimmed(g);
    ParseGuidOfD(t);
  }
}
