/**
 * The Python string and integer built-ins the handlers rely on:
 * `str.strip()`, `str.lower()`, `' '.join(...)`, `str(int)` and `int(str)`.
 */
module Text {
  import opened Wrappers

  /** Python's `str.isspace()` for one character: the whitespace `str.strip()` removes. */
  predicate IsSpace(c: char) {
    var n := c as int;
    n == 0x20 || (0x09 <= n <= 0x0D) || (0x1C <= n <= 0x1F) || n == 0x85 || n == 0xA0
    || n == 0x1680 || (0x2000 <= n <= 0x200A) || n == 0x2028 || n == 0x2029
    || n == 0x202F || n == 0x205F || n == 0x3000
  }

  /** `s` without its leading whitespace. */
  function StripLeft(s: string): string {
    if s != [] && IsSpace(s[0]) then StripLeft(s[1..]) else s
  }

  /** `s` without its trailing whitespace. */
  function StripRight(s: string): string {
    if s != [] && IsSpace(s[|s| - 1]) then StripRight(s[..|s| - 1]) else s
  }

  /** Python's `s.strip()`. */
  function Strip(s: string): string {
    StripRight(StripLeft(s))
  }

  lemma {:induction false} StripLeftRemovesLeadingSpace(s: string)
    ensures var r := StripLeft(s);
            && |r| <= |s| && r == s[|s| - |r|..]
            && (forall k :: 0 <= k < |s| - |r| ==> IsSpace(s[k]))
            && (r != [] ==> !IsSpace(r[0]))
  {
    if s != [] && IsSpace(s[0]) {
      var t := s[1..];
      StripLeftRemovesLeadingSpace(t);
      var r := StripLeft(t);
      assert StripLeft(s) == r;
      assert |s| - |r| == 1 + (|t| - |r|);
      assert t[|t| - |r|..] == s[|s| - |r|..];
      forall k | 0 < k < |s| - |r|
        ensures IsSpace(s[k])
      {
        assert s[k] == t[k - 1];
      }
    }
  }

  lemma {:induction false} StripRightRemovesTrailingSpace(s: string)
    ensures var r := StripRight(s);
            && |r| <= |s| && r == s[..|r|]
            && (forall k :: |r| <= k < |s| ==> IsSpace(s[k]))
            && (r != [] ==> !IsSpace(r[|r| - 1]))
  {
    if s != [] && IsSpace(s[|s| - 1]) {
      var t := s[..|s| - 1];
      StripRightRemovesTrailingSpace(t);
      var r := StripRight(t);
      assert t[..|r|] == s[..|r|];
      forall k | |r| <= k < |s| - 1
        ensures IsSpace(s[k])
      {
        assert s[k] == t[k];
      }
    }
  }

  /**
   * `Strip(s)` is the slice of `s` left after cutting whitespace from both ends: what is
   * cut off is whitespace, and what is left neither starts nor ends with whitespace.
   */
  lemma StripIsTrim(s: string)
    ensures var r := Strip(s);
            && (r != [] ==> !IsSpace(r[0]) && !IsSpace(r[|r| - 1]))
            && exists i {:trigger s[i..]} ::
                 && 0 <= i && i + |r| <= |s| && r == s[i..i + |r|]
                 && (forall k :: 0 <= k < i ==> IsSpace(s[k]))
                 && (forall k :: i + |r| <= k < |s| ==> IsSpace(s[k]))
  {
    var l := StripLeft(s);
    StripLeftRemovesLeadingSpace(s);
    StripRightRemovesTrailingSpace(l);
    var r := StripRight(l);
    var i := |s| - |l|;
    assert l == s[i..];
    assert r == s[i..i + |r|];
    forall k | i + |r| <= k < |s|
      ensures IsSpace(s[k])
    {
      assert s[k] == l[k - i];
    }
    if r != [] {
      assert r[0] == l[0];
    }
  }

  /**
   * Python's `str.lower()` on one character, for the scripts the bot's users write in:
   * ASCII `A`-`Z` and the Cyrillic capitals U+0400-U+042F.
   */
  function LowerChar(c: char): char {
    if 'A' <= c <= 'Z' then (c as int + 0x20) as char
    else if 0x410 <= c as int <= 0x42F then (c as int + 0x20) as char
    else if 0x400 <= c as int <= 0x40F then (c as int + 0x50) as char
    else c
  }

  /** Python's `s.lower()`, character by character. */
  function Lower(s: string): (r: string)
    ensures |r| == |s|
  {
    seq(|s|, i requires 0 <= i < |s| => LowerChar(s[i]))
  }

  /** Lower-casing a character never turns whitespace into non-whitespace or back. */
  lemma LowerCharKeepsSpace(c: char)
    ensures IsSpace(LowerChar(c)) <==> IsSpace(c)
  {
  }

  lemma {:induction false} StripLeftLower(s: string)
    ensures StripLeft(Lower(s)) == Lower(StripLeft(s))
    decreases |s|
  {
    if s != [] {
      LowerCharKeepsSpace(s[0]);
      assert Lower(s)[1..] == Lower(s[1..]);
      if IsSpace(s[0]) {
        StripLeftLower(s[1..]);
      }
    }
  }

  lemma {:induction false} StripRightLower(s: string)
    ensures StripRight(Lower(s)) == Lower(StripRight(s))
    decreases |s|
  {
    if s != [] {
      LowerCharKeepsSpace(s[|s| - 1]);
      assert Lower(s)[..|s| - 1] == Lower(s[..|s| - 1]);
      if IsSpace(s[|s| - 1]) {
        StripRightLower(s[..|s| - 1]);
      }
    }
  }

  /**
   * Lower-casing and stripping commute: `s.lower().strip()` is `s.strip().lower()`,
   * so the order of the two calls does not matter.
   */
  lemma StripLowerCommute(s: string)
    ensures Strip(Lower(s)) == Lower(Strip(s))
  {
    StripLeftLower(s);
    StripRightLower(StripLeft(s));
  }

  /** Python's `sep.join(parts)`. */
  function Join(parts: seq<string>, sep: string): string {
    if |parts| == 0 then ""
    else if |parts| == 1 then parts[0]
    else Join(parts[..|parts| - 1], sep) + sep + parts[|parts| - 1]
  }

  /** Joining two parts puts one separator between them. */
  lemma JoinPair(x: string, y: string, sep: string)
    ensures Join([x, y], sep) == x + sep + y
  {
    assert [x, y][..1] == [x];
  }

  predicate IsDigit(c: char) {
    '0' <= c <= '9'
  }

  function DigitChar(d: nat): (c: char)
    requires d < 10
    ensures IsDigit(c)
  {
    ('0' as int + d) as char
  }

  /** Python's `str(n)` for `n >= 0`: decimal digits, no leading zero. */
  function NatToString(n: nat): (s: string)
    decreases n
  {
    if n < 10 then [DigitChar(n)] else NatToString(n / 10) + [DigitChar(n % 10)]
  }

  /** Python's `str(n)`: a minus sign for negative numbers, then the digits. */
  function IntToString(n: int): string {
    if n < 0 then "-" + NatToString(-n) else NatToString(n)
  }

  /**
   * The digit part Python's `int(str)` accepts: decimal digits, with single
   * underscores allowed between two digits (as in `1_000`).
   */
  predicate IsNumeral(s: string) {
    |s| > 0 && DigitsOrUnderscores(s) &&
    forall i {:trigger s[i]} :: 0 <= i < |s| ==>
      IsDigit(s[i]) || (0 < i < |s| - 1 && s[i] == '_' && IsDigit(s[i - 1]) && IsDigit(s[i + 1]))
  }

  /**
   * A numeral starts and ends with a digit, and of any two neighbouring characters
   * at least one is a digit: no leading, trailing or doubled underscore.
   */
  lemma NumeralShape(s: string)
    requires IsNumeral(s)
    ensures IsDigit(s[0]) && IsDigit(s[|s| - 1])
    ensures forall i :: 0 <= i < |s| - 1 ==> IsDigit(s[i]) || IsDigit(s[i + 1])
  {
  }

  /** `int()` rejects a leading, a trailing and a doubled underscore. */
  lemma StrayUnderscoresRejected()
    ensures ParseInt("_1") == None && ParseInt("1_") == None && ParseInt("1__0") == None
  {
    TrimIntUnchanged("_1");
    TrimIntUnchanged("1_");
    TrimIntUnchanged("1__0");
    assert "1__0"[1] == '_' && "1__0"[2] == '_';
  }

  predicate DigitsOrUnderscores(s: string) {
    forall i :: 0 <= i < |s| ==> IsDigit(s[i]) || s[i] == '_'
  }

  function DigitValue(c: char): nat
    requires IsDigit(c)
  {
    c as int - '0' as int
  }

  /** The value of a string of digits and underscores, the underscores ignored. */
  function NumeralValue(s: string): nat
    requires DigitsOrUnderscores(s)
  {
    if s == [] then 0
    else if s[|s| - 1] == '_' then NumeralValue(s[..|s| - 1])
    else NumeralValue(s[..|s| - 1]) * 10 + DigitValue(s[|s| - 1])
  }

  /**
   * Python's `int(s)` for a string: surrounding whitespace is ignored, one optional
   * sign, then a numeral; anything else raises `ValueError`, modelled as `None`.
   */
  function ParseInt(s: string): Option<int> {
    ParseSigned(TrimInt(s))
  }

  /**
   * The whitespace `int()` skips around a number: Python's whitespace except the
   * separator controls U+001C-U+001F, which `str.isspace()` accepts but `int()` does not.
   */
  predicate IsIntSpace(c: char) {
    IsSpace(c) && !(0x1C <= c as int <= 0x1F)
  }

  function TrimIntLeft(s: string): string {
    if s != [] && IsIntSpace(s[0]) then TrimIntLeft(s[1..]) else s
  }

  function TrimIntRight(s: string): string {
    if s != [] && IsIntSpace(s[|s| - 1]) then TrimIntRight(s[..|s| - 1]) else s
  }

  /** `s` without the leading and trailing whitespace `int()` skips. */
  function TrimInt(s: string): string {
    TrimIntRight(TrimIntLeft(s))
  }

  /** A string that neither starts nor ends with such whitespace is its own trim. */
  lemma TrimIntUnchanged(s: string)
    requires s != [] ==> !IsIntSpace(s[0]) && !IsIntSpace(s[|s| - 1])
    ensures TrimInt(s) == s
  {
    assert TrimIntLeft(s) == s;
  }

  /**
   * `int()` does not skip a file separator (U+001C) although `strip()` removes it:
   * `"\x1c5".strip()` is `"5"`, while `int("\x1c5")` raises `ValueError`.
   */
  lemma SeparatorControlsNotSkipped()
    ensures Strip("\U{001C}5") == "5"
    ensures ParseInt("\U{001C}5") == None
  {
    var s := "\U{001C}5";
    assert s[1..] == "5";
    assert StripLeft("5") == "5";
    assert TrimIntLeft(s) == s;
    assert !IsNumeral(s) by {
      assert !IsDigit(s[0]);
    }
  }

  /** An optional sign followed by a numeral, nothing around them. */
  function ParseSigned(t: string): Option<int> {
    if |t| > 0 && (t[0] == '-' || t[0] == '+') then
      if IsNumeral(t[1..]) then
        var v: int := NumeralValue(t[1..]);
        Some(if t[0] == '-' then -v else v)
      else None
    else if IsNumeral(t) then Some(NumeralValue(t))
    else None
  }

  lemma {:induction false} NatToStringDigits(n: nat)
    ensures |NatToString(n)| > 0
    ensures AllDigits(NatToString(n))
    ensures IsNumeral(NatToString(n))
    ensures NumeralValue(NatToString(n)) == n
    decreases n
  {
    if n >= 10 {
      NatToStringDigits(n / 10);
      var s := NatToString(n);
      assert s[..|s| - 1] == NatToString(n / 10);
    }
  }

  predicate AllDigits(d: string) {
    forall i :: 0 <= i < |d| ==> IsDigit(d[i])
  }

  lemma DigitsAreNumeral(d: string)
    requires |d| > 0 && AllDigits(d)
    ensures IsNumeral(d)
  {
  }

  /** A plain run of digits parses to its value. */
  lemma ParseDigits(d: string)
    requires |d| > 0 && AllDigits(d)
    ensures ParseInt(d) == Some(NumeralValue(d))
  {
    DigitsAreNumeral(d);
    assert IsDigit(d[0]) && IsDigit(d[|d| - 1]);
    TrimIntUnchanged(d);
  }

  lemma ParseMinus(m: string)
    requires |m| > 1 && m[0] == '-' && IsNumeral(m[1..])
    ensures ParseSigned(m) == Some(-(NumeralValue(m[1..]) as int))
  {
  }

  /** A minus sign followed by a plain run of digits parses to the negated value. */
  lemma ParseNegativeDigits(m: string)
    requires |m| > 1 && m[0] == '-' && AllDigits(m[1..])
    ensures ParseInt(m) == Some(-(NumeralValue(m[1..]) as int))
  {
    DigitsAreNumeral(m[1..]);
    assert IsDigit(m[1..][|m| - 2]);
    ParseMinus(m);
    TrimIntUnchanged(m);
  }

  /** `int(str(n)) == n`: the decimal rendering of an integer parses back to it. */
  lemma {:induction false} ParseIntToString(n: int)
    ensures ParseInt(IntToString(n)) == Some(n)
  {
    var m: nat := if n < 0 then -n else n;
    NatToStringDigits(m);
    if n < 0 {
      assert IntToString(n)[1..] == NatToString(m);
      ParseNegativeDigits(IntToString(n));
    } else {
      ParseDigits(NatToString(m));
    }
  }

  /** Distinct integers render differently. */
  lemma IntToStringInjective(a: int, b: int)
    ensures IntToString(a) == IntToString(b) ==> a == b
  {
    ParseIntToString(a);
    ParseIntToString(b);
  }
}
