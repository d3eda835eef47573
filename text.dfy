/**
 * The few string operations of the Java and Apache Commons Lang libraries that the
 * whiteboard relies on, on `seq<char>`: `StringUtils.isNumeric`, `isBlank`,
 * `isNotEmpty`, `String.trim`, `toLowerCase`, `equalsIgnoreCase`, `endsWith`,
 * `replace`, and decimal conversion of integers (`String.valueOf`, `Integer.parseInt`).
 * Case mapping covers ASCII letters only.
 */
module Text {
  import opened Wrappers

  /** The first code point of every run of ten decimal digits (Unicode category Nd) in the
      Basic Multilingual Plane, as in Unicode 7 and every later version: ASCII, Arabic-Indic,
      Devanagari, ..., Fullwidth. Java inspects one UTF-16 unit at a time, so the digits
      beyond the Basic Multilingual Plane are never digits to it. */
  const DIGIT_ZEROS: seq<int> := [
    0x0030, 0x0660, 0x06F0, 0x07C0, 0x0966, 0x09E6, 0x0A66, 0x0AE6, 0x0B66, 0x0BE6,
    0x0C66, 0x0CE6, 0x0D66, 0x0DE6, 0x0E50, 0x0ED0, 0x0F20, 0x1040, 0x1090, 0x17E0,
    0x1810, 0x1946, 0x19D0, 0x1A80, 0x1A90, 0x1B50, 0x1BB0, 0x1C40, 0x1C50, 0xA620,
    0xA8D0, 0xA900, 0xA9D0, 0xA9F0, 0xAA50, 0xABF0, 0xFF10]

  /** `Character.digit(c, 10)`: the place of `c` in the first run, from the `k`-th on,
      that holds it. */
  function DigitFrom(c: char, k: nat): (d: Option<nat>)
    requires k <= |DIGIT_ZEROS|
    ensures d.Some? ==> d.value < 10
    decreases |DIGIT_ZEROS| - k
  {
    if k == |DIGIT_ZEROS| then None
    else if DIGIT_ZEROS[k] <= c as int < DIGIT_ZEROS[k] + 10 then Some(c as int - DIGIT_ZEROS[k])
    else DigitFrom(c, k + 1)
  }

  /** No character below '0', such as the minus sign, is a digit of any script. */
  lemma {:induction false} BelowDigits(c: char, k: nat)
    requires c < '0' && k <= |DIGIT_ZEROS|
    ensures DigitFrom(c, k).None?
    decreases |DIGIT_ZEROS| - k
  {
    if k < |DIGIT_ZEROS| {
      assert DIGIT_ZEROS[k] >= 0x30;
      BelowDigits(c, k + 1);
    }
  }

  /** `Character.isDigit`: a decimal digit of any script. */
  predicate IsDigit(c: char) { DigitFrom(c, 0).Some? }

  /** `StringUtils.isNumeric`: non-empty and made of decimal digits only. */
  predicate IsNumeric(s: string) {
    |s| > 0 && forall i | 0 <= i < |s| :: IsDigit(s[i])
  }

  /** `Character.isWhitespace`: the ASCII controls TAB..CR and FS..US, the space, and the
      Unicode space, line and paragraph separators other than the non-breaking ones. */
  predicate IsWhitespace(c: char) {
    || c == ' ' || '\t' <= c <= '\r' || '\U{1C}' <= c <= '\U{1F}'
    || c == '\U{1680}' || '\U{2000}' <= c <= '\U{2006}' || '\U{2008}' <= c <= '\U{200A}'
    || c == '\U{2028}' || c == '\U{2029}' || c == '\U{205F}' || c == '\U{3000}'
  }

  /** `StringUtils.isBlank`: null, empty, or whitespace only. */
  predicate IsBlank(s: Option<string>) {
    s.None? || forall i | 0 <= i < |s.value| :: IsWhitespace(s.value[i])
  }

  /** `StringUtils.isNotEmpty`: not null and at least one character. */
  predicate IsNotEmpty(s: Option<string>) {
    s.Some? && |s.value| > 0
  }

  /** `String.trim` removes every leading and trailing character up to U+0020. */
  function TrimStart(s: string): (r: string)
    ensures |r| <= |s| && r == s[|s| - |r|..]
    ensures |r| > 0 ==> r[0] > ' '
    ensures forall i | 0 <= i < |s| - |r| :: s[i] <= ' '
  {
    if |s| > 0 && s[0] <= ' ' then TrimStart(s[1..]) else s
  }

  function TrimEnd(s: string): (r: string)
    ensures |r| <= |s| && r == s[..|r|]
    ensures |r| > 0 ==> r[|r| - 1] > ' '
    ensures forall i | |r| <= i < |s| :: s[i] <= ' '
  {
    if |s| > 0 && s[|s| - 1] <= ' ' then TrimEnd(s[..|s| - 1]) else s
  }

  function Trim(s: string): (r: string)
  {
    TrimEnd(TrimStart(s))
  }

  /** What `trim` keeps: a contiguous part of the input, with no space or control character
      at either end, and nothing at all exactly when every character is one. */
  lemma TrimSpec(s: string)
    ensures exists i, j :: 0 <= i <= j <= |s| && Trim(s) == s[i..j]
    ensures |Trim(s)| > 0 ==> Trim(s)[0] > ' ' && Trim(s)[|Trim(s)| - 1] > ' '
    ensures |Trim(s)| == 0 <==> forall i | 0 <= i < |s| :: s[i] <= ' '
  {
    var t := TrimStart(s);
    var r := TrimEnd(t);
    var i := |s| - |t|;
    assert r == s[i..i + |r|];
    if |r| > 0 {
      assert s[i + |r| - 1] == r[|r| - 1];
    }
  }

  function LowerChar(c: char): char {
    if 'A' <= c <= 'Z' then (c as int - 'A' as int + 'a' as int) as char else c
  }

  function ToLower(s: string): (r: string)
    ensures |r| == |s| && forall i | 0 <= i < |s| :: r[i] == LowerChar(s[i])
  {
    if s == [] then [] else [LowerChar(s[0])] + ToLower(s[1..])
  }

  lemma ToLowerAppend(a: string, b: string)
    ensures ToLower(a + b) == ToLower(a) + ToLower(b)
  {
    var l, r := ToLower(a + b), ToLower(a) + ToLower(b);
    forall i | 0 <= i < |l| ensures l[i] == r[i] {
      if i < |a| { assert (a + b)[i] == a[i]; } else { assert (a + b)[i] == b[i - |a|]; }
    }
  }

  /** `String.equalsIgnoreCase` restricted to ASCII case: same length, the same letters. */
  predicate EqualsIgnoreCase(a: string, b: string) {
    ToLower(a) == ToLower(b)
  }

  /** `equalsIgnoreCase` where either side may be null: `x.equalsIgnoreCase(null)` is false. */
  predicate EqualsIgnoreCaseOpt(a: string, b: Option<string>) {
    b.Some? && EqualsIgnoreCase(a, b.value)
  }

  predicate EndsWith(s: string, suffix: string) {
    |suffix| <= |s| && s[|s| - |suffix|..] == suffix
  }

  predicate StartsWith(s: string, prefix: string) {
    |prefix| <= |s| && s[..|prefix|] == prefix
  }

  /** `String.replace(target, replacement)`: every non-overlapping occurrence, left to right. */
  function Replace(s: string, target: string, replacement: string): string
    requires |target| > 0
    decreases |s|
  {
    if |s| < |target| then s
    else if s[..|target|] == target then replacement + Replace(s[|target|..], target, replacement)
    else [s[0]] + Replace(s[1..], target, replacement)
  }

  /** A string that does not contain the first character of the target is left alone. */
  lemma {:induction false} ReplaceAbsent(s: string, target: string, replacement: string)
    requires |target| > 0 && target[0] !in s
    ensures Replace(s, target, replacement) == s
    decreases |s|
  {
    if |s| >= |target| {
      assert s[0] != target[0];
      assert s[..|target|] != target;
      assert target[0] !in s[1..] by {
        forall k | 0 <= k < |s| - 1 ensures s[1..][k] != target[0] { assert s[1..][k] == s[k + 1]; }
      }
      ReplaceAbsent(s[1..], target, replacement);
      assert [s[0]] + s[1..] == s;
    }
  }

  /** A template that begins with the placeholder and has no further occurrence of its first
      character turns into the replacement followed by the rest of the template. */
  lemma ReplaceLeading(target: string, rest: string, replacement: string)
    requires |target| > 0 && target[0] !in rest
    ensures Replace(target + rest, target, replacement) == replacement + rest
  {
    var s := target + rest;
    assert s[..|target|] == target;
    assert s[|target|..] == rest;
    ReplaceAbsent(rest, target, replacement);
  }

  // ---- decimal conversion ----

  /** The ASCII digit `Integer.toString` writes for `d`. */
  function DigitChar(d: nat): (c: char)
    requires d < 10
    ensures IsDigit(c) && DigitValue(c) == d
  {
    ('0' as int + d) as char
  }

  /** The value `Integer.parseInt` gives a digit of any script. */
  function DigitValue(c: char): (d: nat)
    requires IsDigit(c)
    ensures d < 10
  {
    DigitFrom(c, 0).value
  }

  /** Both parsers read digits beyond ASCII: "٨٠٨٠" (Arabic-Indic) is the number 8080. */
  lemma ArabicIndicDigits()
    ensures IsNumeric("\U{0668}\U{0660}\U{0668}\U{0660}") && DigitsValue("\U{0668}\U{0660}\U{0668}\U{0660}") == 8080
  {
    var s := "\U{0668}\U{0660}\U{0668}\U{0660}";
    ArabicIndic('\U{0668}');
    ArabicIndic('\U{0660}');
    assert s[..3][..2][..1] == s[..1] && s[..1][..0] == [];
    assert s[..3][..2] == s[..2] && s[..3] == s[..|s| - 1];
    assert DigitsValue(s[..1]) == 8;
    assert DigitsValue(s[..2]) == 80;
    assert DigitsValue(s[..3]) == 808;
  }

  lemma ArabicIndic(c: char)
    requires 0x660 <= c as int < 0x66A
    ensures IsDigit(c) && DigitValue(c) == c as int - 0x660
  {
    assert DigitFrom(c, 1) == Some(c as int - 0x660);
  }


  /** Decimal digits of a natural number, most significant first, no leading zeros. */
  function Digits(n: nat): (s: string)
    ensures IsNumeric(s)
    decreases n
  {
    if n < 10 then [DigitChar(n)] else Digits(n / 10) + [DigitChar(n % 10)]
  }

  /** The value of a digit string, read left to right. */
  function DigitsValue(s: string): nat
    requires forall i | 0 <= i < |s| :: IsDigit(s[i])
  {
    if s == [] then 0 else DigitsValue(s[..|s| - 1]) * 10 + DigitValue(s[|s| - 1])
  }

  lemma {:induction false} DigitsRoundTrip(n: nat)
    ensures DigitsValue(Digits(n)) == n
    decreases n
  {
    if n >= 10 {
      DigitsRoundTrip(n / 10);
      var s := Digits(n);
      assert s[..|s| - 1] == Digits(n / 10);
    }
  }

  /** `String.valueOf` of an integer: an optional minus sign, then the digits. */
  function IntToString(i: int): string {
    if i < 0 then "-" + Digits(-i) else Digits(i)
  }

  /** Reading back what `IntToString` writes. */
  function ParseInt(s: string): Option<int> {
    if |s| > 1 && s[0] == '-' && IsNumeric(s[1..]) then var v: int := DigitsValue(s[1..]); Some(-v)
    else if IsNumeric(s) then Some(DigitsValue(s))
    else None
  }

  /** A digit string has no sign, so `parseInt` reads its digits. */
  lemma NumericParses(s: string)
    requires IsNumeric(s)
    ensures ParseInt(s) == Some(DigitsValue(s))
  {
    BelowDigits('-', 0);
  }

  lemma IntToStringRoundTrip(i: int)
    ensures ParseInt(IntToString(i)) == Some(i)
    ensures IntToString(i) != "null"
  {
    if i < 0 {
      NegativeRoundTrip(i);
    } else {
      NaturalRoundTrip(i);
    }
  }

  lemma NegativeRoundTrip(i: int)
    requires i < 0
    ensures ParseInt(IntToString(i)) == Some(i) && IntToString(i)[0] == '-'
  {
    var d := Digits(-i);
    var s := "-" + d;
    assert s == IntToString(i) && s[0] == '-' && s[1..] == d;
    DigitsRoundTrip(-i);
    assert |s| > 1 && IsNumeric(s[1..]);
    assert ParseInt(s) == Some(-(DigitsValue(d) as int));
  }

  lemma NaturalRoundTrip(i: nat)
    ensures ParseInt(IntToString(i)) == Some(i) && IsDigit(IntToString(i)[0])
  {
    var s := IntToString(i);
    assert s == Digits(i) && IsDigit(s[0]);
    BelowDigits('-', 0);
    DigitsRoundTrip(i);
    assert ParseInt(s) == Some(DigitsValue(s));
  }
}
