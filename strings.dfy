/**
 * The few Python string built-ins the service relies on, at ASCII level:
 * `str.isspace`, `str.strip`, slicing `s[:n]`, `str.lower`, `str.title`,
 * `str.replace` of one character, `str(int)`, `int(str)` and
 * `str.rsplit('.', 1)[1]`.
 */
module Strings {
  import opened Wrappers

  // ---------------------------------------------------------------------
  // Whitespace and strip()
  // ---------------------------------------------------------------------

  /** `c.isspace()` for ASCII: tab, line feed, vertical tab, form feed,
      carriage return, the separators 0x1C-0x1F, and space. */
  predicate IsSpace(c: char) {
    (9 <= c as int <= 13) || (28 <= c as int <= 32)
  }

  /** `r` is the infix of `s` that starts at `i`, and `s` holds only
      whitespace before and after it. */
  predicate InfixBetweenSpaces(s: string, r: string, i: int) {
    && 0 <= i <= |s| - |r|
    && r == s[i..i + |r|]
    && (forall k :: 0 <= k < i ==> IsSpace(s[k]))
    && (forall k :: i + |r| <= k < |s| ==> IsSpace(s[k]))
  }

  /** `s.strip()`: whitespace removed from both ends. */
  function Strip(s: string): string {
    if |s| > 0 && IsSpace(s[0]) then Strip(s[1..])
    else if |s| > 0 && IsSpace(s[|s| - 1]) then Strip(s[..|s| - 1])
    else s
  }

  /** What `strip` leaves is the infix between the leading and the trailing
      whitespace. */
  lemma {:induction false} StripIsInfix(s: string)
    ensures exists i :: InfixBetweenSpaces(s, Strip(s), i)
  {
    var r := Strip(s);
    if |s| > 0 && IsSpace(s[0]) {
      var t := s[1..];
      StripIsInfix(t);
      var j :| InfixBetweenSpaces(t, r, j);
      InfixAfterSpace(s, r, j);
    } else if |s| > 0 && IsSpace(s[|s| - 1]) {
      var t := s[..|s| - 1];
      StripIsInfix(t);
      var j :| InfixBetweenSpaces(t, r, j);
      assert r == s[j..j + |r|];
      assert InfixBetweenSpaces(s, r, j);
    } else {
      assert s == s[0..|s|];
      assert InfixBetweenSpaces(s, r, 0);
    }
  }

  lemma InfixAfterSpace(s: string, r: string, j: int)
    requires |s| > 0 && IsSpace(s[0]) && InfixBetweenSpaces(s[1..], r, j)
    ensures InfixBetweenSpaces(s, r, j + 1)
  {
    var t := s[1..];
    assert forall k :: 1 <= k < |s| ==> s[k] == t[k - 1];
    assert r == s[j + 1..j + 1 + |r|];
  }

  /** The strip has no whitespace at either end. */
  lemma {:induction false} StripEnds(s: string)
    ensures Strip(s) != [] ==> !IsSpace(Strip(s)[0]) && !IsSpace(Strip(s)[|Strip(s)| - 1])
  {
    if |s| > 0 && IsSpace(s[0]) {
      StripEnds(s[1..]);
    } else if |s| > 0 && IsSpace(s[|s| - 1]) {
      StripEnds(s[..|s| - 1]);
    }
  }

  /** The strip is empty exactly when the string is whitespace alone. */
  lemma {:induction false} StripEmpty(s: string)
    ensures Strip(s) == [] <==> forall k :: 0 <= k < |s| ==> IsSpace(s[k])
  {
    if |s| > 0 && IsSpace(s[0]) {
      var t := s[1..];
      StripEmpty(t);
      assert forall k :: 1 <= k < |s| ==> s[k] == t[k - 1];
    } else if |s| > 0 && IsSpace(s[|s| - 1]) {
      var t := s[..|s| - 1];
      StripEmpty(t);
      assert forall k :: 0 <= k < |t| ==> s[k] == t[k];
    }
  }

  /** A string with no whitespace at either end is its own strip. */
  lemma StripOfTrimmed(s: string)
    requires s != [] ==> !IsSpace(s[0]) && !IsSpace(s[|s| - 1])
    ensures Strip(s) == s
  {
  }

  /** `s[:n]`: the first `n` characters, or all of `s` when it is shorter. */
  function Truncate(s: string, n: nat): (r: string)
    ensures |r| <= n && r <= s
    ensures |s| <= n ==> r == s
    ensures |s| > n ==> |r| == n
  {
    if |s| <= n then s else s[..n]
  }

  // ---------------------------------------------------------------------
  // Case
  // ---------------------------------------------------------------------

  predicate IsUpper(c: char) { 'A' <= c <= 'Z' }
  predicate IsLower(c: char) { 'a' <= c <= 'z' }
  /** A character with case (Python's notion, restricted to ASCII letters). */
  predicate IsCased(c: char) { IsUpper(c) || IsLower(c) }

  function LowerChar(c: char): (r: char)
    ensures IsCased(r) == IsCased(c) && !IsUpper(r)
  {
    if IsUpper(c) then (c as int + 32) as char else c
  }

  function UpperChar(c: char): (r: char)
    ensures IsCased(r) == IsCased(c) && !IsLower(r)
  {
    if IsLower(c) then (c as int - 32) as char else c
  }

  /** `s.lower()` */
  function Lower(s: string): (r: string)
    ensures |r| == |s| && forall k :: 0 <= k < |s| ==> r[k] == LowerChar(s[k])
  {
    seq(|s|, k requires 0 <= k < |s| => LowerChar(s[k]))
  }

  /** The character-by-character scan of `str.title()`: a cased character
      is lower-cased when the character before it was cased and title-cased
      otherwise; whether a character was cased is judged on the input. */
  function TitleFrom(s: string, previousIsCased: bool): (r: string)
    decreases |s|
  {
    if s == [] then []
    else [if previousIsCased then LowerChar(s[0]) else UpperChar(s[0])]
         + TitleFrom(s[1..], IsCased(s[0]))
  }

  /** `s.title()` */
  function Title(s: string): string {
    TitleFrom(s, false)
  }

  /** What `TitleFrom` does to each position. */
  lemma {:induction false} TitleFromAt(s: string, previousIsCased: bool, k: nat)
    requires k < |s|
    ensures |TitleFrom(s, previousIsCased)| == |s|
    ensures TitleFrom(s, previousIsCased)[k]
         == if (k == 0 && previousIsCased) || (k > 0 && IsCased(s[k - 1]))
            then LowerChar(s[k]) else UpperChar(s[k])
  {
    if k == 0 {
      TitleLength(s[1..], IsCased(s[0]));
    } else {
      TitleFromAt(s[1..], IsCased(s[0]), k - 1);
    }
  }

  lemma {:induction false} TitleLength(s: string, previousIsCased: bool)
    ensures |TitleFrom(s, previousIsCased)| == |s|
  {
    if s != [] {
      TitleLength(s[1..], IsCased(s[0]));
    }
  }

  /** `str.title()` upper-cases the first letter of every run of letters,
      lower-cases the other letters and leaves every other character alone. */
  lemma TitleAt(s: string, k: nat)
    requires k < |s|
    ensures |Title(s)| == |s|
    ensures k == 0 || !IsCased(s[k - 1]) ==> Title(s)[k] == UpperChar(s[k])
    ensures k > 0 && IsCased(s[k - 1]) ==> Title(s)[k] == LowerChar(s[k])
    ensures !IsCased(s[k]) ==> Title(s)[k] == s[k]
  {
    TitleFromAt(s, false, k);
  }

  /** `s.replace(from, to)` for single characters. */
  function ReplaceChar(s: string, from: char, to: char): (r: string)
    ensures |r| == |s|
    ensures forall k :: 0 <= k < |s| ==> r[k] == if s[k] == from then to else s[k]
  {
    seq(|s|, k requires 0 <= k < |s| => if s[k] == from then to else s[k])
  }

  // ---------------------------------------------------------------------
  // Decimal integers: str(int) and int(str)
  // ---------------------------------------------------------------------

  predicate IsDigit(c: char) { '0' <= c <= '9' }

  predicate AllDigits(s: string) {
    forall k :: 0 <= k < |s| ==> IsDigit(s[k])
  }

  function DigitChar(d: nat): (c: char)
    requires d < 10
    ensures IsDigit(c) && c as int - '0' as int == d
  {
    ('0' as int + d) as char
  }

  /** The decimal digits of `n`, most significant first, without leading zeros. */
  function NatDigits(n: nat): (r: string)
    ensures r != [] && AllDigits(r)
    ensures |r| > 1 ==> r[0] != '0'
    decreases n
  {
    if n < 10 then [DigitChar(n)] else NatDigits(n / 10) + [DigitChar(n % 10)]
  }

  /** `str(i)` for a Python int. */
  function Decimal(i: int): string {
    if i < 0 then "-" + NatDigits(-i) else NatDigits(i)
  }

  /** The value of a string of decimal digits (leading zeros allowed). */
  function DigitsValue(s: string): nat
    requires AllDigits(s)
    decreases |s|
  {
    if s == [] then 0
    else DigitsValue(s[..|s| - 1]) * 10 + (s[|s| - 1] as int - '0' as int)
  }

  /** The default limit on the number of digits `int()` and `str()` accept
      for a decimal integer (`sys.get_int_max_str_digits()`, Python 3.11 on). */
  const MaxStrDigits: nat := 4300

  /** `int(s)` for base 10: surrounding whitespace, an optional sign, then
      one to 4300 ASCII digits; anything else is a ValueError (`None`). */
  function ParseInt(s: string): Option<int> {
    var t := Strip(s);
    if |t| > 1 && (t[0] == '-' || t[0] == '+') && AllDigits(t[1..]) then
      if |t| - 1 > MaxStrDigits then None
      else Some(if t[0] == '-' then 0 - DigitsValue(t[1..]) else DigitsValue(t[1..]))
    else if |t| > 0 && AllDigits(t) then
      if |t| > MaxStrDigits then None
      else Some(DigitsValue(t))
    else
      None
  }

  lemma {:induction false} DigitsValueOfNatDigits(n: nat)
    ensures DigitsValue(NatDigits(n)) == n
  {
    if n >= 10 {
      var r := NatDigits(n);
      assert r[..|r| - 1] == NatDigits(n / 10);
      DigitsValueOfNatDigits(n / 10);
    }
  }

  /** `int(str(i)) == i`: the decimal text of an integer parses back to it,
      for every integer whose text `str` itself produces (at most 4300 digits). */
  lemma ParseDecimal(i: int)
    requires |NatDigits(if i < 0 then -i else i)| <= MaxStrDigits
    ensures ParseInt(Decimal(i)) == Some(i)
  {
    var d := Decimal(i);
    var n: nat := if i < 0 then -i else i;
    assert d == (if i < 0 then "-" + NatDigits(n) else NatDigits(n));
    StripOfTrimmed(d);
    DigitsValueOfNatDigits(n);
    if i < 0 {
      assert d[1..] == NatDigits(n);
    }
  }

  /** The empty string and whitespace alone are not integers. */
  lemma ParseBlank(s: string)
    requires forall k :: 0 <= k < |s| ==> IsSpace(s[k])
    ensures ParseInt(s) == None
  {
    StripEmpty(s);
  }

  /** More than 4300 digits are a ValueError, whatever their value. */
  lemma ParseTooManyDigits(t: string)
    requires AllDigits(t) && |t| > MaxStrDigits
    ensures ParseInt(t) == None
    ensures ParseInt("-" + t) == None
  {
    StripOfTrimmed(t);
    var m := "-" + t;
    assert m[1..] == t;
    StripOfTrimmed(m);
  }

  // ---------------------------------------------------------------------
  // rsplit('.', 1)[1]
  // ---------------------------------------------------------------------

  /** `s.rsplit('.', 1)[1]`: the text after the last '.', for a string that has one. */
  function AfterLastDot(s: string): (r: string)
    requires '.' in s
    ensures |r| < |s| && s[|s| - |r| - 1] == '.' && s[|s| - |r|..] == r
    ensures '.' !in r
    decreases |s|
  {
    if s[|s| - 1] == '.' then ""
    else
      assert '.' in s[..|s| - 1] by {
        var k :| 0 <= k < |s| && s[k] == '.';
        assert s[..|s| - 1][k] == '.';
      }
      AfterLastDot(s[..|s| - 1]) + [s[|s| - 1]]
  }

  /** Whatever comes before the last '.', the text after it is what `rsplit` keeps. */
  lemma AfterLastDotOf(p: string, e: string)
    requires '.' !in e
    ensures '.' in p + "." + e
    ensures AfterLastDot(p + "." + e) == e
  {
    var s := p + "." + e;
    assert s[|p|] == '.';
    assert s[|s| - |e|..] == e;
  }
}
