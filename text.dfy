/**
 * String helpers shared by the parser and the formatter: ASCII case mapping,
 * substring containment, decimal digits, padding, title case and joining.
 * Python's `str` methods work on all of Unicode; these work on ASCII, which is
 * what every keyword, token and table entry of the agent is written in.
 */
module Text {

  predicate IsDigit(c: char) { '0' <= c <= '9' }
  predicate IsAsciiUpper(c: char) { 'A' <= c <= 'Z' }
  predicate IsAsciiLower(c: char) { 'a' <= c <= 'z' }
  predicate IsAsciiLetter(c: char) { IsAsciiUpper(c) || IsAsciiLower(c) }

  /** A character of the regular-expression class `\w`. */
  predicate IsWordChar(c: char) { IsAsciiLetter(c) || IsDigit(c) || c == '_' }

  /** An ASCII character of the regular-expression class `\s`: blank, tab to carriage return, and 0x1C to 0x1F. */
  predicate IsSpace(c: char) {
    c == ' ' || '\t' <= c <= '\r' || '\U{1C}' <= c <= '\U{1F}'
  }

  predicate AllDigits(s: string) { forall i :: 0 <= i < |s| ==> IsDigit(s[i]) }

  function Min(a: int, b: int): int { if a <= b then a else b }

  // ---------------------------------------------------------------------------
  // Case mapping (`str.lower`, `str.upper`, `str.title`)
  // ---------------------------------------------------------------------------

  function LowerChar(c: char): char {
    if IsAsciiUpper(c) then (c as int + 32) as char else c
  }

  function UpperChar(c: char): char {
    if IsAsciiLower(c) then (c as int - 32) as char else c
  }

  function ToLower(s: string): (r: string)
    ensures |r| == |s|
    ensures forall i :: 0 <= i < |s| ==> r[i] == LowerChar(s[i])
  {
    seq(|s|, i requires 0 <= i < |s| => LowerChar(s[i]))
  }

  function ToUpper(s: string): (r: string)
    ensures |r| == |s|
    ensures forall i :: 0 <= i < |s| ==> r[i] == UpperChar(s[i])
  {
    seq(|s|, i requires 0 <= i < |s| => UpperChar(s[i]))
  }

  lemma ToLowerIdempotent(s: string)
    ensures ToLower(ToLower(s)) == ToLower(s)
  {
  }

  /** The title-case form of `c`, given whether a letter comes right before it. */
  function TitleChar(c: char, afterLetter: bool): char {
    if !IsAsciiLetter(c) then c else if afterLetter then LowerChar(c) else UpperChar(c)
  }

  /** Title case of `s`, where `afterLetter` says whether a letter precedes it. */
  function TitleFrom(s: string, afterLetter: bool): (r: string)
    ensures |r| == |s|
    decreases |s|
  {
    if s == [] then [] else [TitleChar(s[0], afterLetter)] + TitleFrom(s[1..], IsAsciiLetter(s[0]))
  }

  /** A letter comes right before position `i` of `s`. */
  predicate LetterBefore(s: string, i: nat)
    requires i <= |s|
  {
    i > 0 && IsAsciiLetter(s[i - 1])
  }

  lemma {:induction false} TitleFromSpec(s: string, afterLetter: bool)
    ensures |s| > 0 ==> TitleFrom(s, afterLetter)[0] == TitleChar(s[0], afterLetter)
    ensures forall i :: 0 < i < |s| ==> TitleFrom(s, afterLetter)[i] == TitleChar(s[i], LetterBefore(s, i))
    decreases |s|
  {
    if s != [] {
      var rest := TitleFrom(s[1..], IsAsciiLetter(s[0]));
      TitleFromSpec(s[1..], IsAsciiLetter(s[0]));
      forall i | 0 < i < |s|
        ensures TitleFrom(s, afterLetter)[i] == TitleChar(s[i], LetterBefore(s, i))
      {
        assert TitleFrom(s, afterLetter)[i] == rest[i - 1];
        if i > 1 {
          assert LetterBefore(s[1..], i - 1) == LetterBefore(s, i);
        }
      }
    }
  }

  /**
   * `str.title`: the first letter of every run of letters is raised, the
   * other letters of the run are lowered, and other characters are kept.
   */
  function Title(s: string): (r: string)
    ensures |r| == |s|
    ensures forall i :: 0 <= i < |s| && !IsAsciiLetter(s[i]) ==> r[i] == s[i]
    ensures forall i :: 0 <= i < |s| && IsAsciiLetter(s[i]) && !LetterBefore(s, i) ==> r[i] == UpperChar(s[i])
    ensures forall i :: 0 <= i < |s| && IsAsciiLetter(s[i]) && LetterBefore(s, i) ==> r[i] == LowerChar(s[i])
  {
    TitleFromSpec(s, false);
    TitleFrom(s, false)
  }

  // ---------------------------------------------------------------------------
  // Containment (`needle in haystack`)
  // ---------------------------------------------------------------------------

  predicate IsPrefix(p: string, s: string) { |p| <= |s| && s[..|p|] == p }

  predicate IsSuffix(p: string, s: string) { |p| <= |s| && s[|s| - |p|..] == p }

  lemma PrefixTransitive(a: string, b: string, c: string)
    requires IsPrefix(a, b) && IsPrefix(b, c)
    ensures IsPrefix(a, c)
  {
    assert c[..|a|] == c[..|b|][..|a|];
  }

  lemma PrefixOfConcat(a: string, b: string, c: string)
    requires IsPrefix(a + b, c)
    ensures IsPrefix(a, c)
  {
    assert c[..|a|] == (a + b)[..|a|];
  }

  predicate Contains(s: string, p: string)
    decreases |s|
  {
    IsPrefix(p, s) || (|s| > 0 && Contains(s[1..], p))
  }

  /** An occurrence at a known position is enough for containment. */
  lemma {:induction false} ContainsAt(s: string, p: string, i: nat)
    requires i + |p| <= |s| && s[i..i + |p|] == p
    ensures Contains(s, p)
    decreases i
  {
    if i > 0 {
      assert s[1..][i - 1..i - 1 + |p|] == s[i..i + |p|];
      ContainsAt(s[1..], p, i - 1);
    }
  }

  lemma ContainsMiddle(a: string, b: string, c: string)
    ensures Contains(a + b + c, b)
  {
    assert (a + b + c)[|a|..|a| + |b|] == b;
    ContainsAt(a + b + c, b, |a|);
  }

  /** What a string contains, a longer string with anything before it contains too. */
  lemma {:induction false} ContainsAfter(a: string, s: string, p: string)
    requires Contains(s, p)
    ensures Contains(a + s, p)
    decreases |a|
  {
    if a != [] {
      ContainsAfter(a[1..], s, p);
      assert (a + s)[1..] == a[1..] + s;
      assert Contains((a + s)[1..], p);
    } else {
      assert a + s == s;
    }
  }

  /** What a string contains, a longer string with anything after it contains too. */
  lemma {:induction false} ContainsBefore(s: string, b: string, p: string)
    requires Contains(s, p)
    ensures Contains(s + b, p)
    decreases |s|
  {
    if IsPrefix(p, s) {
      assert (s + b)[..|p|] == s[..|p|];
    } else {
      assert (s + b)[1..] == s[1..] + b;
      ContainsBefore(s[1..], b, p);
    }
  }

  // ---------------------------------------------------------------------------
  // Decimal digits (`str(n)` and `int(digits)`)
  // ---------------------------------------------------------------------------

  function DigitChar(d: nat): char
    requires d < 10
  {
    ('0' as int + d) as char
  }

  function DigitValue(c: char): nat
    requires IsDigit(c)
  {
    c as int - '0' as int
  }

  /** The number a string of decimal digits denotes, leading zeros allowed (`int("007") == 7`). */
  function DecimalValue(s: string): nat
    requires AllDigits(s)
  {
    if s == [] then 0 else 10 * DecimalValue(s[..|s| - 1]) + DigitValue(s[|s| - 1])
  }

  /** `str(n)` for a non-negative integer: canonical digits, no leading zero. */
  function NatToString(n: nat): (r: string)
    ensures |r| >= 1 && AllDigits(r)
    ensures r[0] == '0' ==> n == 0
    decreases n
  {
    if n < 10 then [DigitChar(n)] else NatToString(n / 10) + [DigitChar(n % 10)]
  }

  /** Reading back the digits `str(n)` writes gives `n`. */
  lemma {:induction false} NatToStringRoundTrip(n: nat)
    ensures DecimalValue(NatToString(n)) == n
    decreases n
  {
    if n >= 10 {
      var r := NatToString(n);
      assert r[..|r| - 1] == NatToString(n / 10);
      NatToStringRoundTrip(n / 10);
    }
  }

  /** `str(i)` for any integer. */
  function IntToString(i: int): string {
    if i < 0 then "-" + NatToString(-i) else NatToString(i)
  }

  // ---------------------------------------------------------------------------
  // Layout (`c * n`, `f"{s:<w}"`, `sep.join(parts)`)
  // ---------------------------------------------------------------------------

  function Repeat(c: char, n: nat): (r: string)
    ensures |r| == n
  {
    seq(n, _ => c)
  }

  lemma RepeatSpec(c: char, n: nat)
    ensures forall i :: 0 <= i < n ==> Repeat(c, n)[i] == c
  {
  }

  /** `c * n` for any integer `n`: empty when `n` is not positive. */
  function Times(c: char, n: int): (r: string)
    ensures |r| == if n > 0 then n else 0
  {
    if n > 0 then Repeat(c, n) else ""
  }

  /** `f"{s:<width}"`: left-aligned, padded with spaces, never cut. */
  function LeftAlign(s: string, width: nat): (r: string)
    ensures |r| == if |s| >= width then |s| else width
  {
    if |s| >= width then s else s + Repeat(' ', width - |s|)
  }

  /** The text comes first, unchanged, and only spaces follow it. */
  lemma LeftAlignSpec(s: string, width: nat)
    ensures IsPrefix(s, LeftAlign(s, width))
    ensures forall i :: |s| <= i < |LeftAlign(s, width)| ==> LeftAlign(s, width)[i] == ' '
  {
    var r := LeftAlign(s, width);
    assert r[..|s|] == s;
  }

  /**
   * `f"{pre}{a:<width}{post}"`: `pre` and `a` lead, `post` ends the text, and
   * when `a` fits its width, spaces fill the column up to `|pre| + width`.
   */
  lemma PaddedColumn(pre: string, a: string, width: nat, post: string)
    ensures IsPrefix(pre + a, pre + LeftAlign(a, width) + post)
    ensures IsSuffix(post, pre + LeftAlign(a, width) + post)
    ensures |a| <= width ==> |pre + LeftAlign(a, width) + post| == |pre| + width + |post|
    ensures |a| <= width ==> forall i :: |pre| + |a| <= i < |pre| + width ==> (pre + LeftAlign(a, width) + post)[i] == ' '
  {
    var r := pre + LeftAlign(a, width) + post;
    LeftAlignSpec(a, width);
    assert r[..|pre + a|] == pre + LeftAlign(a, width)[..|a|];
    assert r[|r| - |post|..] == post;
    forall i | |a| <= width && |pre| + |a| <= i < |pre| + width
      ensures r[i] == ' '
    {
      assert r[i] == LeftAlign(a, width)[i - |pre|];
    }
  }

  /** `sep.join(parts)`. */
  function Join(parts: seq<string>, sep: string): (r: string)
    ensures |parts| > 0 ==> |r| >= |parts[|parts| - 1]|
  {
    if |parts| == 0 then ""
    else if |parts| == 1 then parts[0]
    else Join(parts[..|parts| - 1], sep) + sep + parts[|parts| - 1]
  }
}
