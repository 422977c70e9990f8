/**
 * The JavaScript string operations the components use: `trim`, `toLowerCase`,
 * `includes`, `join`, and the rendering of a non-negative integer inside a
 * template literal, each with the properties the components rely on.
 */
module Text {

  // ---------------------------------------------------------------- trim

  /** The code points String.prototype.trim removes: ECMAScript WhiteSpace and LineTerminator. */
  predicate IsWhitespace(c: char)
  {
    || c == '\t' || c == '\n' || c == '\U{000B}' || c == '\U{000C}' || c == '\r' || c == ' '
    || c == '\U{00A0}' || c == '\U{1680}' || ('\U{2000}' <= c <= '\U{200A}')
    || c == '\U{2028}' || c == '\U{2029}' || c == '\U{202F}' || c == '\U{205F}'
    || c == '\U{3000}' || c == '\U{FEFF}'
  }

  /** `s` without its leading whitespace. */
  function TrimStart(s: string): (r: string)
    ensures |r| <= |s| && r == s[|s| - |r|..]
    ensures forall i :: 0 <= i < |s| - |r| ==> IsWhitespace(s[i])
    ensures r != [] ==> !IsWhitespace(r[0])
  {
    if s != [] && IsWhitespace(s[0]) then TrimStart(s[1..]) else s
  }

  /** `s` without its trailing whitespace. */
  function TrimEnd(s: string): (r: string)
    ensures |r| <= |s| && r == s[..|r|]
    ensures forall i :: |r| <= i < |s| ==> IsWhitespace(s[i])
    ensures r != [] ==> !IsWhitespace(r[|r| - 1])
  {
    if s != [] && IsWhitespace(s[|s| - 1]) then TrimEnd(s[..|s| - 1]) else s
  }

  /**
   * `r` occurs in `s` at offset `i`, and everything of `s` before and after
   * that occurrence is whitespace.
   */
  predicate TrimmedAt(s: string, r: string, i: int)
  {
    && OccursAt(s, r, i)
    && (forall j :: 0 <= j < i ==> IsWhitespace(s[j]))
    && (forall j :: i + |r| <= j < |s| ==> IsWhitespace(s[j]))
  }

  /**
   * String.prototype.trim: the contiguous part of `s` left after removing
   * whitespace, and only whitespace, at both ends; empty exactly when `s` is
   * all whitespace.
   */
  function Trim(s: string): (r: string)
    ensures exists i :: TrimmedAt(s, r, i)
    ensures r != [] ==> !IsWhitespace(r[0]) && !IsWhitespace(r[|r| - 1])
    ensures r == [] <==> forall i :: 0 <= i < |s| ==> IsWhitespace(s[i])
  {
    var t := TrimStart(s);
    var r := TrimEnd(t);
    FramedByWhitespace(s, t, r);
    assert r == [] ==> t == [];
    r
  }

  /**
   * A suffix `t` of `s` after whitespace, cut to a prefix `r` before
   * whitespace, is a part of `s` framed by whitespace only.
   */
  lemma FramedByWhitespace(s: string, t: string, r: string)
    requires |t| <= |s| && t == s[|s| - |t|..]
    requires forall j :: 0 <= j < |s| - |t| ==> IsWhitespace(s[j])
    requires |r| <= |t| && r == t[..|r|]
    requires forall j :: |r| <= j < |t| ==> IsWhitespace(t[j])
    ensures TrimmedAt(s, r, |s| - |t|)
  {
    var i := |s| - |t|;
    forall j | i + |r| <= j < |s|
      ensures IsWhitespace(s[j])
    {
      assert s[j] == t[j - i];
    }
    assert s[i..i + |r|] == r;
  }

  /** Trimming twice is trimming once. */
  lemma TrimIdempotent(s: string)
    ensures Trim(Trim(s)) == Trim(s)
  {
    var r := Trim(s);
    if r != [] {
      assert TrimStart(r) == r;
      assert TrimEnd(r) == r;
    }
  }

  // ---------------------------------------------------------------- toLowerCase

  /** Lower case of one character; only the ASCII letters A-Z are mapped. */
  function LowerChar(c: char): char
  {
    if 'A' <= c <= 'Z' then (c as int + 32) as char else c
  }

  /**
   * String.prototype.toLowerCase, restricted to ASCII letters: each of A-Z
   * becomes the matching letter of a-z, every other character is kept.
   */
  function Lower(s: string): (r: string)
    ensures |r| == |s|
    ensures forall i :: 0 <= i < |s| && 'A' <= s[i] <= 'Z' ==> r[i] as int - 'a' as int == s[i] as int - 'A' as int
    ensures forall i :: 0 <= i < |s| && !('A' <= s[i] <= 'Z') ==> r[i] == s[i]
    ensures forall i :: 0 <= i < |r| ==> !('A' <= r[i] <= 'Z')
  {
    seq(|s|, i requires 0 <= i < |s| => LowerChar(s[i]))
  }

  // ---------------------------------------------------------------- includes

  /** `sub` occurs in `s` starting at offset `i`. */
  predicate OccursAt(s: string, sub: string, i: int)
  {
    0 <= i <= |s| - |sub| && s[i..i + |sub|] == sub
  }

  /** String.prototype.includes: `sub` occurs in `s` as a contiguous part. */
  predicate Contains(s: string, sub: string)
    ensures Contains(s, sub) ==> |sub| <= |s|
  {
    sub <= s || (s != [] && Contains(s[1..], sub))
  }

  /** An occurrence past the first character of `s` is an occurrence in `s[1..]`, one offset earlier. */
  lemma OccursAtShift(s: string, sub: string, i: int)
    requires s != [] && 1 <= i
    ensures OccursAt(s, sub, i) <==> OccursAt(s[1..], sub, i - 1)
  {
    if 0 <= i - 1 <= |s| - 1 - |sub| {
      assert s[1..][i - 1..i - 1 + |sub|] == s[i..i + |sub|];
    }
  }

  /** `Contains` holds exactly when `sub` occurs at some offset of `s`. */
  lemma {:induction false} ContainsIff(s: string, sub: string)
    ensures Contains(s, sub) <==> exists i :: OccursAt(s, sub, i)
  {
    if sub <= s {
      assert OccursAt(s, sub, 0);
    } else if s != [] {
      ContainsIff(s[1..], sub);
      forall i | OccursAt(s, sub, i)
        ensures OccursAt(s[1..], sub, i - 1)
      {
        OccursAtShift(s, sub, i);
      }
      forall j | OccursAt(s[1..], sub, j)
        ensures OccursAt(s, sub, j + 1)
      {
        OccursAtShift(s, sub, j + 1);
      }
    } else {
      assert forall i :: OccursAt(s, sub, i) ==> sub <= s;
    }
  }

  /** Every string includes the empty string. */
  lemma ContainsEmpty(s: string)
    ensures Contains(s, "")
  {
  }

  /** The empty string includes nothing but the empty string. */
  lemma EmptyContainsOnlyEmpty(sub: string)
    ensures Contains("", sub) <==> sub == ""
  {
  }

  // ---------------------------------------------------------------- numbers

  predicate IsDigit(c: char)
  {
    '0' <= c <= '9'
  }

  predicate AllDigits(s: string)
  {
    forall i :: 0 <= i < |s| ==> IsDigit(s[i])
  }

  function DigitChar(d: nat): (c: char)
    requires d < 10
  {
    ('0' as int + d) as char
  }

  function DigitValue(c: char): nat
    requires IsDigit(c)
  {
    c as int - '0' as int
  }

  /**
   * A non-negative integer in a template literal: its decimal digits, with no
   * leading zero except for 0 itself.
   */
  function Decimal(n: nat): (r: string)
    ensures r != [] && AllDigits(r)
    ensures r[0] == '0' ==> n == 0
  {
    if n < 10 then [DigitChar(n)] else Decimal(n / 10) + [DigitChar(n % 10)]
  }

  /** The value of a string of decimal digits. */
  function ParseDecimal(s: string): nat
    requires AllDigits(s)
  {
    if s == [] then 0 else ParseDecimal(s[..|s| - 1]) * 10 + DigitValue(s[|s| - 1])
  }

  /** Reading back the digits `Decimal` writes gives the number. */
  lemma {:induction false} ParseDecimalOfDecimal(n: nat)
    ensures ParseDecimal(Decimal(n)) == n
  {
    if n >= 10 {
      var d := Decimal(n);
      ParseDecimalOfDecimal(n / 10);
      assert d[..|d| - 1] == Decimal(n / 10);
    }
  }

  /** The longest all-digit suffix of `s`. */
  function TrailingDigits(s: string): (r: string)
    ensures AllDigits(r) && |r| <= |s| && r == s[|s| - |r|..]
    ensures |r| < |s| ==> !IsDigit(s[|s| - |r| - 1])
  {
    if s != [] && IsDigit(s[|s| - 1]) then TrailingDigits(s[..|s| - 1]) + [s[|s| - 1]] else []
  }

  /** After a non-digit, the trailing digits of `p + d` are exactly `d`. */
  lemma {:induction false} TrailingDigitsAfter(p: string, d: string)
    requires p != [] && !IsDigit(p[|p| - 1]) && AllDigits(d)
    ensures TrailingDigits(p + d) == d
  {
    if d == [] {
      assert p + d == p;
    } else {
      var s := p + d;
      assert s[..|s| - 1] == p + d[..|d| - 1];
      TrailingDigitsAfter(p, d[..|d| - 1]);
      assert d == d[..|d| - 1] + [d[|d| - 1]];
    }
  }

  // ---------------------------------------------------------------- join

  /**
   * Array.prototype.join over strings: the first name, then each further
   * name after a separator.
   */
  function Join(xs: seq<string>, sep: string): (r: string)
    ensures |xs| == 0 ==> r == ""
    ensures |xs| == 1 ==> r == xs[0]
    ensures |xs| >= 2 ==> xs[0] + sep <= r
    ensures |xs| >= 2 ==> |r| >= |xs[0]| + |sep| + |xs[|xs| - 1]|
  {
    if |xs| == 0 then "" else if |xs| == 1 then xs[0] else xs[0] + sep + Join(xs[1..], sep)
  }

  /**
   * Appending a name appends a separator and that name: every name appears,
   * in order, each after a separator.
   */
  lemma {:induction false} JoinSnoc(xs: seq<string>, x: string, sep: string)
    requires xs != []
    ensures Join(xs + [x], sep) == Join(xs, sep) + sep + x
    decreases |xs|
  {
    var ys := xs + [x];
    if |xs| == 1 {
      assert ys[1..] == [x];
    } else {
      assert ys[1..] == xs[1..] + [x];
      JoinSnoc(xs[1..], x, sep);
    }
  }

  /** With a non-empty separator, a join is empty only for no names or one empty name. */
  lemma JoinEmptyIff(xs: seq<string>, sep: string)
    requires sep != ""
    ensures Join(xs, sep) == "" <==> |xs| == 0 || (|xs| == 1 && xs[0] == "")
  {
    if |xs| >= 2 {
      assert |Join(xs, sep)| >= |sep|;
    }
  }
}
