/** The few pieces of the Java platform the game's state holders rely on:
    32-bit `int` arithmetic, `String.valueOf(int)`, `Integer.parseInt`,
    `String.trim`, `String.valueOf(boolean)` and `Boolean.parseBoolean`. */
module JavaLang {
  import opened Wrappers

  const MinInt: int := -0x8000_0000
  const MaxInt: int := 0x7fff_ffff

  /** A Java `int`. */
  type Int32 = x: int | -0x8000_0000 <= x <= 0x7fff_ffff

  /** Two's-complement wrap-around of Java `int` arithmetic. */
  function Wrap(x: int): (r: Int32)
    ensures MinInt <= x <= MaxInt ==> r == x
    ensures (x - r) % 0x1_0000_0000 == 0
  {
    if MinInt <= x <= MaxInt then x
    else (x + 0x8000_0000) % 0x1_0000_0000 - 0x8000_0000
  }

  predicate IsDigit(c: char) {
    '0' <= c <= '9'
  }

  predicate AllDigits(s: string) {
    forall i :: 0 <= i < |s| ==> IsDigit(s[i])
  }

  function DigitChar(d: nat): (c: char)
    requires d < 10
    ensures IsDigit(c)
  {
    ('0' as int + d) as char
  }

  function DigitValue(c: char): (d: nat)
    requires IsDigit(c)
    ensures d < 10 && DigitChar(d) == c
  {
    c as int - '0' as int
  }

  /** The decimal digits of `n`, most significant first, without leading zeros. */
  function NatText(n: nat): (s: string)
    ensures |s| > 0 && AllDigits(s)
    ensures n > 0 ==> s[0] != '0'
    decreases n
  {
    if n < 10 then [DigitChar(n)] else NatText(n / 10) + [DigitChar(n % 10)]
  }

  /** The number a string of decimal digits denotes, read most significant first. */
  function DigitsValue(s: string): nat
    requires AllDigits(s)
  {
    if |s| == 0 then 0 else DigitsValue(s[..|s| - 1]) * 10 + DigitValue(s[|s| - 1])
  }

  /** `String.valueOf(int)`: a minus sign for negative values, then the digits. */
  function DecimalText(x: int): (s: string)
    ensures |s| > 0
    ensures forall i :: 0 <= i < |s| ==> s[i] == '-' || IsDigit(s[i])
  {
    if x < 0 then "-" + NatText(-x) else NatText(x)
  }

  /** `Integer.parseInt(s)`: an optional sign, at least one decimal digit and
      nothing else, and a value inside the `int` range; `None` is the
      `NumberFormatException`. */
  function ParseInt(s: string): (r: Option<Int32>)
    ensures r.Some? ==> |s| > 0 && forall i :: 0 <= i < |s| ==> ' ' < s[i]
    ensures r.Some? && AllDigits(s) ==> r.value == DigitsValue(s)
    ensures r.Some? && s[0] == '-' ==> r.value <= 0
    ensures r.Some? && s[0] != '-' ==> r.value >= 0
  {
    if |s| == 0 then None
    else
      var negative := s[0] == '-';
      var digits := if negative || s[0] == '+' then s[1..] else s;
      if |digits| == 0 || !AllDigits(digits) then None
      else
        var v: int := if negative then -(DigitsValue(digits) as int) else DigitsValue(digits);
        if MinInt <= v <= MaxInt then Some(v) else None
  }

  lemma {:induction false} NatTextValue(n: nat)
    ensures DigitsValue(NatText(n)) == n
    decreases n
  {
    if n >= 10 {
      NatTextValue(n / 10);
      var s := NatText(n);
      assert s[..|s| - 1] == NatText(n / 10);
    }
  }

  /** Reading back what `String.valueOf` wrote gives the same `int`. */
  lemma ParseDecimalText(x: Int32)
    ensures ParseInt(DecimalText(x)) == Some(x)
  {
    var n: nat := if x < 0 then -(x as int) else x;
    var t := NatText(n);
    NatTextValue(n);
    if x < 0 {
      var s := "-" + t;
      assert s[0] == '-' && s[1..] == t;
      assert s == DecimalText(x);
    } else {
      assert t[0] != '-' && t[0] != '+';
      assert t == DecimalText(x);
    }
  }

  /** Every optional sign followed by at least one digit (leading zeros
      allowed) is accepted exactly when its value is an `int`, and reads as
      that value. */
  lemma ParseIntAccepts(sign: string, digits: string)
    requires sign == "" || sign == "+" || sign == "-"
    requires |digits| > 0 && AllDigits(digits)
    ensures var v := if sign == "-" then -(DigitsValue(digits) as int) else DigitsValue(digits) as int;
            ParseInt(sign + digits) == if MinInt <= v <= MaxInt then Some(v) else None
  {
    var s := sign + digits;
    if sign == "" {
      assert s == digits && IsDigit(s[0]);
    } else {
      assert s[0] == sign[0] && s[1..] == digits;
    }
  }

  /** Every other text is rejected: the empty text, a lone sign, and any
      text with a character that is neither a digit nor a leading sign. */
  lemma ParseIntRejects(s: string)
    requires |s| == 0 || s == "+" || s == "-" ||
             exists i :: 0 <= i < |s| && !IsDigit(s[i]) && (i > 0 || (s[i] != '+' && s[i] != '-'))
    ensures ParseInt(s) == None
  {
    if |s| > 0 && s != "+" && s != "-" {
      var i :| 0 <= i < |s| && !IsDigit(s[i]) && (i > 0 || (s[i] != '+' && s[i] != '-'));
      if s[0] == '-' || s[0] == '+' {
        assert s[1..][i - 1] == s[i];
      } else {
        assert !IsDigit(s[i]);
      }
    }
  }

  lemma DecimalTextInjective(x: Int32, y: Int32)
    ensures DecimalText(x) == DecimalText(y) ==> x == y
  {
    ParseDecimalText(x);
    ParseDecimalText(y);
  }

  /** The characters `String.trim` strips: every code point up to U+0020. */
  predicate IsTrimmable(c: char) {
    c <= ' '
  }

  predicate AllTrimmable(s: string) {
    forall i :: 0 <= i < |s| ==> IsTrimmable(s[i])
  }

  function TrimStart(s: string): (r: string)
    ensures r == [] || !IsTrimmable(r[0])
  {
    if |s| > 0 && IsTrimmable(s[0]) then TrimStart(s[1..]) else s
  }

  function TrimEnd(s: string): (r: string)
    ensures |r| <= |s| && r == s[..|r|]
    ensures r == [] || !IsTrimmable(r[|r| - 1])
  {
    if |s| > 0 && IsTrimmable(s[|s| - 1]) then TrimEnd(s[..|s| - 1]) else s
  }

  /** `String.trim`: drops leading and trailing characters up to U+0020. */
  function Trim(s: string): (r: string)
    ensures r == [] || (!IsTrimmable(r[0]) && !IsTrimmable(r[|r| - 1]))
  {
    TrimEnd(TrimStart(s))
  }

  lemma {:induction false} TrimStartSkips(pre: string, rest: string)
    requires AllTrimmable(pre)
    requires rest == [] || !IsTrimmable(rest[0])
    ensures TrimStart(pre + rest) == rest
  {
    if pre != [] {
      assert (pre + rest)[1..] == pre[1..] + rest;
      TrimStartSkips(pre[1..], rest);
    }
  }

  lemma {:induction false} TrimEndSkips(body: string, post: string)
    requires AllTrimmable(post)
    requires body == [] || !IsTrimmable(body[|body| - 1])
    ensures TrimEnd(body + post) == body
  {
    if post != [] {
      assert (body + post)[..|body + post| - 1] == body + post[..|post| - 1];
      TrimEndSkips(body, post[..|post| - 1]);
    } else {
      assert body + post == body;
    }
  }

  /** Trimming removes exactly the surrounding blanks of a text that does not
      itself begin or end with one. */
  lemma TrimSurrounded(pre: string, body: string, post: string)
    requires AllTrimmable(pre) && AllTrimmable(post)
    requires body == [] || (!IsTrimmable(body[0]) && !IsTrimmable(body[|body| - 1]))
    ensures Trim(pre + body + post) == body
  {
    if body == [] {
      assert pre + body + post == (pre + post) + [];
      TrimStartSkips(pre + post, []);
    } else {
      assert pre + body + post == pre + (body + post);
      TrimStartSkips(pre, body + post);
      TrimEndSkips(body, post);
    }
  }

  function ToLowerAscii(c: char): char {
    if 'A' <= c <= 'Z' then (c as int + 32) as char else c
  }

  predicate EqualsIgnoreCase(a: string, b: string) {
    |a| == |b| && forall i :: 0 <= i < |a| ==> ToLowerAscii(a[i]) == ToLowerAscii(b[i])
  }

  /** `Boolean.parseBoolean`: true exactly for "true" in any mix of cases,
      false for everything else; it never fails. */
  function ParseBoolean(s: string): (b: bool)
    ensures b <==> |s| == 4 && s[0] in "tT" && s[1] in "rR" && s[2] in "uU" && s[3] in "eE"
  {
    EqualsIgnoreCase(s, "true")
  }

  /** `String.valueOf(boolean)`. */
  function BooleanText(b: bool): (s: string)
    ensures ParseBoolean(s) == b
  {
    if b then "true" else "false"
  }
}
