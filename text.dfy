/** The few Python string operations the session engine relies on:
    `str.strip()`, `str.lower()` as used on the follow-up text, substring
    containment (for what a prompt embeds) and `str()` of an integer. */
module Text {

  /** The characters Python's `str.isspace()` accepts; `str.strip()` with no
      argument removes exactly these from both ends. */
  predicate IsSpace(c: char) {
    || c == ' '
    || ('\t' <= c <= '\r')
    || ('\U{1C}' <= c <= '\U{1F}')
    || c == '\U{85}' || c == '\U{A0}' || c == '\U{1680}'
    || ('\U{2000}' <= c <= '\U{200A}')
    || c == '\U{2028}' || c == '\U{2029}' || c == '\U{202F}'
    || c == '\U{205F}' || c == '\U{3000}'
  }

  predicate AllSpace(s: string) {
    forall k :: 0 <= k < |s| ==> IsSpace(s[k])
  }

  /** `s.lstrip()`: what is left after the leading whitespace. */
  function TrimStart(s: string): string {
    if s != [] && IsSpace(s[0]) then TrimStart(s[1..]) else s
  }

  /** `s.rstrip()`: what is left after the trailing whitespace. */
  function TrimEnd(s: string): string {
    if s != [] && IsSpace(s[|s| - 1]) then TrimEnd(s[..|s| - 1]) else s
  }

  /** `TrimStart` removes a prefix made only of whitespace, and stops at the
      first character that is not whitespace. */
  lemma {:induction false} TrimStartShape(s: string)
    ensures var r := TrimStart(s);
      && |r| <= |s| && r == s[|s| - |r|..]
      && (r != [] ==> !IsSpace(r[0]))
      && forall k :: 0 <= k < |s| - |r| ==> IsSpace(s[k])
  {
    if s != [] && IsSpace(s[0]) {
      var tail := s[1..];
      TrimStartShape(tail);
      var r := TrimStart(tail);
      assert TrimStart(s) == r;
      assert tail[|tail| - |r|..] == s[|s| - |r|..];
      forall k | 0 <= k < |s| - |r| ensures IsSpace(s[k]) {
        if k > 0 {
          assert s[k] == tail[k - 1];
        }
      }
    }
  }

  /** `TrimEnd` removes a suffix made only of whitespace, and stops at the
      last character that is not whitespace. */
  lemma {:induction false} TrimEndShape(s: string)
    ensures var r := TrimEnd(s);
      && |r| <= |s| && r == s[..|r|]
      && (r != [] ==> !IsSpace(r[|r| - 1]))
      && forall k :: |r| <= k < |s| ==> IsSpace(s[k])
  {
    if s != [] && IsSpace(s[|s| - 1]) {
      var init := s[..|s| - 1];
      TrimEndShape(init);
      var r := TrimEnd(init);
      assert TrimEnd(s) == r;
      assert init[..|r|] == s[..|r|];
      forall k | |r| <= k < |s| ensures IsSpace(s[k]) {
        if k < |s| - 1 {
          assert s[k] == init[k];
        }
      }
    }
  }

  /** `s.strip()`. */
  function Strip(s: string): string {
    TrimEnd(TrimStart(s))
  }

  /** `Strip` keeps a slice of its input whose ends are not whitespace, and
      removes only whitespace on either side of it; it is empty exactly when
      the input is all whitespace. */
  lemma StripShape(s: string)
    ensures var r := Strip(s);
      && |r| <= |s|
      && (exists i :: 0 <= i && i + |r| <= |s| && r == s[i..i + |r|]
                      && AllSpace(s[..i]) && AllSpace(s[i + |r|..]))
      && (r != [] ==> !IsSpace(r[0]) && !IsSpace(r[|r| - 1]))
      && (r == [] <==> AllSpace(s))
  {
    TrimStartShape(s);
    var t := TrimStart(s);
    TrimEndShape(t);
    var r := TrimEnd(t);
    var i := |s| - |t|;
    assert r == s[i..i + |r|];
    assert AllSpace(s[..i]) by {
      forall k | 0 <= k < i ensures IsSpace(s[..i][k]) {
        assert s[..i][k] == s[k];
      }
    }
    var post := s[i + |r|..];
    assert AllSpace(post) by {
      forall k | 0 <= k < |post| ensures IsSpace(post[k]) {
        assert post[k] == t[|r| + k];
      }
    }
  }

  lemma {:induction false} TrimStartPadded(pre: string, s: string)
    requires AllSpace(pre)
    requires s != [] && !IsSpace(s[0])
    ensures TrimStart(pre + s) == s
    decreases |pre|
  {
    if pre != [] {
      assert (pre + s)[1..] == pre[1..] + s;
      TrimStartPadded(pre[1..], s);
    } else {
      assert pre + s == s;
    }
  }

  lemma {:induction false} TrimEndPadded(s: string, post: string)
    requires AllSpace(post)
    requires s != [] && !IsSpace(s[|s| - 1])
    ensures TrimEnd(s + post) == s
    decreases |post|
  {
    if post != [] {
      var shorter := post[..|post| - 1];
      assert (s + post)[..|s + post| - 1] == s + shorter;
      TrimEndPadded(s, shorter);
    } else {
      assert s + post == s;
    }
  }

  /** Stripping removes exactly the whitespace padding around a word whose
      ends are not whitespace. */
  lemma StripPadded(pre: string, w: string, post: string)
    requires AllSpace(pre) && AllSpace(post)
    requires w != [] && !IsSpace(w[0]) && !IsSpace(w[|w| - 1])
    ensures Strip(pre + w + post) == w
  {
    assert pre + w + post == pre + (w + post);
    TrimStartPadded(pre, w + post);
    TrimEndPadded(w, post);
  }

  function LowerChar(c: char): char {
    if 'A' <= c <= 'Z' then (c as int + 32) as char else c
  }

  /** `s.lower()` restricted to ASCII letters; every other character is kept. */
  function AsciiLower(s: string): (r: string)
    ensures |r| == |s|
    ensures forall k :: 0 <= k < |s| ==> r[k] == LowerChar(s[k])
  {
    if s == [] then [] else [LowerChar(s[0])] + AsciiLower(s[1..])
  }

  /** `part in s` for Python strings. */
  predicate IsInfix(part: string, s: string)
    decreases |s|
  {
    |part| <= |s| && (part == s[..|part|] || (s != [] && IsInfix(part, s[1..])))
  }

  lemma {:induction false} InfixExtendRight(part: string, s: string, b: string)
    requires IsInfix(part, s)
    ensures IsInfix(part, s + b)
    decreases |s|
  {
    if part == s[..|part|] {
      assert (s + b)[..|part|] == part;
    } else {
      assert (s + b)[1..] == s[1..] + b;
      InfixExtendRight(part, s[1..], b);
    }
  }

  lemma {:induction false} InfixExtendLeft(a: string, part: string, s: string)
    requires IsInfix(part, s)
    ensures IsInfix(part, a + s)
    decreases |a|
  {
    if a != [] {
      assert (a + s)[1..] == a[1..] + s;
      InfixExtendLeft(a[1..], part, s);
    } else {
      assert a + s == s;
    }
  }

  /** A text placed between any two strings occurs in their concatenation. */
  lemma InfixOfConcat(a: string, part: string, b: string)
    ensures IsInfix(part, a + part + b)
  {
    assert (part + b)[..|part|] == part;
    InfixExtendLeft(a, part, part + b);
    assert a + (part + b) == a + part + b;
  }

  /** A text occurring in the middle piece of a concatenation occurs in the
      whole. */
  lemma InfixWithin(a: string, part: string, s: string, b: string)
    requires IsInfix(part, s)
    ensures IsInfix(part, a + s + b)
  {
    InfixExtendLeft(a, part, s);
    InfixExtendRight(part, a + s, b);
  }

  /** Both inner pieces of `a + x + b + y + c` occur in it. */
  lemma InfixOfConcat5(a: string, x: string, b: string, y: string, c: string)
    ensures IsInfix(x, a + x + b + y + c)
    ensures IsInfix(y, a + x + b + y + c)
  {
    InfixOfConcat(a, x, b);
    InfixExtendRight(x, a + x + b, y);
    InfixExtendRight(x, a + x + b + y, c);
    InfixOfConcat(a + x + b, y, c);
  }

  function DigitChar(d: nat): char
    requires d < 10
  {
    ('0' as int + d) as char
  }

  /** The decimal digits of a natural number, most significant first. */
  function Digits(n: nat): (r: string)
    ensures r != []
    ensures forall k :: 0 <= k < |r| ==> '0' <= r[k] <= '9'
    decreases n
  {
    if n < 10 then [DigitChar(n)] else Digits(n / 10) + [DigitChar(n % 10)]
  }

  /** `str(n)` for a Python `int`. */
  function Decimal(n: int): string {
    if n < 0 then "-" + Digits(-n) else Digits(n)
  }

  /** The value of a string of decimal digits; the reference against which
      `Decimal` is checked. */
  function DigitsValue(s: string): int {
    if s == [] then 0 else DigitsValue(s[..|s| - 1]) * 10 + (s[|s| - 1] as int - '0' as int)
  }

  /** `int(s)` for what `Decimal` produces. */
  function ParseDecimal(s: string): int {
    if s != [] && s[0] == '-' then -DigitsValue(s[1..]) else DigitsValue(s)
  }

  lemma {:induction false} DigitsRoundTrip(n: nat)
    ensures DigitsValue(Digits(n)) == n
    decreases n
  {
    if n >= 10 {
      var init := Digits(n / 10);
      var whole := init + [DigitChar(n % 10)];
      assert whole[..|whole| - 1] == init;
      DigitsRoundTrip(n / 10);
    }
  }

  /** The topic id written into a prompt reads back as the same integer. */
  lemma DecimalRoundTrip(n: int)
    ensures ParseDecimal(Decimal(n)) == n
  {
    if n < 0 {
      assert ("-" + Digits(-n))[1..] == Digits(-n);
      DigitsRoundTrip(-n);
    } else {
      DigitsRoundTrip(n);
    }
  }
}
