/**
 * The few JavaScript built-ins the storefront's logic relies on, given the
 * meaning ECMAScript gives them: `Array.prototype.reduce` summing numbers,
 * the `||` fallback on numbers, the string operations `startsWith`, `slice`,
 * `trim` and `replace(/[^0-9]/g, '')`, and the regular-expression classes
 * `\s` and `\d`.
 */
module Js {
  import opened Wrappers

  // ---------------------------------------------------------------- arrays

  /** `xs.reduce((sum, x) => sum + f(x), 0)`: a left fold adding `f` of each element. */
  function Sum<T>(xs: seq<T>, f: T -> real): real
    decreases |xs|
  {
    if |xs| == 0 then 0.0 else Sum(xs[..|xs| - 1], f) + f(xs[|xs| - 1])
  }

  /** Summing a concatenation is summing its two halves. */
  lemma {:induction false} SumAppend<T>(a: seq<T>, b: seq<T>, f: T -> real)
    ensures Sum(a + b, f) == Sum(a, f) + Sum(b, f)
    decreases |b|
  {
    if |b| == 0 {
      assert a + b == a;
    } else {
      var b' := b[..|b| - 1];
      assert (a + b)[..|a + b| - 1] == a + b';
      assert (a + b)[|a + b| - 1] == b[|b| - 1];
      SumAppend(a, b', f);
    }
  }

  /** The sum over one element is that element's term. */
  lemma SumSingle<T>(x: T, f: T -> real)
    ensures Sum([x], f) == f(x)
  {
    assert [x][..0] == [];
  }

  /** A sum of a pointwise sum is the sum of the two sums. */
  lemma {:induction false} SumPointwise<T>(xs: seq<T>, f: T -> real, g: T -> real, h: T -> real)
    requires forall x :: h(x) == f(x) + g(x)
    ensures Sum(xs, h) == Sum(xs, f) + Sum(xs, g)
    decreases |xs|
  {
    if |xs| > 0 {
      SumPointwise(xs[..|xs| - 1], f, g, h);
    }
  }

  /** Scaling every term scales the sum. */
  lemma {:induction false} SumScale<T>(xs: seq<T>, f: T -> real, c: real, g: T -> real)
    requires forall x :: g(x) == c * f(x)
    ensures Sum(xs, g) == c * Sum(xs, f)
    decreases |xs|
  {
    if |xs| > 0 {
      SumScale(xs[..|xs| - 1], f, c, g);
    }
  }

  /** Two functions that agree on every element give the same sum. */
  lemma {:induction false} SumCongruent<T>(xs: seq<T>, f: T -> real, g: T -> real)
    requires forall k | 0 <= k < |xs| :: f(xs[k]) == g(xs[k])
    ensures Sum(xs, f) == Sum(xs, g)
    decreases |xs|
  {
    if |xs| > 0 {
      SumCongruent(xs[..|xs| - 1], f, g);
    }
  }

  // --------------------------------------------------------------- numbers

  /**
   * `x || fallback` on an optional number: `undefined` and `0` are falsy and
   * give the fallback; any other number is kept.
   */
  function NumberOr(x: Option<real>, fallback: real): (r: real)
    ensures x.Some? && x.value != 0.0 ==> r == x.value
    ensures x.None? || x.value == 0.0 ==> r == fallback
  {
    if x.Some? && x.value != 0.0 then x.value else fallback
  }

  // --------------------------------------------------------------- strings

  /**
   * The regular-expression class `\s`, which is also the set of characters
   * `String.prototype.trim` removes: ECMAScript WhiteSpace and LineTerminator.
   */
  predicate IsWhitespace(c: char)
  {
    var n := c as int;
    n == 0x09 || n == 0x0A || n == 0x0B || n == 0x0C || n == 0x0D || n == 0x20
    || n == 0xA0 || n == 0x1680 || (0x2000 <= n <= 0x200A)
    || n == 0x2028 || n == 0x2029 || n == 0x202F || n == 0x205F
    || n == 0x3000 || n == 0xFEFF
  }

  /** The regular-expression classes `\d` and `[0-9]`. */
  predicate IsDigit(c: char)
  {
    '0' <= c <= '9'
  }

  /** The class `[A-Z]`. */
  predicate IsUpper(c: char)
  {
    'A' <= c <= 'Z'
  }

  /** The class `[A-Za-z0-9]`. */
  predicate IsAlphanumeric(c: char)
  {
    'a' <= c <= 'z' || IsUpper(c) || IsDigit(c)
  }

  /** `/[...]/.test(s)` for a one-character class: some character of `s` is in it. */
  predicate Contains(s: string, inClass: char -> bool)
  {
    exists k | 0 <= k < |s| :: inClass(s[k])
  }

  /** `s.startsWith(prefix)`. */
  predicate StartsWith(s: string, prefix: string)
  {
    |prefix| <= |s| && s[..|prefix|] == prefix
  }

  /** `s.slice(n)` for a non-negative `n`, which yields `''` past the end. */
  function Slice(s: string, n: nat): (r: string)
    ensures n <= |s| ==> s == s[..n] + r
    ensures n >= |s| ==> r == ""
  {
    if n <= |s| then s[n..] else ""
  }

  /** `s.replace(/[^0-9]/g, '')`: the digits of `s`, in order. */
  function DigitsOnly(s: string): (r: string)
    ensures forall k | 0 <= k < |r| :: IsDigit(r[k])
    ensures |r| <= |s|
    decreases |s|
  {
    if |s| == 0 then ""
    else if IsDigit(s[0]) then [s[0]] + DigitsOnly(s[1..])
    else DigitsOnly(s[1..])
  }

  /** Removing non-digits keeps every digit in place: it distributes over concatenation. */
  lemma {:induction false} DigitsOnlyAppend(a: string, b: string)
    ensures DigitsOnly(a + b) == DigitsOnly(a) + DigitsOnly(b)
    decreases |a|
  {
    if |a| > 0 {
      assert (a + b)[1..] == a[1..] + b;
      DigitsOnlyAppend(a[1..], b);
    } else {
      assert a + b == b;
    }
  }

  /** A string of digits is left as it is: `DigitsOnly` is a projection. */
  lemma {:induction false} DigitsOnlyOfDigits(s: string)
    requires forall k | 0 <= k < |s| :: IsDigit(s[k])
    ensures DigitsOnly(s) == s
    decreases |s|
  {
    if |s| > 0 {
      DigitsOnlyOfDigits(s[1..]);
    }
  }

  /** A string with no digit is removed entirely: every character `DigitsOnly` drops is a non-digit. */
  lemma {:induction false} DigitsOnlyOfNonDigits(s: string)
    requires forall k | 0 <= k < |s| :: !IsDigit(s[k])
    ensures DigitsOnly(s) == ""
    decreases |s|
  {
    if |s| > 0 {
      DigitsOnlyOfNonDigits(s[1..]);
    }
  }

  /** `s.trimStart()`. */
  function TrimStart(s: string): (r: string)
    ensures |r| <= |s| && r == s[|s| - |r|..]
    ensures |r| > 0 ==> !IsWhitespace(r[0])
    ensures forall k | 0 <= k < |s| - |r| :: IsWhitespace(s[k])
    decreases |s|
  {
    if |s| > 0 && IsWhitespace(s[0]) then TrimStart(s[1..]) else s
  }

  /** `s.trimEnd()`. */
  function TrimEnd(s: string): (r: string)
    ensures |r| <= |s| && r == s[..|r|]
    ensures |r| > 0 ==> !IsWhitespace(r[|r| - 1])
    ensures forall k | |r| <= k < |s| :: IsWhitespace(s[k])
    decreases |s|
  {
    if |s| > 0 && IsWhitespace(s[|s| - 1]) then TrimEnd(s[..|s| - 1]) else s
  }

  /** `s.trim()`. */
  function Trim(s: string): string
  {
    TrimEnd(TrimStart(s))
  }

  /** `s.trim().length > 0` holds exactly when `s` has a character that is not whitespace. */
  lemma TrimNonEmpty(s: string)
    ensures |Trim(s)| > 0 <==> exists k | 0 <= k < |s| :: !IsWhitespace(s[k])
  {
    var t := TrimStart(s);
    if |Trim(s)| > 0 {
      var u := Trim(s);
      assert u[0] == t[0] == s[|s| - |t|];
    } else {
      // `t` would start with a non-whitespace character that `TrimEnd` cannot remove
      assert |t| == 0;
    }
  }
}
