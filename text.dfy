/**
 * Character and string helpers with the semantics the C# and TypeScript code relies on:
 * ordinal comparison, ASCII case folding, the .NET and ECMAScript white-space sets used
 * by `Trim`, substring search, joining and decimal rendering.
 */
module Text {

  // ---------------------------------------------------------------- case folding

  function LowerChar(c: char): char
  {
    if 'A' <= c <= 'Z' then (c as int + 32) as char else c
  }

  predicate IsUpper(c: char)
  {
    'A' <= c <= 'Z'
  }

  /** `ToLower()` / `toLowerCase()`, restricted to the ASCII letters. */
  function Lower(s: string): (r: string)
    ensures |r| == |s|
    ensures forall i :: 0 <= i < |s| ==> r[i] == LowerChar(s[i])
  {
    seq(|s|, i requires 0 <= i < |s| => LowerChar(s[i]))
  }

  lemma LowerIdempotent(s: string)
    ensures Lower(Lower(s)) == Lower(s)
  {
    assert forall i :: 0 <= i < |s| ==> Lower(Lower(s))[i] == Lower(s)[i];
  }

  lemma LowerConcat(a: string, b: string)
    ensures Lower(a + b) == Lower(a) + Lower(b)
  {
    assert forall i :: 0 <= i < |a + b| ==> Lower(a + b)[i] == (Lower(a) + Lower(b))[i];
  }

  lemma LowerSlice(s: string, i: int, j: int)
    requires 0 <= i <= j <= |s|
    ensures Lower(s)[i..j] == Lower(s[i..j])
  {
    assert forall k :: 0 <= k < j - i ==> Lower(s)[i..j][k] == Lower(s[i..j])[k];
  }

  /** `string.Equals(a, b, StringComparison.OrdinalIgnoreCase)` over ASCII letters. */
  predicate EqualsIgnoreCase(a: string, b: string)
  {
    Lower(a) == Lower(b)
  }

  // ---------------------------------------------------------------- white space

  /** `char.IsWhiteSpace` of .NET: the Unicode separators plus the C0 controls 9..13 and U+0085. */
  predicate DotNetSpace(c: char)
  {
    var n := c as int;
    (9 <= n <= 13) || n == 0x20 || n == 0x85 || n == 0xA0 || n == 0x1680
    || (0x2000 <= n <= 0x200A) || n == 0x2028 || n == 0x2029 || n == 0x202F
    || n == 0x205F || n == 0x3000
  }

  /** The characters `String.prototype.trim` removes (white space and line terminators of ECMAScript). */
  predicate JsSpace(c: char)
  {
    var n := c as int;
    (9 <= n <= 13) || n == 0x20 || n == 0xA0 || n == 0x1680
    || (0x2000 <= n <= 0x200A) || n == 0x2028 || n == 0x2029 || n == 0x202F
    || n == 0x205F || n == 0x3000 || n == 0xFEFF
  }

  function LeadingSpaces(s: string, ws: char -> bool): (n: nat)
    ensures n <= |s|
    ensures forall i :: 0 <= i < n ==> ws(s[i])
    ensures n < |s| ==> !ws(s[n])
  {
    if s == [] || !ws(s[0]) then 0 else 1 + LeadingSpaces(s[1..], ws)
  }

  function TrailingSpaces(s: string, ws: char -> bool): (n: nat)
    ensures n <= |s|
    ensures forall i :: |s| - n <= i < |s| ==> ws(s[i])
    ensures n < |s| ==> !ws(s[|s| - 1 - n])
  {
    if s == [] || !ws(s[|s| - 1]) then 0 else 1 + TrailingSpaces(s[..|s| - 1], ws)
  }

  /**
   * `r` is `s` with a white-space prefix and a white-space suffix removed, and `r` neither
   * starts nor ends with white space: this pins down what trimming returns.
   */
  predicate TrimmedAt(s: string, r: string, i: int, ws: char -> bool)
  {
    0 <= i && i + |r| <= |s| && s[i..i + |r|] == r
    && (forall k :: 0 <= k < i ==> ws(s[k]))
    && (forall k :: i + |r| <= k < |s| ==> ws(s[k]))
    && (r != [] ==> !ws(r[0]) && !ws(r[|r| - 1]))
  }

  function TrimWith(s: string, ws: char -> bool): (r: string)
    ensures exists i :: TrimmedAt(s, r, i, ws)
    ensures |r| <= |s|
    ensures (s == [] || (!ws(s[0]) && !ws(s[|s| - 1]))) ==> r == s
    ensures r == [] || (!ws(r[0]) && !ws(r[|r| - 1]))
  {
    var a := LeadingSpaces(s, ws);
    var t := s[a..];
    var r := t[..|t| - TrailingSpaces(t, ws)];
    assert TrimmedAt(s, r, a, ws);
    r
  }

  /** `string.Trim()` of .NET. */
  function Trim(s: string): (r: string)
    ensures exists i :: TrimmedAt(s, r, i, DotNetSpace)
    ensures |r| <= |s|
    ensures r == [] || (!DotNetSpace(r[0]) && !DotNetSpace(r[|r| - 1]))
  {
    TrimWith(s, DotNetSpace)
  }

  /** `String.prototype.trim()` of ECMAScript. */
  function JsTrim(s: string): (r: string)
    ensures exists i :: TrimmedAt(s, r, i, JsSpace)
  {
    TrimWith(s, JsSpace)
  }

  /** Trimming twice is trimming once. */
  lemma TrimIdempotent(s: string, ws: char -> bool)
    ensures TrimWith(TrimWith(s, ws), ws) == TrimWith(s, ws)
  {
    var r := TrimWith(s, ws);
    var i :| TrimmedAt(s, r, i, ws);
  }

  // ---------------------------------------------------------------- searching

  predicate StartsWith(s: string, p: string)
  {
    |p| <= |s| && s[..|p|] == p
  }

  predicate EndsWith<T(==)>(s: seq<T>, p: seq<T>)
  {
    |p| <= |s| && s[|s| - |p|..] == p
  }

  /** `p` occurs in `s` starting at index `i`. */
  predicate MatchAt(s: string, p: string, i: int)
  {
    0 <= i && i + |p| <= |s| && s[i..i + |p|] == p
  }

  /** `p` occurs in `s` starting at index `i`, compared one character at a time. */
  predicate StartsAt(s: string, p: string, i: nat)
    decreases |p|
  {
    if p == [] then i <= |s| else i < |s| && s[i] == p[0] && StartsAt(s, p[1..], i + 1)
  }

  /** The character-wise comparison agrees with the slice comparison. */
  lemma {:induction false} StartsAtMatch(s: string, p: string, i: nat)
    ensures StartsAt(s, p, i) <==> MatchAt(s, p, i)
    decreases |p|
  {
    if p != [] && i < |s| {
      StartsAtMatch(s, p[1..], i + 1);
      if MatchAt(s, p, i) {
        assert s[i] == s[i..i + |p|][0] == p[0];
        assert s[i + 1..i + 1 + |p[1..]|] == s[i..i + |p|][1..];
      }
      if StartsAt(s, p, i) {
        assert s[i..i + |p|] == [s[i]] + s[i + 1..i + 1 + |p[1..]|];
        assert p == [p[0]] + p[1..];
      }
    }
  }

  /** `p` occurs in `s` at index `from` or later. */
  predicate ContainsFrom(s: string, p: string, from: nat)
    decreases |s| - from
  {
    from + |p| <= |s| && (s[from..from + |p|] == p || ContainsFrom(s, p, from + 1))
  }

  /** Ordinal `Contains` / `includes`. */
  predicate Contains(s: string, p: string)
  {
    ContainsFrom(s, p, 0)
  }

  /** The search from `from` succeeds exactly when some occurrence starts there or later. */
  lemma {:induction false} ContainsFromMatch(s: string, p: string, from: nat)
    ensures ContainsFrom(s, p, from) <==> exists i :: from <= i && MatchAt(s, p, i)
    decreases |s| - from
  {
    if from + |p| <= |s| {
      ContainsFromMatch(s, p, from + 1);
      if s[from..from + |p|] == p {
        assert MatchAt(s, p, from);
      }
      if exists i :: from <= i && MatchAt(s, p, i) {
        var i :| from <= i && MatchAt(s, p, i);
        if i > from {
          assert from + 1 <= i;
        }
      }
    } else {
      assert forall i :: from <= i ==> !MatchAt(s, p, i);
    }
  }

  /** `Contains` is the existence of an occurrence. */
  lemma ContainsMatch(s: string, p: string)
    ensures Contains(s, p) <==> exists i :: MatchAt(s, p, i)
  {
    ContainsFromMatch(s, p, 0);
  }

  /** `Contains(p, StringComparison.OrdinalIgnoreCase)` over ASCII letters. */
  predicate ContainsIgnoreCase(s: string, p: string)
  {
    Contains(Lower(s), Lower(p))
  }

  lemma ContainsWitness(s: string, p: string, i: int)
    requires MatchAt(s, p, i)
    ensures Contains(s, p)
  {
    ContainsMatch(s, p);
  }

  /** A string that contains `p` contains every prefix `q` of `p`. */
  lemma ContainsPrefix(s: string, p: string, q: string)
    requires Contains(s, p) && |q| <= |p| && p[..|q|] == q
    ensures Contains(s, q)
  {
    ContainsMatch(s, p);
    var i :| MatchAt(s, p, i);
    assert s[i..i + |q|] == p[..|q|];
    ContainsWitness(s, q, i);
  }

  /** A string contains every piece of a concatenation it is made of. */
  lemma ContainsMiddle(a: string, p: string, b: string)
    ensures Contains(a + p + b, p)
  {
    assert (a + p + b)[|a|..|a| + |p|] == p;
    ContainsWitness(a + p + b, p, |a|);
  }

  // ---------------------------------------------------------------- building

  /** `string.Join(sep, xs)` / `xs.join(sep)`. */
  function Join(xs: seq<string>, sep: string): string
  {
    if |xs| == 0 then "" else if |xs| == 1 then xs[0] else xs[0] + sep + Join(xs[1..], sep)
  }

  function Digit(d: nat): char
    requires d < 10
  {
    "0123456789"[d]
  }

  predicate IsDigit(c: char)
  {
    '0' <= c <= '9'
  }

  /** Decimal rendering of a non-negative integer, as string interpolation prints it. */
  function NatToString(n: nat): (r: string)
    ensures |r| >= 1
    ensures forall i :: 0 <= i < |r| ==> IsDigit(r[i])
    ensures n < 10 ==> r == [Digit(n)]
  {
    if n < 10 then [Digit(n)] else NatToString(n / 10) + [Digit(n % 10)]
  }

  /** Different numbers print differently. */
  lemma {:induction false} NatToStringInjective(a: nat, b: nat)
    requires NatToString(a) == NatToString(b)
    ensures a == b
  {
    if a >= 10 && b >= 10 {
      var sa, sb := NatToString(a), NatToString(b);
      assert sa[..|sa| - 1] == NatToString(a / 10) && sb[..|sb| - 1] == NatToString(b / 10);
      NatToStringInjective(a / 10, b / 10);
      assert Digit(a % 10) == sa[|sa| - 1] == Digit(b % 10);
    }
  }

  /**
   * A run of digits ends at the first non-digit: when two digit runs, each followed by a text
   * that starts with a non-digit, make up the same text, the runs and the rests agree.
   */
  lemma DigitRun(a: string, c: string, u: string, v: string)
    requires forall i :: 0 <= i < |a| ==> IsDigit(a[i])
    requires forall i :: 0 <= i < |c| ==> IsDigit(c[i])
    requires u != [] && !IsDigit(u[0]) && v != [] && !IsDigit(v[0])
    requires a + u == c + v
    ensures a == c && u == v
  {
    var t := a + u;
    assert t[|a|] == u[0] && t[|c|] == v[0];
    assert forall k :: 0 <= k < |c| ==> t[k] == c[k];
    assert forall k :: 0 <= k < |a| ==> t[k] == a[k];
    assert a == t[..|a|] && c == (c + v)[..|c|];
    assert u == t[|a|..] && v == (c + v)[|c|..];
  }

  /** Equal texts with an equal start agree after it. */
  lemma AfterPrefix(p: string, x: string, y: string)
    requires p + x == p + y
    ensures x == y
  {
    assert x == (p + x)[|p|..];
    assert y == (p + y)[|p|..];
  }

  /** Every occurrence of `a` replaced by `b`. */
  function ReplaceChar(s: string, a: char, b: char): (r: string)
    ensures |r| == |s|
    ensures forall i :: 0 <= i < |s| ==> r[i] == (if s[i] == a then b else s[i])
  {
    if s == [] then [] else [if s[0] == a then b else s[0]] + ReplaceChar(s[1..], a, b)
  }

  /** Decimal rendering of an integer, with a leading '-' when it is negative. */
  function IntToString(n: int): (r: string)
    ensures |r| >= 1
  {
    if n < 0 then "-" + NatToString(-n) else NatToString(n)
  }

  /** The rendering starts with '-' exactly for a negative number. */
  lemma IntToStringSign(n: int)
    ensures IntToString(n)[0] == '-' <==> n < 0
  {
    assert IsDigit(NatToString(if n < 0 then -n else n)[0]);
  }

  /** Different integers print differently. */
  lemma IntToStringInjective(a: int, b: int)
    requires IntToString(a) == IntToString(b)
    ensures a == b
  {
    IntToStringSign(a);
    IntToStringSign(b);
    if a < 0 && b < 0 {
      AfterPrefix("-", NatToString(-a), NatToString(-b));
      NatToStringInjective(-a, -b);
    } else if a >= 0 && b >= 0 {
      NatToStringInjective(a, b);
    }
  }
}
