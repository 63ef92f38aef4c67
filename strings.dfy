/**
 * String operations the JavaScript and Python sources rely on, written out:
 * prefix/suffix/substring tests, ASCII case mapping, the two languages'
 * whitespace sets and trimming, splitting on one character and joining,
 * and decimal rendering of natural numbers.
 */
module Strings {

  predicate StartsWith(s: string, p: string) {
    |p| <= |s| && s[..|p|] == p
  }

  predicate EndsWith(s: string, p: string) {
    |p| <= |s| && s[|s| - |p|..] == p
  }

  lemma StartsWithAppend(a: string, b: string)
    ensures StartsWith(a + b, a)
  {
    assert (a + b)[..|a|] == a;
  }

  lemma EndsWithAppend(a: string, b: string)
    ensures EndsWith(a + b, b)
  {
    assert (a + b)[|a|..] == b;
  }

  /** A prefix of a prefix. */
  lemma StartsWithTrans(s: string, p: string, q: string)
    requires StartsWith(s, p) && StartsWith(p, q)
    ensures StartsWith(s, q)
  {
    assert s[..|q|] == s[..|p|][..|q|];
  }

  /** Two strings whose first characters differ are not prefixes of the same string. */
  lemma PrefixesDiffer(s: string, p: string, q: string)
    requires StartsWith(s, p) && |p| > 0 && |q| > 0 && p[0] != q[0]
    ensures !StartsWith(s, q)
  {
    assert s[0] == p[0];
  }

  lemma SliceMiddle(a: string, b: string, c: string)
    ensures (a + b + c)[|a|..|a| + |b|] == b
  {
  }

  /** `s.includes(p)` in JavaScript, `p in s` in Python. */
  predicate Contains(s: string, p: string)
    decreases |s|
  {
    StartsWith(s, p) || (|s| > 0 && Contains(s[1..], p))
  }

  /** Contains agrees with the positional reading "p occurs at some index of s". */
  lemma {:induction false} ContainsAt(s: string, p: string, i: nat)
    requires i + |p| <= |s| && s[i..i + |p|] == p
    ensures Contains(s, p)
    decreases i
  {
    if i == 0 {
      assert s[..|p|] == p;
    } else {
      assert s[1..][i - 1..i - 1 + |p|] == s[i..i + |p|];
      ContainsAt(s[1..], p, i - 1);
    }
  }

  lemma {:induction false} ContainsWitness(s: string, p: string) returns (i: nat)
    requires Contains(s, p)
    ensures i + |p| <= |s| && s[i..i + |p|] == p
    decreases |s|
  {
    if StartsWith(s, p) {
      i := 0;
    } else {
      var j := ContainsWitness(s[1..], p);
      assert s[1..][j..j + |p|] == s[j + 1..j + 1 + |p|];
      i := j + 1;
    }
  }

  /** `p` occurs in `s` at index `i`. */
  predicate OccursAt(s: string, p: string, i: nat) {
    i + |p| <= |s| && s[i..i + |p|] == p
  }

  /** No window of `s` spells `p`, so `s` does not contain it. */
  lemma {:induction false} NotContains(s: string, p: string)
    requires forall i :: 0 <= i <= |s| - |p| ==> !OccursAt(s, p, i)
    ensures !Contains(s, p)
    decreases |s|
  {
    if |p| <= |s| {
      assert !OccursAt(s, p, 0);
      assert s[0..|p|] == s[..|p|];
    }
    if |s| > 0 {
      forall i | 0 <= i <= |s| - 1 - |p|
        ensures !OccursAt(s[1..], p, i)
      {
        assert !OccursAt(s, p, i + 1);
        assert s[1..][i..i + |p|] == s[i + 1..i + 1 + |p|];
      }
      NotContains(s[1..], p);
    }
  }

  /** `s` has no two neighbouring characters equal to the first two of `p`, so it does not contain `p`. */
  lemma NotContainsByPair(s: string, p: string)
    requires |p| >= 2
    requires forall i :: 0 <= i < |s| - 1 ==> !(s[i] == p[0] && s[i + 1] == p[1])
    ensures !Contains(s, p)
  {
    forall i | 0 <= i <= |s| - |p|
      ensures !OccursAt(s, p, i)
    {
      assert s[i..i + |p|][0] == s[i] && s[i..i + |p|][1] == s[i + 1];
    }
    NotContains(s, p);
  }

  lemma ContainsPrefix(a: string, b: string, p: string)
    requires Contains(a, p)
    ensures Contains(a + b, p)
  {
    var i := ContainsWitness(a, p);
    assert (a + b)[i..i + |p|] == a[i..i + |p|];
    ContainsAt(a + b, p, i);
  }

  lemma ContainsSuffix(a: string, b: string, p: string)
    requires Contains(b, p)
    ensures Contains(a + b, p)
  {
    var i := ContainsWitness(b, p);
    assert (a + b)[|a| + i..|a| + i + |p|] == b[i..i + |p|];
    ContainsAt(a + b, p, |a| + i);
  }

  lemma AppendAssoc<T>(a: seq<T>, b: seq<T>, c: seq<T>)
    ensures (a + b) + c == a + (b + c)
  {
  }

  /** A pattern whose first character never appears in `s` does not occur in `s`. */
  lemma NotContainsByHead(s: string, p: string)
    requires |p| >= 1 && p[0] !in s
    ensures !Contains(s, p)
  {
    forall i | 0 <= i <= |s| - |p|
      ensures !OccursAt(s, p, i)
    {
      assert s[i..i + |p|][0] == s[i];
    }
    NotContains(s, p);
  }

  lemma ContainsSelf(s: string)
    ensures Contains(s, s)
  {
    assert s[0..|s|] == s;
    ContainsAt(s, s, 0);
  }

  // ---------------------------------------------------------------- case

  predicate IsUpper(c: char) { 'A' <= c <= 'Z' }
  predicate IsLower(c: char) { 'a' <= c <= 'z' }
  predicate IsDigit(c: char) { '0' <= c <= '9' }

  function LowerChar(c: char): (r: char)
    ensures IsUpper(c) ==> IsLower(r) && r as int == c as int + 32
    ensures !IsUpper(c) ==> r == c
  {
    if IsUpper(c) then (c as int + 32) as char else c
  }

  function UpperChar(c: char): (r: char)
    ensures IsLower(c) ==> IsUpper(r) && r as int == c as int - 32
    ensures !IsLower(c) ==> r == c
  {
    if IsLower(c) then (c as int - 32) as char else c
  }

  /**
   * One character of `toLowerCase()` / `lower()`, exact wherever the result
   * is compared with ASCII text: A-Z lower by 32, the Kelvin sign lowers to
   * `k` and the capital I with dot to `i` and a combining dot above. Every
   * other character stands for its own lower-case form, which is never an
   * ASCII character either.
   */
  function LowerPiece(c: char): (r: string)
    ensures |r| >= 1
    ensures (c as int) < 128 ==> r == [LowerChar(c)]
  {
    if c == '\U{212A}' then "k"
    else if c == '\U{0130}' then "i\U{0307}"
    else [LowerChar(c)]
  }

  function Lower(s: string): (r: string)
    ensures |r| >= |s|
    decreases |s|
  {
    if |s| == 0 then "" else LowerPiece(s[0]) + Lower(s[1..])
  }

  lemma {:induction false} LowerAppend(a: string, b: string)
    ensures Lower(a + b) == Lower(a) + Lower(b)
    decreases |a|
  {
    if |a| > 0 {
      assert (a + b)[0] == a[0];
      assert (a + b)[1..] == a[1..] + b;
      LowerAppend(a[1..], b);
      assert Lower(a + b) == LowerPiece(a[0]) + Lower(a[1..] + b);
    } else {
      assert a + b == b;
    }
  }

  // ---------------------------------------------------------- whitespace

  /** The characters JavaScript's `trim()` removes: WhiteSpace and LineTerminator of ECMA-262. */
  predicate IsJsSpace(c: char) {
    var n := c as int;
    n == 0x09 || n == 0x0A || n == 0x0B || n == 0x0C || n == 0x0D || n == 0x20 ||
    n == 0xA0 || n == 0x1680 || (0x2000 <= n <= 0x200A) || n == 0x2028 || n == 0x2029 ||
    n == 0x202F || n == 0x205F || n == 0x3000 || n == 0xFEFF
  }

  /** The characters for which Python's `str.isspace()` holds (also what `\s` matches in a `str` pattern). */
  predicate IsPySpace(c: char) {
    var n := c as int;
    (0x09 <= n <= 0x0D) || (0x1C <= n <= 0x20) || n == 0x85 || n == 0xA0 || n == 0x1680 ||
    (0x2000 <= n <= 0x200A) || n == 0x2028 || n == 0x2029 || n == 0x202F || n == 0x205F || n == 0x3000
  }

  /** Drop the leading characters that satisfy `sp`. */
  function TrimLeft(s: string, sp: char -> bool): (r: string)
    ensures |r| <= |s| && r == s[|s| - |r|..]
    ensures r == [] || !sp(r[0])
    ensures forall i :: 0 <= i < |s| - |r| ==> sp(s[i])
    decreases |s|
  {
    if |s| > 0 && sp(s[0]) then TrimLeft(s[1..], sp) else s
  }

  /** Drop the trailing characters that satisfy `sp`. */
  function TrimRight(s: string, sp: char -> bool): (r: string)
    ensures |r| <= |s| && r == s[..|r|]
    ensures r == [] || !sp(r[|r| - 1])
    ensures forall i :: |r| <= i < |s| ==> sp(s[i])
    decreases |s|
  {
    if |s| > 0 && sp(s[|s| - 1]) then TrimRight(s[..|s| - 1], sp) else s
  }

  /** JavaScript `s.trim()`. */
  function TrimJs(s: string): (r: string)
  {
    TrimRight(TrimLeft(s, IsJsSpace), IsJsSpace)
  }

  /** Python `s.strip()` with no argument. */
  function StripPy(s: string): (r: string)
  {
    TrimRight(TrimLeft(s, IsPySpace), IsPySpace)
  }

  /** Trimming a trimmed string changes nothing. */
  lemma TrimIdempotent(s: string, sp: char -> bool)
    ensures var t := TrimRight(TrimLeft(s, sp), sp); TrimRight(TrimLeft(t, sp), sp) == t
  {
    var l := TrimLeft(s, sp);
    var t := TrimRight(l, sp);
    if |t| > 0 {
      assert t[0] == l[0];
      assert TrimLeft(t, sp) == t;
      assert TrimRight(t, sp) == t;
    }
  }

  /** Trimming keeps a prefix that neither starts nor ends with a space. */
  lemma TrimJsKeepsPrefix(s: string, p: string)
    requires StartsWith(s, p) && |p| > 0 && !IsJsSpace(p[0]) && !IsJsSpace(p[|p| - 1])
    ensures StartsWith(TrimJs(s), p)
  {
    var l := TrimLeft(s, IsJsSpace);
    assert l == s;
    var r := TrimRight(l, IsJsSpace);
    assert r[..|p|] == s[..|p|];
  }

  // ------------------------------------------------------ split and join

  /** `s.split(c)` in JavaScript and Python: every occurrence of `c` separates two (possibly empty) pieces. */
  function Split(s: string, c: char): (r: seq<string>)
    ensures |r| >= 1
    ensures forall i :: 0 <= i < |r| ==> c !in r[i]
    decreases |s|
  {
    if |s| == 0 then [""]
    else
      var rest := Split(s[1..], c);
      if s[0] == c then [""] + rest else [[s[0]] + rest[0]] + rest[1..]
  }

  /** `sep.join(parts)` in Python, `parts.join(sep)` in JavaScript. */
  function Join(parts: seq<string>, sep: string): string
    decreases |parts|
  {
    if |parts| == 0 then ""
    else if |parts| == 1 then parts[0]
    else parts[0] + sep + Join(parts[1..], sep)
  }

  lemma JoinConsHead(x: char, parts: seq<string>, sep: string)
    requires |parts| >= 1
    ensures Join([[x] + parts[0]] + parts[1..], sep) == [x] + Join(parts, sep)
  {
    var q := [[x] + parts[0]] + parts[1..];
    if |parts| > 1 {
      assert q[1..] == parts[1..];
    }
  }

  /** Joining the pieces of a split with the separator gives back the original string. */
  lemma {:induction false} JoinSplit(s: string, c: char)
    ensures Join(Split(s, c), [c]) == s
    decreases |s|
  {
    if |s| > 0 {
      var rest := Split(s[1..], c);
      JoinSplit(s[1..], c);
      if s[0] == c {
        assert ([""] + rest)[1..] == rest;
      } else {
        JoinConsHead(s[0], rest, [c]);
      }
    }
  }

  /** A string without the separator splits into itself alone. */
  lemma {:induction false} SplitNoSeparator(s: string, c: char)
    requires c !in s
    ensures Split(s, c) == [s]
    decreases |s|
  {
    if |s| > 0 {
      assert c !in s[1..] by {
        forall i | 0 <= i < |s[1..]| ensures s[1..][i] != c {
          assert s[1..][i] == s[i + 1];
        }
      }
      SplitNoSeparator(s[1..], c);
      assert s == [s[0]] + s[1..];
    }
  }

  /** Joining the first k pieces of a split (k >= 1) gives a prefix of the original string. */
  lemma {:induction false} JoinSplitPrefix(s: string, c: char, k: nat)
    requires 1 <= k <= |Split(s, c)|
    ensures StartsWith(s, Join(Split(s, c)[..k], [c]))
    decreases |s|
  {
    if |s| > 0 {
      var rest := Split(s[1..], c);
      if s[0] == c {
        var q := ([""] + rest)[..k];
        if k > 1 {
          assert q[1..] == rest[..k - 1];
          JoinSplitPrefix(s[1..], c, k - 1);
          var j := Join(rest[..k - 1], [c]);
          assert Join(q, [c]) == "" + [c] + j;
          assert s == [c] + s[1..];
        }
      } else {
        var q := ([[s[0]] + rest[0]] + rest[1..])[..k];
        assert q == [[s[0]] + rest[..k][0]] + rest[..k][1..];
        JoinConsHead(s[0], rest[..k], [c]);
        JoinSplitPrefix(s[1..], c, k);
        assert s == [s[0]] + s[1..];
      }
    }
  }

  // ----------------------------------------------------------- numbers

  function Min(a: nat, b: nat): nat { if a < b then a else b }

  function DigitChar(d: nat): (c: char)
    requires d < 10
    ensures IsDigit(c)
  {
    ('0' as int + d) as char
  }

  /** Decimal rendering of a natural number, as JavaScript's `String(n)` and Python's `str(n)` give it. */
  function NatToString(n: nat): (r: string)
    ensures |r| >= 1
    ensures forall i :: 0 <= i < |r| ==> IsDigit(r[i])
  {
    if n < 10 then [DigitChar(n)] else NatToString(n / 10) + [DigitChar(n % 10)]
  }

  /** Decimal rendering of an integer, with a leading `-` when negative. */
  function IntToString(n: int): string
  {
    if n < 0 then "-" + NatToString(-n) else NatToString(n)
  }
}
