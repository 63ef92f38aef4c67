/**
 * Node's POSIX `path.basename` and `path.extname`, and the stem
 * `path.basename(p, path.extname(p))` the services use as a title.
 */
module NodePath {
  import opened Wrappers
  import opened Strings

  predicate IsSlash(c: char) { c == '/' }

  /** The index of the last `c` in `s`, if any. */
  function LastIndexOf(s: string, c: char): (r: Option<nat>)
    ensures r.None? ==> c !in s
    ensures r.Some? ==> r.value < |s| && s[r.value] == c && c !in s[r.value + 1..]
  {
    if |s| == 0 then None
    else if s[|s| - 1] == c then Some(|s| - 1)
    else
      var r := LastIndexOf(s[..|s| - 1], c);
      assert r.Some? ==> s[r.value + 1..] == s[..|s| - 1][r.value + 1..] + [s[|s| - 1]];
      r
  }

  /** The characters after the last `/` of `s`. */
  function LastComponent(s: string): (r: string)
    ensures '/' !in r
    ensures EndsWith(s, r)
    ensures |r| < |s| ==> s[|s| - |r| - 1] == '/'
  {
    if |s| == 0 || s[|s| - 1] == '/' then ""
    else LastComponent(s[..|s| - 1]) + [s[|s| - 1]]
  }

  /** `path.basename(p)`: the last component, trailing slashes ignored. */
  function Basename(p: string): (r: string)
    ensures '/' !in r
  {
    LastComponent(TrimRight(p, IsSlash))
  }

  /** The extension of one path component, by Node's rules: from the last dot on, unless that dot is the first character or the component is `..`. */
  function Ext(b: string): (r: string)
    ensures (EndsWith(b, r) && |r| < |b|) || r == ""
    ensures r == "" || (r[0] == '.' && '.' !in r[1..])
  {
    match LastIndexOf(b, '.')
    case None => ""
    case Some(k) =>
      if k == 0 || b == ".." then "" else
      assert b[k..] == [b[k]] + b[k + 1..];
      b[k..]
  }

  /** `path.extname(p)`. */
  function ExtName(p: string): string
  {
    Ext(Basename(p))
  }

  /** `path.basename(p, path.extname(p))`: the last component without its extension. */
  function Stem(p: string): string
  {
    var b := Basename(p);
    b[..|b| - |Ext(b)|]
  }

  /** The stem and the extension put back together give the basename. */
  lemma StemExt(p: string)
    ensures Stem(p) + ExtName(p) == Basename(p)
    ensures '/' !in Stem(p) && '/' !in ExtName(p)
  {
    var b := Basename(p);
    var e := Ext(b);
    assert b == b[..|b| - |e|] + b[|b| - |e|..];
  }

  /** A non-empty name without dots or slashes followed by an extension has exactly that extension. */
  lemma {:induction false} ExtOfSuffixed(name: string, e: string)
    requires |name| > 0 && '.' !in name && '/' !in name
    requires e == "" || (e[0] == '.' && '.' !in e[1..])
    requires '/' !in e
    ensures ExtName(name + e) == e
  {
    var b := name + e;
    assert TrimRight(b, IsSlash) == b by {
      if e == "" {
        assert b[|b| - 1] == name[|name| - 1];
      } else {
        assert b[|b| - 1] == e[|e| - 1];
      }
    }
    assert Basename(b) == b by {
      LastComponentNoSlash(b);
    }
    if e == "" {
      assert b == name;
      assert LastIndexOf(b, '.') == None;
    } else {
      assert b[|name|] == '.';
      assert b[|name| + 1..] == e[1..];
      assert '.' !in b[|name| + 1..];
      LastIndexOfAt(b, '.', |name|);
      assert b[0] == name[0] && name[0] != '.';
    }
  }

  /** The last occurrence is found: an index holding `c` with no `c` after it is what LastIndexOf returns. */
  lemma {:induction false} LastIndexOfAt(s: string, c: char, k: nat)
    requires k < |s| && s[k] == c && c !in s[k + 1..]
    ensures LastIndexOf(s, c) == Some(k)
    decreases |s|
  {
    if k < |s| - 1 {
      assert s[|s| - 1] in s[k + 1..];
      assert s[..|s| - 1][k + 1..] == s[k + 1..|s| - 1];
      LastIndexOfAt(s[..|s| - 1], c, k);
    }
  }

  lemma {:induction false} LastComponentNoSlash(s: string)
    requires '/' !in s
    ensures LastComponent(s) == s
    decreases |s|
  {
    if |s| > 0 {
      LastComponentNoSlash(s[..|s| - 1]);
      assert s == s[..|s| - 1] + [s[|s| - 1]];
    }
  }
}
