/** Models of the JavaScript string operations the source relies on:
    `includes`, `indexOf`, `replace` with a string pattern, `split(sep).pop()`,
    anchored extension stripping, `toLowerCase` and `x || fallback` on strings. */
module Strings {

  /** `s.includes(t)`: `t` occurs in `s` as a contiguous block. */
  function Contains(s: string, t: string): bool
    decreases |s|
  {
    |t| <= |s| && (s[..|t|] == t || Contains(s[1..], t))
  }

  /** `t` occurs in `s` starting at index `i`. */
  predicate OccursAt(s: string, t: string, i: int)
  {
    0 <= i && i + |t| <= |s| && s[i..i + |t|] == t
  }

  /** `Contains` agrees with the definition by an occurrence index. */
  lemma {:induction false} ContainsIff(s: string, t: string)
    ensures Contains(s, t) <==> exists i :: OccursAt(s, t, i)
    decreases |s|
  {
    if |t| <= |s| {
      if s[..|t|] == t {
        assert OccursAt(s, t, 0);
      } else {
        assert !OccursAt(s, t, 0);
        assert |s| > 0;
        ContainsIff(s[1..], t);
        OccursShift(s, t);
        if Contains(s[1..], t) {
          var i :| OccursAt(s[1..], t, i);
          assert OccursAt(s, t, i + 1);
        }
        if exists i :: OccursAt(s, t, i) {
          var i :| OccursAt(s, t, i);
          assert OccursAt(s[1..], t, i - 1);
        }
      }
    }
  }

  /** An occurrence at index `i >= 1` of `s` is one at `i - 1` of its tail. */
  lemma OccursShift(s: string, t: string)
    requires |s| > 0
    ensures forall i :: 1 <= i ==> (OccursAt(s, t, i) <==> OccursAt(s[1..], t, i - 1))
  {
    forall i | 1 <= i && i + |t| <= |s|
      ensures OccursAt(s, t, i) <==> OccursAt(s[1..], t, i - 1)
    {
      SliceOfTail(s, i, |t|);
    }
  }

  /** A block of `s` starting at `i >= 1` is the block of its tail starting at `i - 1`. */
  lemma SliceOfTail(s: string, i: int, n: nat)
    requires 1 <= i && i + n <= |s|
    ensures s[i..i + n] == s[1..][i - 1..i - 1 + n]
  {
    var a := s[i..i + n];
    var b := s[1..][i - 1..i - 1 + n];
    forall j | 0 <= j < n ensures a[j] == b[j] {
      assert a[j] == s[i + j];
      assert b[j] == s[1..][i - 1 + j];
    }
  }

  /** An occurrence at a known index witnesses `Contains`. */
  lemma ContainsAt(s: string, t: string, i: nat)
    requires OccursAt(s, t, i)
    ensures Contains(s, t)
  {
    ContainsIff(s, t);
  }

  /** A string never contains a text with a character it lacks. */
  lemma {:induction false} MissingChar(s: string, t: string, c: char)
    requires c in t && c !in s
    ensures !Contains(s, t)
    decreases |s|
  {
    if |t| <= |s| {
      MissingChar(s[1..], t, c);
    }
  }

  /** `s + t` contains `t`. */
  lemma ContainsSuffix(s: string, t: string)
    ensures Contains(s + t, t)
  {
    assert OccursAt(s + t, t, |s|);
    ContainsAt(s + t, t, |s|);
  }

  /** A text that starts with `t` contains `t`. */
  lemma PrefixContains(s: string, t: string)
    requires |t| <= |s| && s[..|t|] == t
    ensures Contains(s, t)
  {
  }

  /** `t` is not at the start of `s` when their second characters differ. */
  lemma SecondCharDiffers(s: string, t: string)
    requires 2 <= |t| && 2 <= |s| && s[1] != t[1]
    ensures !OccursAt(s, t, 0)
  {
    assert |s| < |t| || s[0..|t|][1] == s[1];
  }

  /** `s.endsWith(t)`. */
  predicate EndsWith(s: string, t: string)
  {
    |t| <= |s| && s[|s| - |t|..] == t
  }

  /** `s.indexOf(t)`: the first index at which `t` occurs, or -1. */
  function IndexOf(s: string, t: string): (i: int)
    ensures i == -1 || OccursAt(s, t, i)
    ensures i == -1 <==> !Contains(s, t)
    ensures forall j :: 0 <= j && (i == -1 || j < i) ==> !OccursAt(s, t, j)
    decreases |s|
  {
    ContainsIff(s, t);
    if |t| > |s| then -1
    else if s[..|t|] == t then assert OccursAt(s, t, 0); 0
    else if s == [] then -1
    else
      var j := IndexOf(s[1..], t);
      ContainsIff(s[1..], t);
      OccursShift(s, t);
      if j < 0 then -1 else j + 1
  }

  /** `s.replace(t, u)` with a string pattern: only the first occurrence of `t` is replaced. */
  function ReplaceFirst(s: string, t: string, u: string): (r: string)
    ensures !Contains(s, t) ==> r == s
    ensures Contains(s, t) ==> exists i :: OccursAt(s, t, i) && (forall j :: 0 <= j < i ==> !OccursAt(s, t, j))
                                     && r == s[..i] + u + s[i + |t|..]
  {
    var i := IndexOf(s, t);
    if i < 0 then s else s[..i] + u + s[i + |t|..]
  }

  /** `s.split(sep).pop()`: the text after the last `sep`, or all of `s` when it has none. */
  function AfterLast(s: string, sep: char): (r: string)
    ensures sep !in r
    ensures |r| <= |s| && r == s[|s| - |r|..]
    ensures |r| < |s| ==> s[|s| - |r| - 1] == sep
  {
    if s == [] then []
    else if s[|s| - 1] == sep then []
    else AfterLast(s[..|s| - 1], sep) + [s[|s| - 1]]
  }

  /** The text after the last separator is exactly what follows the separator when it is the last one. */
  lemma {:induction false} AfterLastOfJoin(p: string, sep: char, r: string)
    requires sep !in r
    ensures AfterLast(p + [sep] + r, sep) == r
    decreases |r|
  {
    var s := p + [sep] + r;
    if r != [] {
      assert s[..|s| - 1] == p + [sep] + r[..|r| - 1];
      AfterLastOfJoin(p, sep, r[..|r| - 1]);
      assert r == r[..|r| - 1] + [r[|r| - 1]];
    }
  }

  /** A string without the separator is its own last segment. */
  lemma AfterLastNoSep(s: string, sep: char)
    requires sep !in s
    ensures AfterLast(s, sep) == s
  {
  }

  /** A character missing from a string is missing from each of its prefixes. */
  lemma NotInPrefix(s: string, n: nat, c: char)
    requires c !in s && n <= |s|
    ensures c !in s[..n]
  {
    assert forall i :: 0 <= i < n ==> s[..n][i] == s[i];
  }

  /** `s.replace(/\.(e1|e2|...)$/, "")`: drops one trailing `.` followed by one of `exts`, if any. */
  function StripExtension(s: string, exts: seq<string>): (r: string)
    ensures r == s || exists k :: 0 <= k < |exts| && r + "." + exts[k] == s
    ensures |r| <= |s| && r == s[..|r|]
    ensures (forall k :: 0 <= k < |exts| ==> !EndsWith(s, "." + exts[k])) ==> r == s
  {
    if exts == [] then s
    else if EndsWith(s, "." + exts[0]) then
      assert s[..|s| - |exts[0]| - 1] + "." + exts[0] == s;
      s[..|s| - |exts[0]| - 1]
    else
      var r := StripExtension(s, exts[1..]);
      assert forall k :: 1 <= k < |exts| ==> exts[1..][k - 1] == exts[k];
      r
  }

  /** The first extension of the list that `s` ends with is the one stripped. */
  lemma {:induction false} StripExtensionAt(s: string, exts: seq<string>, k: nat)
    requires k < |exts| && EndsWith(s, "." + exts[k])
    requires forall j :: 0 <= j < k ==> !EndsWith(s, "." + exts[j])
    ensures StripExtension(s, exts) == s[..|s| - |exts[k]| - 1]
    decreases k
  {
    if k > 0 {
      assert forall j :: 0 <= j < k - 1 ==> exts[1..][j] == exts[j + 1];
      StripExtensionAt(s, exts[1..], k - 1);
    }
  }

  /** A text that ends with one of the extensions loses something. */
  lemma {:induction false} StripShortens(s: string, exts: seq<string>, k: nat)
    requires k < |exts| && EndsWith(s, "." + exts[k])
    ensures |StripExtension(s, exts)| < |s|
    decreases k
  {
    if !EndsWith(s, "." + exts[0]) {
      assert exts[1..][k - 1] == exts[k];
      StripShortens(s, exts[1..], k - 1);
    }
  }

  /** `s` does not end with `t` when their last characters differ. */
  lemma LastCharDiffers(s: string, t: string)
    requires |s| > 0 && |t| > 0 && s[|s| - 1] != t[|t| - 1]
    ensures !EndsWith(s, t)
  {
    assert |t| > |s| || s[|s| - |t|..][|t| - 1] == s[|s| - 1];
  }

  /** The extensions `/\.(tsx|jsx|ts|js|py|java)$/` removes when a test file is named. */
  const SourceExtensions: seq<string> := ["tsx", "jsx", "ts", "js", "py", "java"]

  /** `/\.(tsx|jsx)$/`. */
  const ComponentExtensions: seq<string> := ["tsx", "jsx"]

  /** `/\.(ts|js)$/`. */
  const ModuleExtensions: seq<string> := ["ts", "js"]

  /** Lower-cases an ASCII letter; every other character is kept. */
  function LowerChar(c: char): char
  {
    if 'A' <= c <= 'Z' then (c as int + 32) as char else c
  }

  /** Upper-cases an ASCII letter; every other character is kept. */
  function UpperChar(c: char): char
  {
    if 'a' <= c <= 'z' then (c as int - 32) as char else c
  }

  /** `s.toLowerCase()`, for ASCII letters. */
  function ToLower(s: string): (r: string)
    ensures |r| == |s|
    ensures forall i :: 0 <= i < |s| ==> r[i] == LowerChar(s[i])
  {
    seq(|s|, i requires 0 <= i < |s| => LowerChar(s[i]))
  }

  /** Lower-casing twice is lower-casing once. */
  lemma ToLowerIdempotent(s: string)
    ensures ToLower(ToLower(s)) == ToLower(s)
  {
  }

  /** Lower-casing works character by character. */
  lemma ToLowerSnoc(u: string, c: char)
    ensures ToLower(u + [c]) == ToLower(u) + [LowerChar(c)]
  {
  }

  /** Lower-casing keeps every `.` where it was and adds none, so it commutes with
      taking the text after the last `.`. */
  lemma {:induction false} AfterLastToLower(s: string)
    ensures AfterLast(ToLower(s), '.') == ToLower(AfterLast(s, '.'))
    decreases |s|
  {
    if s != [] {
      var u, c := s[..|s| - 1], s[|s| - 1];
      assert s == u + [c];
      ToLowerSnoc(u, c);
      AfterLastSnoc(u, c, '.');
      AfterLastSnoc(ToLower(u), LowerChar(c), '.');
      if c != '.' {
        AfterLastToLower(u);
        ToLowerSnoc(AfterLast(u, '.'), c);
      }
    }
  }

  /** The text after the last separator of `u + [c]`. */
  lemma AfterLastSnoc(u: string, c: char, sep: char)
    ensures AfterLast(u + [c], sep) == if c == sep then [] else AfterLast(u, sep) + [c]
  {
    assert (u + [c])[..|u|] == u;
  }

  /** `t` does not occur in `s` when it is not at the start and its first character
      appears nowhere after the start. */
  lemma NotContainsFirstOnly(s: string, t: string)
    requires |t| > 0 && !OccursAt(s, t, 0)
    requires forall i :: 1 <= i < |s| ==> s[i] != t[0]
    ensures !Contains(s, t)
  {
    ContainsIff(s, t);
    assert forall i :: !OccursAt(s, t, i);
  }

  /** `s.charAt(0).toUpperCase() + s.slice(1)`. */
  function UpperFirst(s: string): (r: string)
    ensures |r| == |s|
    ensures |s| > 0 ==> r[0] == UpperChar(s[0]) && r[1..] == s[1..]
  {
    if s == [] then [] else [UpperChar(s[0])] + s[1..]
  }

  /** `s || fallback` on a string: the empty string is falsy. */
  function OrElse(s: string, fallback: string): (r: string)
    ensures s != [] ==> r == s
    ensures s == [] ==> r == fallback
  {
    if s == [] then fallback else s
  }
}
