/** Sequence operations shared by the components: keeping flagged entries in
    order (a chain of `if (flag) list.push(entry)`), `filter`, and `forEach` pushes. */
module Sequences {

  /** A value that may be absent (`null`/`undefined` in the source). */
  datatype Option<T> = None | Some(value: T)

  /** No entry occurs twice. */
  predicate Distinct<T(==)>(s: seq<T>)
  {
    forall i, j :: 0 <= i < j < |s| ==> s[i] != s[j]
  }

  /** The entries of `items` whose flag is set, in the order of `items`. */
  function Select<T>(flags: seq<bool>, items: seq<T>): (r: seq<T>)
    requires |flags| == |items|
    ensures |r| <= |items|
    ensures |items| > 0 && flags[0] ==> |r| > 0 && r[0] == items[0]
    decreases |items|
  {
    if items == [] then []
    else (if flags[0] then [items[0]] else []) + Select(flags[1..], items[1..])
  }

  /** Every selected entry comes from `items`, and an entry of a duplicate-free
      `items` is selected exactly when its flag is set. */
  lemma {:induction false} SelectMember<T>(flags: seq<bool>, items: seq<T>, k: int)
    requires |flags| == |items| && Distinct(items) && 0 <= k < |items|
    ensures items[k] in Select(flags, items) <==> flags[k]
    decreases |items|
  {
    SelectSubset(flags[1..], items[1..]);
    if k > 0 {
      SelectMember(flags[1..], items[1..], k - 1);
    }
  }

  /** What is selected comes from `items`. */
  lemma {:induction false} SelectSubset<T>(flags: seq<bool>, items: seq<T>)
    requires |flags| == |items|
    ensures forall x :: x in Select(flags, items) ==> x in items
    decreases |items|
  {
    if items != [] {
      SelectSubset(flags[1..], items[1..]);
    }
  }

  /** Flags that are set for the first `n` entries only select those `n` entries. */
  lemma {:induction false} SelectLeading<T>(flags: seq<bool>, items: seq<T>, n: nat)
    requires |flags| == |items| && n <= |items|
    requires forall i :: 0 <= i < |flags| ==> flags[i] == (i < n)
    ensures Select(flags, items) == items[..n]
    decreases |items|
  {
    if items != [] {
      assert forall i :: 0 <= i < |flags| - 1 ==> flags[1..][i] == flags[i + 1];
      if n == 0 {
        SelectLeading(flags[1..], items[1..], 0);
      } else {
        SelectLeading(flags[1..], items[1..], n - 1);
        assert items[..n] == [items[0]] + items[1..][..n - 1];
      }
    }
  }

  /** Selecting from a duplicate-free sequence gives a duplicate-free sequence. */
  lemma {:induction false} SelectDistinct<T>(flags: seq<bool>, items: seq<T>)
    requires |flags| == |items| && Distinct(items)
    ensures Distinct(Select(flags, items))
    decreases |items|
  {
    if items != [] {
      SelectDistinct(flags[1..], items[1..]);
      SelectSubset(flags[1..], items[1..]);
      assert items[0] !in items[1..];
    }
  }

  /** `[x]` when `c` holds, else nothing: the effect of `if (c) list.push(x)`. */
  function Optional<T>(c: bool, x: T): seq<T>
  {
    if c then [x] else []
  }

  /** `Optional(c, x)` holds `x` alone when `c` holds, and is empty otherwise. */
  lemma OptionalIn<T>(c: bool, x: T)
    ensures |Optional(c, x)| == (if c then 1 else 0)
    ensures forall y :: y in Optional(c, x) <==> c && y == x
  {
  }

  /** `s` is `t` with some entries left out: the entries of `s` occur in `t`, in the same order. */
  predicate IsSubseq<T(==)>(s: seq<T>, t: seq<T>)
    decreases |t|
  {
    if s == [] then true
    else if t == [] then false
    else (s[0] == t[0] && IsSubseq(s[1..], t[1..])) || IsSubseq(s, t[1..])
  }

  /** Putting an optional `x` in front of a subsequence of `t` gives a subsequence of `[x] + t`. */
  lemma SubseqOptionalCons<T>(c: bool, x: T, s: seq<T>, t: seq<T>)
    requires IsSubseq(s, t)
    ensures IsSubseq(Optional(c, x) + s, [x] + t)
  {
    if c {
      assert ([x] + s)[1..] == s && ([x] + t)[1..] == t;
    } else {
      assert Optional(c, x) + s == s && ([x] + t)[1..] == t;
    }
  }

  /** An entry of a sequence of at least two entries is its first, its last, or one in between. */
  lemma InFrame<T>(s: seq<T>, x: T)
    requires |s| >= 2
    ensures x in s <==> x == s[0] || x in s[1..|s| - 1] || x == s[|s| - 1]
  {
    assert s == [s[0]] + s[1..|s| - 1] + [s[|s| - 1]];
  }

  /** `s.filter(p)`: the entries that pass `p`, in the order of `s`. */
  function Filter<T>(p: T -> bool, s: seq<T>): (r: seq<T>)
    ensures |r| <= |s|
    ensures forall i :: 0 <= i < |r| ==> r[i] in s && p(r[i])
    ensures forall i :: 0 <= i < |s| && p(s[i]) ==> s[i] in r
    decreases |s|
  {
    if s == [] then []
    else (if p(s[0]) then [s[0]] else []) + Filter(p, s[1..])
  }

  /** Filtering a concatenation filters each part. */
  lemma {:induction false} FilterAppend<T>(p: T -> bool, a: seq<T>, b: seq<T>)
    ensures Filter(p, a + b) == Filter(p, a) + Filter(p, b)
    decreases |a|
  {
    if a == [] {
      assert a + b == b;
    } else {
      assert (a + b)[0] == a[0];
      assert (a + b)[1..] == a[1..] + b;
      FilterAppend(p, a[1..], b);
    }
  }

  /** Filtering a sequence whose every entry passes changes nothing. */
  lemma {:induction false} FilterAll<T>(p: T -> bool, s: seq<T>)
    requires forall i :: 0 <= i < |s| ==> p(s[i])
    ensures Filter(p, s) == s
    decreases |s|
  {
    if s != [] {
      FilterAll(p, s[1..]);
    }
  }

  /** An entry that passes keeps its number of occurrences; one that fails has none left. */
  lemma {:induction false} FilterCount<T>(p: T -> bool, s: seq<T>, x: T)
    ensures multiset(Filter(p, s))[x] == if p(x) then multiset(s)[x] else 0
    decreases |s|
  {
    if s != [] {
      FilterCount(p, s[1..], x);
      assert s == [s[0]] + s[1..];
    }
  }

  /** The kept entries keep their relative order: the result is a subsequence. */
  lemma {:induction false} FilterSubseq<T>(p: T -> bool, s: seq<T>)
    ensures IsSubseq(Filter(p, s), s)
    decreases |s|
  {
    if s != [] {
      FilterSubseq(p, s[1..]);
      if p(s[0]) {
        assert ([s[0]] + Filter(p, s[1..]))[1..] == Filter(p, s[1..]);
      } else {
        assert [] + Filter(p, s[1..]) == Filter(p, s[1..]);
        SubseqOfTail(Filter(p, s[1..]), s);
      }
    }
  }

  /** A subsequence of the tail is a subsequence of the whole. */
  lemma SubseqOfTail<T>(r: seq<T>, s: seq<T>)
    requires s != [] && IsSubseq(r, s[1..])
    ensures IsSubseq(r, s)
  {
  }

  /** `xs.forEach(x => out.push(...f(x)))`: the results of `f` on each entry, concatenated in order. */
  function ConcatMap<A, B>(f: A -> seq<B>, xs: seq<A>): seq<B>
    decreases |xs|
  {
    if xs == [] then [] else ConcatMap(f, xs[..|xs| - 1]) + f(xs[|xs| - 1])
  }

  /** Mapping a concatenation maps each part. */
  lemma {:induction false} ConcatMapAppend<A, B>(f: A -> seq<B>, a: seq<A>, b: seq<A>)
    ensures ConcatMap(f, a + b) == ConcatMap(f, a) + ConcatMap(f, b)
    decreases |b|
  {
    if b == [] {
      assert a + b == a;
    } else {
      assert (a + b)[..|a + b| - 1] == a + b[..|b| - 1];
      assert (a + b)[|a + b| - 1] == b[|b| - 1];
      ConcatMapAppend(f, a, b[..|b| - 1]);
    }
  }

  /** Every result comes from the image of one entry. */
  lemma {:induction false} ConcatMapOrigin<A, B>(f: A -> seq<B>, xs: seq<A>, y: B)
    requires y in ConcatMap(f, xs)
    ensures exists k :: 0 <= k < |xs| && y in f(xs[k])
    decreases |xs|
  {
    if y !in f(xs[|xs| - 1]) {
      ConcatMapOrigin(f, xs[..|xs| - 1], y);
      var k :| 0 <= k < |xs| - 1 && y in f(xs[..|xs| - 1][k]);
      assert xs[..|xs| - 1][k] == xs[k];
    }
  }
}
