/**
 * The part of a Django QuerySet that the store relies on: `.filter()`
 * keeps, in storage order, exactly the rows that satisfy a predicate.
 */
module QuerySets {

  /** r can be obtained from s by deleting elements, keeping order. */
  ghost predicate IsSubsequence<T>(r: seq<T>, s: seq<T>)
    decreases |s|
  {
    if s == [] then r == []
    else (r != [] && r[0] == s[0] && IsSubsequence(r[1..], s[1..])) || IsSubsequence(r, s[1..])
  }

  /** The rows of s that satisfy keep, in their original order. */
  function Filter<T(!new)>(s: seq<T>, keep: T -> bool): (r: seq<T>)
    ensures IsSubsequence(r, s)
    ensures forall x :: x in r <==> x in s && keep(x)
    ensures forall x :: multiset(r)[x] == if keep(x) then multiset(s)[x] else 0
  {
    if s == [] then []
    else
      assert s == [s[0]] + s[1..];
      if keep(s[0]) then [s[0]] + Filter(s[1..], keep) else Filter(s[1..], keep)
  }

  /**
   * `if supplied: rows = rows.filter(keep)`: the filter applied only when
   * its parameter was supplied.
   */
  function FilterIf<T(!new)>(s: seq<T>, supplied: bool, keep: T -> bool): (r: seq<T>)
    ensures IsSubsequence(r, s)
    ensures forall x :: x in r <==> x in s && (supplied ==> keep(x))
    ensures forall x :: multiset(r)[x] == if supplied ==> keep(x) then multiset(s)[x] else 0
  {
    if supplied then Filter(s, keep) else SubsequenceReflexive(s); s
  }

  lemma {:induction false} SubsequenceReflexive<T>(s: seq<T>)
    ensures IsSubsequence(s, s)
  {
    if s != [] {
      SubsequenceReflexive(s[1..]);
    }
  }

  lemma {:induction false} SubsequenceTransitive<T>(a: seq<T>, b: seq<T>, c: seq<T>)
    requires IsSubsequence(a, b) && IsSubsequence(b, c)
    ensures IsSubsequence(a, c)
    decreases |c|
  {
    if c == [] {
    } else if b != [] && b[0] == c[0] && IsSubsequence(b[1..], c[1..]) {
      if a != [] && a[0] == b[0] && IsSubsequence(a[1..], b[1..]) {
        SubsequenceTransitive(a[1..], b[1..], c[1..]);
      } else {
        SubsequenceTransitive(a, b[1..], c[1..]);
      }
    } else {
      SubsequenceTransitive(a, b, c[1..]);
    }
  }

  /** Filtering depends only on which rows the predicate accepts. */
  lemma {:induction false} FilterExtensional<T(!new)>(s: seq<T>, f: T -> bool, g: T -> bool)
    requires forall x :: f(x) == g(x)
    ensures Filter(s, f) == Filter(s, g)
  {
    if s != [] {
      FilterExtensional(s[1..], f, g);
    }
  }

  /** Two successive filters are one filter by the conjunction. */
  lemma {:induction false} FilterFuse<T(!new)>(s: seq<T>, f: T -> bool, g: T -> bool)
    ensures Filter(Filter(s, f), g) == Filter(s, x => f(x) && g(x))
  {
    if s != [] {
      FilterFuse(s[1..], f, g);
      if f(s[0]) {
        assert Filter(s, f) == [s[0]] + Filter(s[1..], f);
        assert Filter(s, f)[1..] == Filter(s[1..], f);
      }
    }
  }

  /** A filter whose predicate accepts every row keeps the rows unchanged. */
  lemma {:induction false} FilterKeepsAll<T(!new)>(s: seq<T>, keep: T -> bool)
    requires forall x :: keep(x)
    ensures Filter(s, keep) == s
  {
    if s != [] {
      FilterKeepsAll(s[1..], keep);
    }
  }

  /** A conditional filter is a filter whose predicate accepts every row when not supplied. */
  lemma FilterIfIsFilter<T(!new)>(s: seq<T>, supplied: bool, keep: T -> bool, f: T -> bool)
    requires forall x :: f(x) == (!supplied || keep(x))
    ensures FilterIf(s, supplied, keep) == Filter(s, f)
  {
    if supplied {
      FilterExtensional(s, keep, f);
    } else {
      FilterKeepsAll(s, f);
    }
  }

  /** Filtering by f and then by g is filtering by any h that is their conjunction. */
  lemma FilterThen<T(!new)>(s: seq<T>, f: T -> bool, g: T -> bool, h: T -> bool)
    requires forall x :: h(x) == (f(x) && g(x))
    ensures Filter(Filter(s, f), g) == Filter(s, h)
  {
    FilterFuse(s, f, g);
    FilterExtensional(s, x => f(x) && g(x), h);
  }

  /** Successive filters can be applied in either order. */
  lemma FilterCommute<T(!new)>(s: seq<T>, f: T -> bool, g: T -> bool)
    ensures Filter(Filter(s, f), g) == Filter(Filter(s, g), f)
  {
    FilterFuse(s, f, g);
    FilterFuse(s, g, f);
    FilterExtensional(s, x => f(x) && g(x), x => g(x) && f(x));
  }
}
