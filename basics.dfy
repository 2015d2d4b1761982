/** Small building blocks shared by every page model: an optional value, and the
    JavaScript array operations the pages use (`filter`, `reduce` into a sum, `map`,
    `join`) written once as generic functions with the facts the pages rely on. */
module Basics {

  /** A value that may be absent: a null column, a missing object key, a `find` that
      found nothing. */
  datatype Option<+T> = None | Some(value: T)

  /** The toast a page shows after an action, if any. */
  datatype Toast = NoToast | ErrorToast(text: string) | SuccessToast(text: string)

  /** `Number(x) || 0` and `x || 0` on an amount: a missing or non-numeric value counts
      as 0 (and 0 stays 0). */
  function OrZero(x: Option<int>): int
  {
    if x.Some? then x.value else 0
  }

  /** `s.filter(p)`: the elements of `s` that satisfy `p`, in their order. */
  function Filter<T>(p: T -> bool, s: seq<T>): (r: seq<T>)
    ensures |r| <= |s|
    ensures forall i :: 0 <= i < |r| ==> r[i] in s && p(r[i])
    ensures forall i :: 0 <= i < |s| && p(s[i]) ==> s[i] in r
  {
    if s == [] then []
    else (if p(s[0]) then [s[0]] else []) + Filter(p, s[1..])
  }

  /** Filtering a concatenation filters each part: with the singleton cases this pins the
      result down completely, order included. */
  lemma {:induction false} FilterAppend<T>(p: T -> bool, a: seq<T>, b: seq<T>)
    ensures Filter(p, a + b) == Filter(p, a) + Filter(p, b)
  {
    if a == [] {
      assert a + b == b;
    } else {
      assert (a + b)[0] == a[0];
      assert (a + b)[1..] == a[1..] + b;
      FilterAppend(p, a[1..], b);
    }
  }

  /** A filter that every element passes returns its input unchanged. */
  lemma {:induction false} FilterKeepsAll<T>(p: T -> bool, s: seq<T>)
    requires forall x :: x in s ==> p(x)
    ensures Filter(p, s) == s
  {
    if s != [] {
      assert s[0] in s;
      assert forall x :: x in s[1..] ==> x in s;
      FilterKeepsAll(p, s[1..]);
    }
  }

  /** A filter that no element passes returns nothing. */
  lemma {:induction false} FilterDropsAll<T>(p: T -> bool, s: seq<T>)
    requires forall x :: x in s ==> !p(x)
    ensures Filter(p, s) == []
  {
    if s != [] {
      assert s[0] in s;
      assert forall x :: x in s[1..] ==> x in s;
      FilterDropsAll(p, s[1..]);
    }
  }

  /** `s.filter(p).length`. */
  function Count<T>(p: T -> bool, s: seq<T>): nat
  {
    |Filter(p, s)|
  }

  /** `s.reduce((acc, x) => acc + f(x), 0)`. */
  function SumOf<T>(f: T -> int, s: seq<T>): int
  {
    if s == [] then 0 else f(s[0]) + SumOf(f, s[1..])
  }

  lemma {:induction false} SumAppend<T>(f: T -> int, a: seq<T>, b: seq<T>)
    ensures SumOf(f, a + b) == SumOf(f, a) + SumOf(f, b)
  {
    if a == [] {
      assert a + b == b;
    } else {
      assert (a + b)[0] == a[0];
      assert (a + b)[1..] == a[1..] + b;
      SumAppend(f, a[1..], b);
    }
  }

  /** A sum of non-negative terms is non-negative. */
  lemma {:induction false} SumNonNegative<T>(f: T -> int, s: seq<T>)
    requires forall x :: x in s ==> f(x) >= 0
    ensures SumOf(f, s) >= 0
  {
    if s != [] {
      assert s[0] in s;
      assert forall x :: x in s[1..] ==> x in s;
      SumNonNegative(f, s[1..]);
    }
  }

  /** Summing only the elements that pass a filter never exceeds the whole sum when the
      terms are non-negative. */
  lemma {:induction false} SumFilterAtMost<T>(f: T -> int, p: T -> bool, s: seq<T>)
    requires forall x :: x in s ==> f(x) >= 0
    ensures SumOf(f, Filter(p, s)) <= SumOf(f, s)
  {
    if s != [] {
      assert s[0] in s;
      assert forall x :: x in s[1..] ==> x in s;
      SumFilterAtMost(f, p, s[1..]);
      var rest := Filter(p, s[1..]);
      if p(s[0]) {
        assert Filter(p, s) == [s[0]] + rest;
        assert ([s[0]] + rest)[1..] == rest;
      } else {
        assert Filter(p, s) == rest;
      }
    }
  }

  /** `s.map(f)`. */
  function Map<A, B>(f: A -> B, s: seq<A>): (r: seq<B>)
    ensures |r| == |s|
    ensures forall i :: 0 <= i < |s| ==> r[i] == f(s[i])
  {
    seq(|s|, i requires 0 <= i < |s| => f(s[i]))
  }

  /** `parts.join(sep)`: "" for no parts, the parts separated by `sep` otherwise. */
  function Join(parts: seq<string>, sep: string): string
  {
    if |parts| == 0 then ""
    else if |parts| == 1 then parts[0]
    else Join(parts[..|parts| - 1], sep) + sep + parts[|parts| - 1]
  }

  /** Joining is associative over a split of the parts at any non-trivial point. */
  lemma {:induction false} JoinSplit(a: seq<string>, b: seq<string>, sep: string)
    requires |a| > 0 && |b| > 0
    ensures Join(a + b, sep) == Join(a, sep) + sep + Join(b, sep)
    decreases |b|
  {
    if |b| == 1 {
      assert (a + b)[..|a + b| - 1] == a;
    } else {
      var b' := b[..|b| - 1];
      assert (a + b)[..|a + b| - 1] == a + b';
      assert (a + b)[|a + b| - 1] == b[|b| - 1];
      JoinSplit(a, b', sep);
    }
  }

  function IsChar(c: char): char -> bool
  {
    (x: char) => x == c
  }

  /** How many times `c` occurs in `s`. */
  function CharCount(s: string, c: char): nat
  {
    Count(IsChar(c), s)
  }

  lemma CharCountAppend(a: string, b: string, c: char)
    ensures CharCount(a + b, c) == CharCount(a, c) + CharCount(b, c)
  {
    FilterAppend(IsChar(c), a, b);
  }

  /** Joining parts that do not contain the separator character puts exactly one
      separator between each two neighbours, so the text splits back into as many
      pieces as there were parts. */
  lemma {:induction false} JoinSeparatorCount(parts: seq<string>, c: char)
    requires |parts| > 0
    requires forall i :: 0 <= i < |parts| ==> CharCount(parts[i], c) == 0
    ensures CharCount(Join(parts, [c]), c) == |parts| - 1
    decreases |parts|
  {
    if |parts| > 1 {
      var init := parts[..|parts| - 1];
      JoinSeparatorCount(init, c);
      CharCountAppend(Join(init, [c]) + [c], parts[|parts| - 1], c);
      CharCountAppend(Join(init, [c]), [c], c);
      assert CharCount([c], c) == 1 by {
        assert [c][1..] == [];
      }
    }
  }

  lemma FilterSingle<T>(p: T -> bool, x: T)
    ensures Filter(p, [x]) == if p(x) then [x] else []
  {
    assert [x][1..] == [];
  }

  lemma SumSingle<T>(f: T -> int, x: T)
    ensures SumOf(f, [x]) == f(x)
  {
    assert [x][1..] == [];
  }

  /** Summing over a filter whose test is the disjunction of two tests that never hold
      together adds the sums over the two filters. */
  lemma {:induction false} SumFilterDisjoint<T>(f: T -> int, r: T -> bool, p: T -> bool, q: T -> bool, s: seq<T>)
    requires forall i :: 0 <= i < |s| ==> r(s[i]) == (p(s[i]) || q(s[i]))
    requires forall i :: 0 <= i < |s| ==> !(p(s[i]) && q(s[i]))
    ensures SumOf(f, Filter(r, s)) == SumOf(f, Filter(p, s)) + SumOf(f, Filter(q, s))
  {
    if s != [] {
      var x, t := s[0], s[1..];
      assert s == [x] + t;
      assert forall i :: 0 <= i < |t| ==> t[i] == s[i + 1];
      SumFilterDisjoint(f, r, p, q, t);
      FilterAppend(r, [x], t);
      FilterAppend(p, [x], t);
      FilterAppend(q, [x], t);
      FilterSingle(r, x);
      FilterSingle(p, x);
      FilterSingle(q, x);
      SumAppend(f, Filter(r, [x]), Filter(r, t));
      SumAppend(f, Filter(p, [x]), Filter(p, t));
      SumAppend(f, Filter(q, [x]), Filter(q, t));
      SumSingle(f, x);
    }
  }
}
