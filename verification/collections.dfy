/**
 * The Kotlin collection operations the repositories chain together:
 * `filter`, `mapNotNull`, `sumOf` and `take`, each with the facts the
 * rest of the model relies on (membership, order, permutation).
 */
module Collections {
  import opened Common

  /** `s.filter(p)`: the elements satisfying `p`, in their original order. */
  function Filter<T(!new)>(s: seq<T>, p: T -> bool): (r: seq<T>)
    ensures |r| <= |s|
    ensures forall x :: x in r <==> x in s && p(x)
  {
    if s == [] then []
    else
      var rest := Filter(s[1..], p);
      assert forall x :: x in s <==> x == s[0] || x in s[1..];
      if p(s[0]) then [s[0]] + rest else rest
  }

  /** A predicate that holds everywhere in `s` keeps all of `s`. */
  lemma {:induction false} FilterKeepsAll<T(!new)>(s: seq<T>, p: T -> bool)
    requires forall x :: x in s ==> p(x)
    ensures Filter(s, p) == s
    decreases |s|
  {
    if s != [] {
      FilterKeepsAll(s[1..], p);
      assert [s[0]] + s[1..] == s;
    }
  }

  /** `s.mapNotNull(f)`: the non-null images, in the order of their sources. */
  function MapNotNull<T(!new), U(!new)>(s: seq<T>, f: T -> Option<U>): (r: seq<U>)
    ensures |r| <= |s|
    ensures forall y :: y in r <==> exists x :: x in s && f(x) == Some(y)
  {
    if s == [] then []
    else
      var rest := MapNotNull(s[1..], f);
      assert forall x :: x in s <==> x == s[0] || x in s[1..];
      match f(s[0])
      case Some(y) => [y] + rest
      case None => rest
  }

  /** `s.sumOf(f)`, summed from the front. */
  function SumOf<T>(s: seq<T>, f: T -> real): real {
    if s == [] then 0.0 else f(s[0]) + SumOf(s[1..], f)
  }

  /** `a` can be obtained from `b` by deleting elements: same order, nothing new. */
  predicate SubsequenceOf<T(==)>(a: seq<T>, b: seq<T>)
    decreases |b|
  {
    if a == [] then true
    else if b == [] then false
    else if a[0] == b[0] then SubsequenceOf(a[1..], b[1..])
    else SubsequenceOf(a, b[1..])
  }

  lemma {:induction false} FilterIsSubsequence<T(!new)>(s: seq<T>, p: T -> bool)
    ensures SubsequenceOf(Filter(s, p), s)
    decreases |s|
  {
    if s != [] {
      FilterIsSubsequence(s[1..], p);
      var rest := Filter(s[1..], p);
      if p(s[0]) {
        assert ([s[0]] + rest)[1..] == rest;
      } else if rest != [] {
        SubsequenceSkip(rest, s);
      }
    }
  }

  /** A subsequence of the tail is a subsequence of the whole. */
  lemma {:induction false} SubsequenceSkip<T>(a: seq<T>, b: seq<T>)
    requires b != [] && SubsequenceOf(a, b[1..])
    ensures SubsequenceOf(a, b)
    decreases |b|, 0
  {
    if a != [] && a[0] == b[0] {
      SubsequenceDropHead(a, b[1..]);
    }
  }

  /** Dropping the first element of `a` keeps it a subsequence. */
  lemma {:induction false} SubsequenceDropHead<T>(a: seq<T>, b: seq<T>)
    requires a != [] && SubsequenceOf(a, b)
    ensures SubsequenceOf(a[1..], b)
    decreases |b|, 1
  {
    if a[0] != b[0] {
      SubsequenceDropHead(a, b[1..]);
    }
    if a[1..] != [] {
      SubsequenceSkip(a[1..], b);
    }
  }

  lemma {:induction false} FilterAppend<T(!new)>(s: seq<T>, t: seq<T>, p: T -> bool)
    ensures Filter(s + t, p) == Filter(s, p) + Filter(t, p)
    decreases |s|
  {
    if s == [] {
      assert s + t == t;
    } else {
      assert (s + t)[1..] == s[1..] + t;
      FilterAppend(s[1..], t, p);
    }
  }

  lemma {:induction false} MapNotNullAppend<T(!new), U(!new)>(s: seq<T>, t: seq<T>, f: T -> Option<U>)
    ensures MapNotNull(s + t, f) == MapNotNull(s, f) + MapNotNull(t, f)
    decreases |s|
  {
    if s == [] {
      assert s + t == t;
    } else {
      assert (s + t)[1..] == s[1..] + t;
      MapNotNullAppend(s[1..], t, f);
    }
  }

  lemma {:induction false} SumOfAppend<T>(s: seq<T>, t: seq<T>, f: T -> real)
    ensures SumOf(s + t, f) == SumOf(s, f) + SumOf(t, f)
    decreases |s|
  {
    if s == [] {
      assert s + t == t;
    } else {
      assert (s + t)[1..] == s[1..] + t;
      SumOfAppend(s[1..], t, f);
    }
  }

  /**
   * Two orderings of the same elements: the head of one sits at some index of
   * the other, and the remaining elements agree as multisets.
   */
  lemma PermutationHead<T>(s: seq<T>, t: seq<T>) returns (i: nat)
    requires s != [] && multiset(s) == multiset(t)
    ensures i < |t| && t[i] == s[0]
    ensures t == t[..i] + [s[0]] + t[i + 1..]
    ensures multiset(s[1..]) == multiset(t[..i] + t[i + 1..])
  {
    assert s == [s[0]] + s[1..];
    assert s[0] in multiset(t);
    i :| 0 <= i < |t| && t[i] == s[0];
    assert t == t[..i] + [s[0]] + t[i + 1..];
    var before, after, head := t[..i], t[i + 1..], multiset{s[0]};
    calc {
      multiset(s[1..]) + head;
      multiset(t);
      multiset(before + [s[0]] + after);
      multiset(before + after) + head;
    }
    assert multiset(s[1..]) == (multiset(s[1..]) + head) - head;
    assert multiset(before + after) == (multiset(before + after) + head) - head;
  }

  /** `sumOf` does not depend on the order of the elements. */
  lemma {:induction false} SumOfPermutation<T>(s: seq<T>, t: seq<T>, f: T -> real)
    requires multiset(s) == multiset(t)
    ensures SumOf(s, f) == SumOf(t, f)
    decreases |s|
  {
    if s == [] {
      assert |t| == |multiset(t)| == 0;
    } else {
      var i := PermutationHead(s, t);
      var rest := t[..i] + t[i + 1..];
      SumOfPermutation(s[1..], rest, f);
      SumOfAppend(t[..i] + [s[0]], t[i + 1..], f);
      SumOfAppend(t[..i], [s[0]], f);
      SumOfAppend(t[..i], t[i + 1..], f);
    }
  }

  /** Filtering two orderings of the same elements keeps the same elements. */
  lemma {:induction false} FilterPermutation<T(!new)>(s: seq<T>, t: seq<T>, p: T -> bool)
    requires multiset(s) == multiset(t)
    ensures multiset(Filter(s, p)) == multiset(Filter(t, p))
    decreases |s|
  {
    if s == [] {
      assert |t| == |multiset(t)| == 0;
    } else {
      var i := PermutationHead(s, t);
      var rest := t[..i] + t[i + 1..];
      FilterPermutation(s[1..], rest, p);
      FilterAppend(t[..i] + [s[0]], t[i + 1..], p);
      FilterAppend(t[..i], [s[0]], p);
      FilterAppend(t[..i], t[i + 1..], p);
      assert [s[0]][1..] == [];
    }
  }

  /** `mapNotNull` over two orderings of the same elements yields the same elements. */
  lemma {:induction false} MapNotNullPermutation<T(!new), U(!new)>(s: seq<T>, t: seq<T>, f: T -> Option<U>)
    requires multiset(s) == multiset(t)
    ensures multiset(MapNotNull(s, f)) == multiset(MapNotNull(t, f))
    decreases |s|
  {
    if s == [] {
      assert |t| == |multiset(t)| == 0;
    } else {
      var i := PermutationHead(s, t);
      var rest := t[..i] + t[i + 1..];
      MapNotNullPermutation(s[1..], rest, f);
      MapNotNullAppend(t[..i] + [s[0]], t[i + 1..], f);
      MapNotNullAppend(t[..i], [s[0]], f);
      MapNotNullAppend(t[..i], t[i + 1..], f);
      assert [s[0]][1..] == [];
    }
  }

  /** Splitting a sum by a predicate and its negation loses nothing. */
  lemma {:induction false} SumOfSplit<T(!new)>(s: seq<T>, f: T -> real, p: T -> bool, q: T -> bool)
    requires forall x :: q(x) == !p(x)
    ensures SumOf(s, f) == SumOf(Filter(s, p), f) + SumOf(Filter(s, q), f)
    decreases |s|
  {
    if s != [] {
      SumOfSplit(s[1..], f, p, q);
      var a, b := Filter(s[1..], p), Filter(s[1..], q);
      if p(s[0]) {
        assert ([s[0]] + a)[1..] == a;
      } else {
        assert ([s[0]] + b)[1..] == b;
      }
    }
  }
}
