/** The array methods the core calls on in-memory lists: `filter`, a summing `reduce` and
    `splice` of one element. */
module Seqs {

  /** `s.filter(p)`: the elements satisfying `p`, in their original order. */
  function Filter<T>(p: T -> bool, s: seq<T>): (r: seq<T>)
    ensures |r| <= |s|
    ensures forall i :: 0 <= i < |r| ==> p(r[i])
  {
    if s == [] then []
    else (if p(s[0]) then [s[0]] else []) + Filter(p, s[1..])
  }

  /** An element is kept exactly when it occurs in the input and satisfies `p`, and it is
      kept as often as it occurs. */
  lemma {:induction false} FilterCount<T>(p: T -> bool, s: seq<T>, x: T)
    ensures x in Filter(p, s) <==> x in s && p(x)
    ensures multiset(Filter(p, s))[x] == if p(x) then multiset(s)[x] else 0
  {
    if s != [] {
      assert s == [s[0]] + s[1..];
      FilterCount(p, s[1..], x);
    }
  }

  /** Filtering distributes over concatenation, so the relative order of the kept
      elements is that of the input. */
  lemma {:induction false} FilterConcat<T>(p: T -> bool, a: seq<T>, b: seq<T>)
    ensures Filter(p, a + b) == Filter(p, a) + Filter(p, b)
  {
    if a != [] {
      var head := if p(a[0]) then [a[0]] else [];
      assert (a + b)[0] == a[0];
      assert (a + b)[1..] == a[1..] + b;
      assert Filter(p, a + b) == head + Filter(p, a[1..] + b);
      FilterConcat(p, a[1..], b);
      assert head + (Filter(p, a[1..]) + Filter(p, b)) == (head + Filter(p, a[1..])) + Filter(p, b);
    } else {
      assert a + b == b;
    }
  }

  /** Inputs that are permutations of each other have filtered outputs that are
      permutations of each other. */
  lemma FilterPermutation<T(!new)>(p: T -> bool, a: seq<T>, b: seq<T>)
    requires multiset(a) == multiset(b)
    ensures multiset(Filter(p, a)) == multiset(Filter(p, b))
  {
    forall x ensures multiset(Filter(p, a))[x] == multiset(Filter(p, b))[x] {
      FilterCount(p, a, x);
      FilterCount(p, b, x);
    }
  }

  /** `s.reduce((acc, x) => acc + f(x), 0)`: a left fold summing `f` over `s`. */
  function SumOf<T>(f: T -> int, s: seq<T>): int
  {
    if s == [] then 0 else SumOf(f, s[..|s| - 1]) + f(s[|s| - 1])
  }

  lemma {:induction false} SumConcat<T>(f: T -> int, a: seq<T>, b: seq<T>)
    ensures SumOf(f, a + b) == SumOf(f, a) + SumOf(f, b)
  {
    if b == [] {
      assert a + b == a;
    } else {
      var ab := a + b;
      assert ab[..|ab| - 1] == a + b[..|b| - 1];
      assert ab[|ab| - 1] == b[|b| - 1];
      SumConcat(f, a, b[..|b| - 1]);
    }
  }

  /** `s.splice(index, 1)`: the list without its element at `index`. */
  function RemoveAt<T>(s: seq<T>, index: nat): (r: seq<T>)
    requires index < |s|
    ensures |r| == |s| - 1
    ensures forall k :: 0 <= k < index ==> r[k] == s[k]
    ensures forall k :: index <= k < |r| ==> r[k] == s[k + 1]
  {
    s[..index] + s[index + 1..]
  }

  /** Removing the element at `j` removes one occurrence of it from the multiset. */
  lemma RemoveAtMultiset<T>(b: seq<T>, j: nat)
    requires j < |b|
    ensures multiset(RemoveAt(b, j)) == multiset(b) - multiset{b[j]}
  {
    assert b == b[..j] + [b[j]] + b[j + 1..];
    calc {
      multiset(b);
      multiset(b[..j] + [b[j]] + b[j + 1..]);
      multiset(b[..j]) + multiset{b[j]} + multiset(b[j + 1..]);
    }
  }

  /** The sum is the element at `j` plus the sum of the others. */
  lemma SumRemoveAt<T>(f: T -> int, b: seq<T>, j: nat)
    requires j < |b|
    ensures SumOf(f, b) == SumOf(f, b[..j] + b[j + 1..]) + f(b[j])
  {
    var b1, x, b2 := b[..j], b[j], b[j + 1..];
    SplitAt(b, j);
    SumConcat(f, b1 + [x], b2);
    SumSnoc(f, b1, x);
    SumConcat(f, b1, b2);
  }

  lemma SplitAt<T>(b: seq<T>, j: nat)
    requires j < |b|
    ensures b == (b[..j] + [b[j]]) + b[j + 1..]
  {
  }

  lemma SumSnoc<T>(f: T -> int, s: seq<T>, x: T)
    ensures SumOf(f, s + [x]) == SumOf(f, s) + f(x)
  {
    assert (s + [x])[..|s|] == s;
  }

  /** The sum does not depend on the order of the summands. */
  lemma {:induction false} SumPermutation<T>(f: T -> int, a: seq<T>, b: seq<T>)
    requires multiset(a) == multiset(b)
    ensures SumOf(f, a) == SumOf(f, b)
    decreases |a|
  {
    if a == [] {
      assert |b| == |multiset(b)| == 0;
    } else {
      var x := a[|a| - 1];
      assert x in multiset(b);
      var j :| 0 <= j < |b| && b[j] == x;
      var a', b' := a[..|a| - 1], RemoveAt(b, j);
      assert multiset(a') == multiset(b') by {
        RemoveAtMultiset(a, |a| - 1);
        RemoveAtMultiset(b, j);
        assert RemoveAt(a, |a| - 1) == a';
      }
      SumPermutation(f, a', b');
      SumRemoveAt(f, b, j);
    }
  }
}
