/** Filtering, Python's stable `sort(key=..., reverse=True)` and Python slicing, on sequences
    of any element type. */
module Sorting {

  /** A list comprehension `[x for x in s if keep(x)]`. */
  function Filter<T>(s: seq<T>, keep: T -> bool): (r: seq<T>)
    ensures |r| <= |s|
  {
    if s == [] then []
    else if keep(s[0]) then [s[0]] + Filter(s[1..], keep)
    else Filter(s[1..], keep)
  }

  /** The kept elements are exactly the elements of `s` that pass, with no new copies. */
  lemma {:induction false} FilterMembers<T>(s: seq<T>, keep: T -> bool)
    ensures forall x :: x in Filter(s, keep) ==> x in s && keep(x)
    ensures forall x :: x in s && keep(x) ==> x in Filter(s, keep)
    ensures multiset(Filter(s, keep)) <= multiset(s)
  {
    if s != [] {
      FilterMembers(s[1..], keep);
      assert s == [s[0]] + s[1..];
      assert multiset(s) == multiset{s[0]} + multiset(s[1..]);
      if keep(s[0]) {
        assert Filter(s, keep) == [s[0]] + Filter(s[1..], keep);
        assert multiset(Filter(s, keep)) == multiset{s[0]} + multiset(Filter(s[1..], keep));
      } else {
        assert Filter(s, keep) == Filter(s[1..], keep);
      }
    }
  }

  lemma {:induction false} FilterConcat<T>(a: seq<T>, b: seq<T>, keep: T -> bool)
    ensures Filter(a + b, keep) == Filter(a, keep) + Filter(b, keep)
  {
    if a != [] {
      assert (a + b)[0] == a[0] && (a + b)[1..] == a[1..] + b;
      FilterConcat(a[1..], b, keep);
      var head := if keep(a[0]) then [a[0]] else [];
      calc {
        Filter(a + b, keep);
        head + Filter(a[1..] + b, keep);
        head + (Filter(a[1..], keep) + Filter(b, keep));
        (head + Filter(a[1..], keep)) + Filter(b, keep);
        Filter(a, keep) + Filter(b, keep);
      }
    } else {
      assert a + b == b;
    }
  }

  /** A non-empty sequence is its front followed by its last element. */
  lemma InitLast<T>(s: seq<T>)
    requires s != []
    ensures s == s[..|s| - 1] + [s[|s| - 1]]
  {
  }

  /** A prefix one longer is the prefix and the next element. */
  lemma PrefixSnoc<T>(s: seq<T>, j: nat)
    requires j < |s|
    ensures s[..j + 1] == s[..j] + [s[j]]
  {
  }

  /** A log that holds a prefix of `s`, extended by the next element of `s`. */
  lemma LogSnoc<T>(before: seq<T>, s: seq<T>, j: nat, x: T)
    requires j < |s| && s[j] == x
    ensures before + s[..j] + [x] == before + s[..j + 1]
  {
    PrefixSnoc(s, j);
    assert before + s[..j] + [x] == before + (s[..j] + [x]);
  }

  /** A log `before + s` extended by more entries. */
  lemma AppendAssoc<T>(before: seq<T>, s: seq<T>, more: seq<T>)
    ensures before + s + more == before + (s + more)
  {
  }

  /** Filtering a sequence extended by one element. */
  lemma FilterSnoc<T>(s: seq<T>, x: T, keep: T -> bool)
    ensures Filter(s + [x], keep) == Filter(s, keep) + (if keep(x) then [x] else [])
  {
    FilterConcat(s, [x], keep);
  }

  /** Python's slice `s[:k]`: the first `k` elements, or all but the last `-k` when `k` is
      negative. */
  function PyTake<T>(s: seq<T>, k: int): (r: seq<T>)
    ensures 0 <= k ==> |r| == if k < |s| then k else |s|
    ensures k < 0 ==> |r| == if |s| + k < 0 then 0 else |s| + k
    ensures r == s[..|r|]
  {
    var n := if k < 0 then |s| + k else k;
    if n <= 0 then [] else if n < |s| then s[..n] else s
  }

  /** A shorter slice is a prefix of a longer one. */
  lemma PyTakePrefix<T>(s: seq<T>, j: int, k: int)
    requires 0 <= j <= k
    ensures PyTake(s, j) == PyTake(s, k)[..|PyTake(s, j)|]
  {
    var a, b := PyTake(s, j), PyTake(s, k);
    assert a == s[..|a|] && b == s[..|b|] && |a| <= |b|;
  }

  /** No element occurs twice. */
  predicate Distinct<T(==)>(s: seq<T>) {
    forall i, j :: 0 <= i < j < |s| ==> s[i] != s[j]
  }

  /** The keys do not increase along the sequence. */
  predicate NonIncreasing<T>(s: seq<T>, key: T -> real) {
    forall i, j :: 0 <= i < j < |s| ==> key(s[i]) >= key(s[j])
  }

  /** Insert `x` into a sequence after the leading elements whose key is at least its own. */
  function Insert<T>(x: T, s: seq<T>, key: T -> real): (r: seq<T>)
    ensures multiset(r) == multiset(s) + multiset{x}
  {
    if s == [] then [x]
    else
      assert s == [s[0]] + s[1..];
      if key(s[0]) >= key(x) then [s[0]] + Insert(x, s[1..], key) else [x] + s
  }

  /** Inserting into a sorted sequence keeps it sorted. */
  lemma {:induction false} InsertSorted<T>(x: T, s: seq<T>, key: T -> real)
    requires NonIncreasing(s, key)
    ensures NonIncreasing(Insert(x, s, key), key)
  {
    if s != [] {
      if key(s[0]) >= key(x) {
        var rest := Insert(x, s[1..], key);
        InsertSorted(x, s[1..], key);
        forall j | 0 <= j < |rest| ensures key(rest[j]) <= key(s[0]) {
          assert rest[j] in multiset(rest);
          if rest[j] != x {
            assert rest[j] in multiset(s[1..]);
            var i :| 0 <= i < |s| - 1 && s[1..][i] == rest[j];
            assert s[i + 1] == rest[j];
          }
        }
        ConsSorted(s[0], rest, key);
      } else {
        assert forall j :: 0 <= j < |s| ==> key(s[j]) <= key(s[0]);
        ConsSorted(x, s, key);
      }
    }
  }

  /** An element whose key is at least every key of a sorted sequence can go in front. */
  lemma ConsSorted<T>(y: T, s: seq<T>, key: T -> real)
    requires NonIncreasing(s, key)
    requires forall j :: 0 <= j < |s| ==> key(s[j]) <= key(y)
    ensures NonIncreasing([y] + s, key)
  {
    var r := [y] + s;
    assert forall j :: 1 <= j < |r| ==> r[j] == s[j - 1];
  }

  /** Python's `sorted(s, key=key, reverse=True)`: stable, so elements with equal keys keep
      their original order. */
  function SortDesc<T>(s: seq<T>, key: T -> real): (r: seq<T>)
    ensures NonIncreasing(r, key)
    ensures multiset(r) == multiset(s)
    ensures |r| == |s|
  {
    if s == [] then []
    else
      InitLast(s);
      InsertSorted(s[|s| - 1], SortDesc(s[..|s| - 1], key), key);
      Insert(s[|s| - 1], SortDesc(s[..|s| - 1], key), key)
  }

  /** Inserting an element not larger than every key already present appends it. */
  lemma {:induction false} InsertAtEnd<T>(x: T, s: seq<T>, key: T -> real)
    requires NonIncreasing(s, key)
    requires forall y :: y in s ==> key(y) >= key(x)
    ensures Insert(x, s, key) == s + [x]
  {
    if s != [] {
      InsertAtEnd(x, s[1..], key);
    }
  }

  /** Sorting a sequence that is already in order changes nothing. */
  lemma {:induction false} SortDescSorted<T>(s: seq<T>, key: T -> real)
    requires NonIncreasing(s, key)
    ensures SortDesc(s, key) == s
  {
    if s != [] {
      var init := s[..|s| - 1];
      SortDescSorted(init, key);
      InsertAtEnd(s[|s| - 1], init, key);
      assert init + [s[|s| - 1]] == s;
    }
  }

  lemma SortDescIdempotent<T>(s: seq<T>, key: T -> real)
    ensures SortDesc(SortDesc(s, key), key) == SortDesc(s, key)
  {
    SortDescSorted(SortDesc(s, key), key);
  }

  /** Keeping only some elements of a sorted sequence keeps it sorted. */
  lemma {:induction false} FilterSorted<T>(s: seq<T>, keep: T -> bool, key: T -> real)
    requires NonIncreasing(s, key)
    ensures NonIncreasing(Filter(s, keep), key)
  {
    if s != [] {
      FilterSorted(s[1..], keep, key);
      FilterMembers(s[1..], keep);
      var rest := Filter(s[1..], keep);
      forall j | 0 <= j < |rest| ensures key(s[0]) >= key(rest[j]) {
        assert rest[j] in rest;
        var i :| 0 <= i < |s| - 1 && s[1..][i] == rest[j];
        assert s[i + 1] == rest[j];
      }
    }
  }

  /** Filter that keeps the elements with key `v`. */
  function KeyIs<T>(key: T -> real, v: real): T -> bool {
    y => key(y) == v
  }

  /** Nothing is kept when no element passes. */
  lemma {:induction false} FilterNone<T>(s: seq<T>, keep: T -> bool)
    requires forall i :: 0 <= i < |s| ==> !keep(s[i])
    ensures Filter(s, keep) == []
  {
    if s != [] {
      FilterNone(s[1..], keep);
    }
  }

  /** Insertion keeps the relative order of the elements that share a key. */
  lemma {:induction false} InsertStable<T>(x: T, s: seq<T>, key: T -> real, v: real)
    requires NonIncreasing(s, key)
    ensures Filter(Insert(x, s, key), KeyIs(key, v)) == Filter(s, KeyIs(key, v)) + Filter([x], KeyIs(key, v))
  {
    var same := KeyIs(key, v);
    if s == [] {
    } else if key(s[0]) >= key(x) {
      InsertStable(x, s[1..], key, v);
    } else {
      if key(x) == v {
        assert forall i :: 0 <= i < |s| ==> key(s[i]) <= key(s[0]);
        FilterNone(s, same);
      }
      FilterConcat([x], s, same);
    }
  }

  /** Stability: among the elements with any one key, sorting keeps the original order. */
  lemma {:induction false} SortDescStable<T>(s: seq<T>, key: T -> real, v: real)
    ensures Filter(SortDesc(s, key), KeyIs(key, v)) == Filter(s, KeyIs(key, v))
  {
    if s != [] {
      var init, last := s[..|s| - 1], s[|s| - 1];
      var sortedInit := SortDesc(init, key);
      assert SortDesc(s, key) == Insert(last, sortedInit, key);
      SortDescStable(init, key, v);
      InsertStable(last, sortedInit, key, v);
      InitLast(s);
      FilterSnoc(init, last, KeyIs(key, v));
    }
  }

  /** Filtering a sequence without repeats leaves one without repeats. */
  lemma {:induction false} FilterDistinct<T>(s: seq<T>, keep: T -> bool)
    requires Distinct(s)
    ensures Distinct(Filter(s, keep))
  {
    if s != [] {
      FilterDistinct(s[1..], keep);
      FilterMembers(s[1..], keep);
      assert s[0] !in s[1..] by {
        assert forall m :: 0 <= m < |s| - 1 ==> s[1..][m] == s[m + 1];
      }
    }
  }

  /** An element occurs at most once in a sequence without repeats. */
  lemma {:induction false} DistinctCount<T>(a: seq<T>, v: T)
    requires Distinct(a)
    ensures multiset(a)[v] <= 1
  {
    if a != [] {
      assert Distinct(a[1..]) by {
        assert forall m :: 0 <= m < |a| - 1 ==> a[1..][m] == a[m + 1];
      }
      DistinctCount(a[1..], v);
      assert a == [a[0]] + a[1..];
      assert a[0] !in a[1..] by {
        assert forall m :: 0 <= m < |a| - 1 ==> a[1..][m] == a[m + 1];
      }
    }
  }

  /** A reordering of a sequence without repeats has no repeats. */
  lemma DistinctPermuted<T>(a: seq<T>, b: seq<T>)
    requires multiset(a) == multiset(b) && Distinct(a)
    ensures Distinct(b)
  {
    forall i, j | 0 <= i < j < |b| ensures b[i] != b[j] {
      DistinctCount(a, b[j]);
      assert b == b[..j] + [b[j]] + b[j + 1..];
      assert multiset(b)[b[j]] == multiset(b[..j])[b[j]] + 1 + multiset(b[j + 1..])[b[j]];
      assert b[j] !in multiset(b[..j]);
      assert b[i] == b[..j][i];
    }
  }

  /** Two sequences without repeats and without common elements concatenate to one without
      repeats. */
  lemma DistinctConcat<T>(a: seq<T>, b: seq<T>)
    requires Distinct(a) && Distinct(b)
    requires forall x :: x in a ==> x !in b
    ensures Distinct(a + b)
  {
    forall i, j | 0 <= i < j < |a + b| ensures (a + b)[i] != (a + b)[j] {
      if j < |a| {
        assert (a + b)[i] == a[i] && (a + b)[j] == a[j];
      } else if i >= |a| {
        assert (a + b)[i] == b[i - |a|] && (a + b)[j] == b[j - |a|];
      } else {
        assert (a + b)[i] == a[i] && (a + b)[j] == b[j - |a|];
        assert a[i] in a;
      }
    }
  }

  /** Filters that agree on every element keep the same elements. */
  lemma {:induction false} FilterAgree<T>(s: seq<T>, p: T -> bool, q: T -> bool)
    requires forall i :: 0 <= i < |s| ==> p(s[i]) == q(s[i])
    ensures Filter(s, p) == Filter(s, q)
  {
    if s != [] {
      FilterAgree(s[1..], p, q);
    }
  }

  /** What one filter keeps and its complement keeps add up to the whole sequence. */
  lemma {:induction false} FilterComplement<T>(s: seq<T>, keep: T -> bool, drop: T -> bool)
    requires forall x :: drop(x) == !keep(x)
    ensures |Filter(s, keep)| + |Filter(s, drop)| == |s|
  {
    if s != [] {
      FilterComplement(s[1..], keep, drop);
    }
  }

  /** Everything kept passes the filter. */
  lemma {:induction false} FilterAllPass<T>(s: seq<T>, keep: T -> bool)
    requires forall i :: 0 <= i < |s| ==> keep(s[i])
    ensures Filter(s, keep) == s
  {
    if s != [] {
      FilterAllPass(s[1..], keep);
    }
  }

  /** Two sorted runs, the first no lower than the second, concatenate to a sorted run. */
  lemma SortedConcat<T>(a: seq<T>, b: seq<T>, key: T -> real)
    requires NonIncreasing(a, key) && NonIncreasing(b, key)
    requires forall i, j :: 0 <= i < |a| && 0 <= j < |b| ==> key(a[i]) >= key(b[j])
    ensures NonIncreasing(a + b, key)
  {
    forall i, j | 0 <= i < j < |a + b| ensures key((a + b)[i]) >= key((a + b)[j]) {
      if j < |a| {
        assert (a + b)[i] == a[i] && (a + b)[j] == a[j];
      } else if i >= |a| {
        assert (a + b)[i] == b[i - |a|] && (a + b)[j] == b[j - |a|];
      } else {
        assert (a + b)[i] == a[i] && (a + b)[j] == b[j - |a|];
      }
    }
  }

  /** Two sequences with the same multiset have the same members. */
  lemma SameMembers<T>(a: seq<T>, b: seq<T>)
    requires multiset(a) == multiset(b)
    ensures forall x :: x in a ==> x in b
    ensures forall x :: x in b ==> x in a
  {
    forall x | x in a ensures x in b {
      assert x in multiset(a);
    }
    forall x | x in b ensures x in a {
      assert x in multiset(b);
    }
  }

  /** A sequence is what comes before index `i`, the element there, and what follows. */
  lemma SplitAt<T>(b: seq<T>, i: nat)
    requires i < |b|
    ensures b == (b[..i] + [b[i]]) + b[i + 1..]
  {
  }

  /** Removing the element at `i` removes one copy of it from the multiset. */
  lemma MultisetRemove<T>(b: seq<T>, i: nat)
    requires i < |b|
    ensures multiset(b[..i] + b[i + 1..]) == multiset(b) - multiset{b[i]}
  {
    SplitAt(b, i);
  }

  /** Filtering with the element at `i` removed. */
  lemma FilterRemove<T>(b: seq<T>, i: nat, keep: T -> bool)
    requires i < |b|
    ensures multiset(Filter(b, keep)) == multiset(Filter(b[..i] + b[i + 1..], keep)) + multiset(Filter([b[i]], keep))
  {
    var p, x, q := b[..i], b[i], b[i + 1..];
    SplitAt(b, i);
    FilterConcat(p + [x], q, keep);
    FilterConcat(p, [x], keep);
    FilterConcat(p, q, keep);
    var fp, fx, fq := Filter(p, keep), Filter([x], keep), Filter(q, keep);
    assert multiset(Filter(b, keep)) == multiset(fp) + multiset(fx) + multiset(fq);
    assert multiset(Filter(p + q, keep)) == multiset(fp) + multiset(fq);
  }

  /** Filtering two permutations of each other gives permutations of each other. */
  lemma {:induction false} FilterPermutation<T>(a: seq<T>, b: seq<T>, keep: T -> bool)
    requires multiset(a) == multiset(b)
    ensures multiset(Filter(a, keep)) == multiset(Filter(b, keep))
  {
    if a != [] {
      var x := a[0];
      assert x in multiset(b);
      var i :| 0 <= i < |b| && b[i] == x;
      var rest := b[..i] + b[i + 1..];
      MultisetRemove(a, 0);
      assert a[..0] + a[1..] == a[1..];
      MultisetRemove(b, i);
      FilterPermutation(a[1..], rest, keep);
      FilterRemove(a, 0, keep);
      FilterRemove(b, i, keep);
    }
  }

  // ----- Fixed-size slices -----

  /** How many slices of `size` cover `n` items. */
  function SliceCount(n: nat, size: nat): nat
    requires size > 0
  {
    if n == 0 then 0 else if n <= size then 1 else 1 + SliceCount(n - size, size)
  }

  /** The slices `xs[i:i+size]` for `i in range(0, len(xs), size)`. */
  function Slices<T>(xs: seq<T>, size: nat): (r: seq<seq<T>>)
    requires size > 0
    ensures |r| == SliceCount(|xs|, size)
    ensures forall j :: 0 <= j < |r| ==> 1 <= |r[j]| <= size
    decreases |xs|
  {
    if xs == [] then []
    else if |xs| <= size then [xs]
    else [xs[..size]] + Slices(xs[size..], size)
  }

  /** The first slice and the slices of what follows it. */
  lemma SlicesUncons<T>(ys: seq<T>, size: nat)
    requires size > 0 && ys != []
    ensures var e := if size < |ys| then size else |ys|;
            Slices(ys, size) == [ys[..e]] + Slices(ys[e..], size)
  {
    if |ys| <= size {
      assert ys[..|ys|] == ys;
      assert ys[|ys|..] == [];
    }
  }

  /** Walking the slices: when the slices of `xs` are the first `j` of them followed by the
      slices of `xs[i..]`, slice `j` starts at `i` and the walk can move on by one slice. */
  lemma SlicesFrom<T>(xs: seq<T>, size: nat, i: nat, j: nat)
    requires size > 0 && i < |xs| && j <= |Slices(xs, size)|
    requires Slices(xs, size) == Slices(xs, size)[..j] + Slices(xs[i..], size)
    ensures var e := if i + size < |xs| then i + size else |xs|;
            && j < |Slices(xs, size)|
            && Slices(xs, size)[j] == xs[i..e]
            && Slices(xs, size) == Slices(xs, size)[..j + 1] + Slices(xs[e..], size)
  {
    var e := if i + size < |xs| then i + size else |xs|;
    var ys := xs[i..];
    SlicesUncons(ys, size);
    assert ys[..e - i] == xs[i..e];
    assert ys[e - i..] == xs[e..];
    var all := Slices(xs, size);
    var after := Slices(xs[e..], size);
    assert Slices(ys, size) == [xs[i..e]] + after;
    assert all == all[..j] + ([xs[i..e]] + after);
    SplitThree(all, all[..j], xs[i..e], after);
  }

  /** A sequence that is `p`, then `h`, then `rest`, seen from both ends. */
  lemma SplitThree<U>(all: seq<U>, p: seq<U>, h: U, rest: seq<U>)
    requires all == p + ([h] + rest)
    ensures all[|p|] == h && all[..|p| + 1] == p + [h] && all == all[..|p| + 1] + rest
  {
    assert all[..|p| + 1] == p + [h];
  }

  /** The parts laid end to end. */
  function Flatten<T>(parts: seq<seq<T>>): seq<T> {
    if parts == [] then [] else parts[0] + Flatten(parts[1..])
  }

  /** The slices cover the input exactly once, in order. */
  lemma {:induction false} SlicesPartition<T>(xs: seq<T>, size: nat)
    requires size > 0
    ensures Flatten(Slices(xs, size)) == xs
    decreases |xs|
  {
    if |xs| > size {
      SlicesPartition(xs[size..], size);
      assert Slices(xs, size)[1..] == Slices(xs[size..], size);
      assert xs == xs[..size] + xs[size..];
    }
  }
}
