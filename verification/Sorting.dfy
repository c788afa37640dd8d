// The standard library's sort on keys that are real numbers: an ordered rearrangement, and
// for distinguishable elements the only one.
module Sorting {
  function NatKey(n: nat): real {
    n as real
  }

  function RealKey(x: real): real {
    x
  }

  function Insert<T>(x: T, xs: seq<T>, key: T -> real): seq<T> {
    if xs == [] then [x]
    else if key(x) <= key(xs[0]) then [x] + xs
    else [xs[0]] + Insert(x, xs[1..], key)
  }

  function Sort<T>(xs: seq<T>, key: T -> real): (ys: seq<T>)
    ensures |ys| == |xs|
  {
    if xs == [] then [] else
    SortLength(xs, key);
    Insert(xs[0], Sort(xs[1..], key), key)
  }

  lemma {:induction false} SortLength<T>(xs: seq<T>, key: T -> real)
    requires xs != []
    ensures |Insert(xs[0], Sort(xs[1..], key), key)| == |xs|
    decreases xs, 0
  {
    InsertLength(xs[0], Sort(xs[1..], key), key);
  }

  lemma {:induction false} InsertLength<T>(x: T, xs: seq<T>, key: T -> real)
    ensures |Insert(x, xs, key)| == |xs| + 1
  {
    if xs != [] {
      InsertLength(x, xs[1..], key);
    }
  }

  ghost predicate Sorted<T>(xs: seq<T>, key: T -> real) {
    forall i, j :: 0 <= i < j < |xs| ==> key(xs[i]) <= key(xs[j])
  }

  lemma {:induction false} InsertMultiset<T>(x: T, xs: seq<T>, key: T -> real)
    ensures multiset(Insert(x, xs, key)) == multiset(xs) + multiset{x}
  {
    if xs != [] {
      assert xs == [xs[0]] + xs[1..];
      InsertMultiset(x, xs[1..], key);
    }
  }

  lemma {:induction false} InsertSorted<T>(x: T, xs: seq<T>, key: T -> real)
    requires Sorted(xs, key)
    ensures Sorted(Insert(x, xs, key), key)
  {
    if xs != [] && key(x) > key(xs[0]) {
      InsertSorted(x, xs[1..], key);
      forall i | 0 <= i < |Insert(x, xs[1..], key)| ensures key(xs[0]) <= key(Insert(x, xs[1..], key)[i]) {
        InsertedAt(x, xs[1..], key, i);
      }
      hide Insert;
      assert Insert(x, xs, key) == [xs[0]] + Insert(x, xs[1..], key) by { InsertStep(x, xs, key); }
    }
  }

  lemma {:induction false} InsertStep<T>(x: T, xs: seq<T>, key: T -> real)
    requires xs != [] && key(x) > key(xs[0])
    ensures Insert(x, xs, key) == [xs[0]] + Insert(x, xs[1..], key)
  {
  }

  lemma {:induction false} InsertedAt<T>(x: T, xs: seq<T>, key: T -> real, i: nat)
    requires i < |Insert(x, xs, key)|
    ensures Insert(x, xs, key)[i] == x || Insert(x, xs, key)[i] in xs
  {
    hide Insert;
    InsertMultiset(x, xs, key);
    assert Insert(x, xs, key)[i] in multiset(Insert(x, xs, key));
  }

  lemma {:induction false} NoneSorted<T>(key: T -> real)
    ensures Sorted([], key)
  {
  }

  lemma {:induction false} SortSorts<T>(xs: seq<T>, key: T -> real)
    ensures Sorted(Sort(xs, key), key)
    ensures multiset(Sort(xs, key)) == multiset(xs)
  {
    NoneSorted(key);
    hide Insert, Sorted;
    if xs != [] {
      SortSorts(xs[1..], key);
      InsertSorted(xs[0], Sort(xs[1..], key), key);
      InsertMultiset(xs[0], Sort(xs[1..], key), key);
      assert xs == [xs[0]] + xs[1..];
    }
  }

  // Equal keys mean equal elements.
  ghost predicate Distinguishes<T>(key: T -> real, xs: seq<T>) {
    forall i, j :: 0 <= i < |xs| && 0 <= j < |xs| && key(xs[i]) == key(xs[j]) ==> xs[i] == xs[j]
  }

  // Two ordered lists of the same elements are the same list.
  lemma {:induction false} SortedUnique<T>(a: seq<T>, b: seq<T>, key: T -> real)
    requires Sorted(a, key) && Sorted(b, key) && multiset(a) == multiset(b)
    requires Distinguishes(key, a)
    ensures a == b
  {
    hide Sorted, Distinguishes;
    LengthPermuted(a, b);
    if a != [] {
      SameHead(a, b, key);
      TailsPermuted(a, b);
      TailOrdered(a, key);
      TailOrdered(b, key);
      TailDistinguished(a, key);
      SortedUnique(a[1..], b[1..], key);
      assert a == [a[0]] + a[1..] && b == [b[0]] + b[1..];
    } else {
      assert b == [];
    }
  }

  lemma {:induction false} TailsPermuted<T>(a: seq<T>, b: seq<T>)
    requires a != [] && b != [] && a[0] == b[0] && multiset(a) == multiset(b)
    ensures multiset(a[1..]) == multiset(b[1..])
  {
    RemoveBoth(a, b, 0);
    assert b[..0] + b[1..] == b[1..];
  }

  lemma {:induction false} TailOrdered<T>(a: seq<T>, key: T -> real)
    requires Sorted(a, key) && a != []
    ensures Sorted(a[1..], key)
  {
  }

  lemma {:induction false} TailDistinguished<T>(a: seq<T>, key: T -> real)
    requires Distinguishes(key, a) && a != []
    ensures Distinguishes(key, a[1..])
  {
  }

  lemma {:induction false} LeastKey<T>(a: seq<T>, b: seq<T>, key: T -> real) returns (i: nat)
    requires Sorted(a, key) && multiset(a) == multiset(b) && a != [] && b != []
    ensures i < |a| && a[i] == b[0] && key(a[0]) <= key(b[0])
  {
    assert b[0] in multiset(a);
    i :| 0 <= i < |a| && a[i] == b[0];
  }

  lemma {:induction false} SameHead<T>(a: seq<T>, b: seq<T>, key: T -> real)
    requires Sorted(a, key) && Sorted(b, key) && multiset(a) == multiset(b) && a != [] && b != []
    requires Distinguishes(key, a)
    ensures a[0] == b[0]
  {
    hide Sorted;
    var i := LeastKey(a, b, key);
    var _ := LeastKey(b, a, key);
    assert key(a[0]) == key(a[i]);
  }

  // Sorting forgets the order of its input.
  lemma {:induction false} SortCanonical<T>(a: seq<T>, b: seq<T>, key: T -> real)
    requires multiset(a) == multiset(b)
    requires Distinguishes(key, a)
    ensures Sort(a, key) == Sort(b, key)
  {
    hide Sorted, Sort;
    SortSorts(a, key);
    SortSorts(b, key);
    DistinguishesPermuted(a, Sort(a, key), key);
    SortedUnique(Sort(a, key), Sort(b, key), key);
  }

  lemma {:induction false} DistinguishesPermuted<T>(a: seq<T>, b: seq<T>, key: T -> real)
    requires multiset(a) == multiset(b) && Distinguishes(key, a)
    ensures Distinguishes(key, b)
  {
    forall i, j | 0 <= i < |b| && 0 <= j < |b| && key(b[i]) == key(b[j]) ensures b[i] == b[j] {
      assert b[i] in multiset(a) && b[j] in multiset(a);
    }
  }

  // ------------------------------------------------------------------
  // Rearrangements and counting
  // ------------------------------------------------------------------

  lemma {:induction false} RemoveBoth<T>(xs: seq<T>, ys: seq<T>, i: nat)
    requires xs != [] && multiset(xs) == multiset(ys) && i < |ys| && ys[i] == xs[0]
    ensures multiset(xs[1..]) == multiset(ys[..i] + ys[i + 1..])
  {
    assert xs == [xs[0]] + xs[1..];
    assert ys == ys[..i] + [ys[i]] + ys[i + 1..];
    assert multiset(xs[1..]) == multiset(xs) - multiset{xs[0]};
    assert multiset(ys[..i] + ys[i + 1..]) == multiset(ys) - multiset{ys[i]};
  }

  lemma {:induction false} LengthPermuted<T>(xs: seq<T>, ys: seq<T>)
    requires multiset(xs) == multiset(ys)
    ensures |xs| == |ys|
  {
    assert |multiset(xs)| == |xs| && |multiset(ys)| == |ys|;
  }

  function CountAtMost<T>(xs: seq<T>, v: real, key: T -> real): (n: nat)
    ensures n <= |xs|
  {
    if xs == [] then 0 else (if key(xs[0]) <= v then 1 else 0) + CountAtMost(xs[1..], v, key)
  }

  function CountAtLeast<T>(xs: seq<T>, v: real, key: T -> real): (n: nat)
    ensures n <= |xs|
  {
    if xs == [] then 0 else (if key(xs[0]) >= v then 1 else 0) + CountAtLeast(xs[1..], v, key)
  }

  lemma {:induction false} CountPrefix<T>(xs: seq<T>, v: real, key: T -> real, k: nat)
    requires k <= |xs| && forall i :: 0 <= i < k ==> key(xs[i]) <= v
    ensures CountAtMost(xs, v, key) >= k
  {
    if k > 0 {
      CountPrefix(xs[1..], v, key, k - 1);
    }
  }

  lemma {:induction false} CountSuffix<T>(xs: seq<T>, v: real, key: T -> real, k: nat)
    requires k <= |xs| && forall i :: k <= i < |xs| ==> key(xs[i]) >= v
    ensures CountAtLeast(xs, v, key) >= |xs| - k
  {
    if k > 0 {
      CountSuffix(xs[1..], v, key, k - 1);
    } else if xs != [] {
      CountSuffix(xs[1..], v, key, 0);
    }
  }

  lemma {:induction false} CountsPermuted<T>(xs: seq<T>, ys: seq<T>, v: real, key: T -> real)
    requires multiset(xs) == multiset(ys)
    ensures CountAtMost(xs, v, key) == CountAtMost(ys, v, key)
    ensures CountAtLeast(xs, v, key) == CountAtLeast(ys, v, key)
  {
    if xs == [] {
      assert |multiset(ys)| == 0;
    } else {
      assert xs[0] in multiset(xs);
      var i :| 0 <= i < |ys| && ys[i] == xs[0];
      RemoveBoth(xs, ys, i);
      CountsPermuted(xs[1..], ys[..i] + ys[i + 1..], v, key);
      CountsSplit(ys, i, v, key);
    }
  }

  lemma {:induction false} CountsSplit<T>(xs: seq<T>, i: nat, v: real, key: T -> real)
    requires i < |xs|
    ensures var rest := xs[..i] + xs[i + 1..];
      && CountAtMost(xs, v, key) == (if key(xs[i]) <= v then 1 else 0) + CountAtMost(rest, v, key)
      && CountAtLeast(xs, v, key) == (if key(xs[i]) >= v then 1 else 0) + CountAtLeast(rest, v, key)
  {
    var rest := xs[..i] + xs[i + 1..];
    if i == 0 {
      assert rest == xs[1..];
    } else {
      CountsSplit(xs[1..], i - 1, v, key);
      assert rest[0] == xs[0] && rest[1..] == xs[1..][..i - 1] + xs[1..][i..];
    }
  }
}
