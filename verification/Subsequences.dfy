// One list with some of its elements left out.
module Subsequences {
  import opened Traces

  ghost predicate Sub<T(!new)>(a: seq<T>, b: seq<T>) {
    if a == [] then true
    else if b == [] then false
    else Sub(a, b[..|b| - 1]) || (a[|a| - 1] == b[|b| - 1] && Sub(a[..|a| - 1], b[..|b| - 1]))
  }

  lemma {:induction false} SubSnoc<T(!new)>(a: seq<T>, b: seq<T>, x: T)
    requires Sub(a, b)
    ensures Sub(a, b + [x]) && Sub(a + [x], b + [x])
  {
    assert (b + [x])[..|b|] == b && (a + [x])[..|a|] == a;
  }

  lemma {:induction false} SubSelf<T(!new)>(a: seq<T>)
    ensures Sub(a, a)
  {
    if a != [] {
      SubSelf(a[..|a| - 1]);
    }
  }

  // Leaving the last one out as well.
  lemma {:induction false} SubInit<T(!new)>(a: seq<T>, b: seq<T>)
    requires Sub(a, b) && a != []
    ensures b != [] && Sub(a[..|a| - 1], b)
  {
    var init := b[..|b| - 1];
    assert b == init + [b[|b| - 1]];
    if Sub(a, init) {
      SubInit(a, init);
    }
    SubSnoc(a[..|a| - 1], init, b[|b| - 1]);
  }

  lemma {:induction false} SubPrefix<T(!new)>(a: seq<T>, a': seq<T>, b: seq<T>)
    requires Sub(a, b) && a' <= a
    ensures Sub(a', b)
    decreases |a|
  {
    if a' != a {
      SubInit(a, b);
      SubPrefix(a[..|a| - 1], a', b);
    }
  }

  lemma {:induction false} SubTransitive<T(!new)>(a: seq<T>, b: seq<T>, c: seq<T>)
    requires Sub(a, b) && Sub(b, c)
    ensures Sub(a, c)
    decreases |b| + |c|
  {
    if a != [] && b != [] {
      var c' := c[..|c| - 1];
      if Sub(b, c') {
        SubTransitive(a, b, c');
      } else {
        var b' := b[..|b| - 1];
        if Sub(a, b') {
          SubTransitive(a, b', c');
        } else {
          SubTransitive(a[..|a| - 1], b', c');
        }
      }
    }
  }

  lemma {:induction false} SubMembers<T(!new)>(a: seq<T>, b: seq<T>)
    requires Sub(a, b)
    ensures forall x :: x in a ==> x in b
  {
    if a != [] && b != [] {
      var b' := b[..|b| - 1];
      assert b == b' + [b[|b| - 1]];
      if Sub(a, b') {
        SubMembers(a, b');
      } else {
        SubMembers(a[..|a| - 1], b');
        assert a == a[..|a| - 1] + [a[|a| - 1]];
      }
    }
  }

  // What had no repeats still has none.
  lemma {:induction false} SubDistinct<T(!new)>(a: seq<T>, b: seq<T>)
    requires Sub(a, b) && NoRepeats(b)
    ensures NoRepeats(a)
  {
    if a != [] && b != [] {
      var b', last := b[..|b| - 1], b[|b| - 1];
      if Sub(a, b') {
        SubDistinct(a, b');
      } else {
        var a' := a[..|a| - 1];
        SubDistinct(a', b');
        SubMembers(a', b');
        forall i | 0 <= i < |a'| ensures a[i] != last {
          assert a'[i] in b';
        }
      }
    }
  }
}
