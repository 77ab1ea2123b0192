/** Order-preserving selection of elements from a sequence. */
module Sequences {

  lemma AppendAssoc<T>(a: seq<T>, b: seq<T>, c: seq<T>)
    ensures (a + b) + c == a + (b + c)
  {
  }

  /** No element occurs twice. */
  ghost predicate Distinct<T>(s: seq<T>)
  {
    forall i, j :: 0 <= i < j < |s| ==> s[i] != s[j]
  }

  /** `a` is `b` with some elements left out, the rest in their original order.
      Defined from the back, the way sequences are built up by appending. */
  ghost predicate SubseqOf<T>(a: seq<T>, b: seq<T>)
    decreases |b|
  {
    if a == [] then true
    else if b == [] then false
    else if a[|a| - 1] == b[|b| - 1] then SubseqOf(a[..|a| - 1], b[..|b| - 1])
    else SubseqOf(a, b[..|b| - 1])
  }

  lemma {:induction false} SubseqElements<T>(a: seq<T>, b: seq<T>)
    requires SubseqOf(a, b)
    ensures forall x :: x in a ==> x in b
    decreases |b|
  {
    if a != [] {
      assert b != [];
      var b' := b[..|b| - 1];
      assert b == b' + [b[|b| - 1]];
      if a[|a| - 1] == b[|b| - 1] {
        var a' := a[..|a| - 1];
        SubseqElements(a', b');
        assert a == a' + [a[|a| - 1]];
      } else {
        SubseqElements(a, b');
      }
    }
  }

  lemma SubseqExtend<T>(a: seq<T>, b: seq<T>, x: T, keep: bool)
    requires SubseqOf(a, b)
    ensures SubseqOf(if keep then a + [x] else a, b + [x])
  {
    if keep {
      assert (b + [x])[..|b|] == b;
      assert (a + [x])[..|a|] == a;
    } else {
      SubseqSkip(a, b, x);
    }
  }

  lemma {:induction false} SubseqDropLast<T>(a: seq<T>, b: seq<T>)
    requires a != [] && SubseqOf(a, b)
    ensures SubseqOf(a[..|a| - 1], b)
    decreases |b|, 0
  {
    var a' := a[..|a| - 1];
    var b' := b[..|b| - 1];
    assert b' + [b[|b| - 1]] == b;
    if a[|a| - 1] != b[|b| - 1] {
      SubseqDropLast(a, b');
    }
    SubseqSkip(a', b', b[|b| - 1]);
  }

  lemma {:induction false} SubseqSkip<T>(a: seq<T>, b: seq<T>, x: T)
    requires SubseqOf(a, b)
    ensures SubseqOf(a, b + [x])
    decreases |b|, 1
  {
    assert (b + [x])[..|b|] == b;
    if a != [] && a[|a| - 1] == x {
      SubseqDropLast(a, b);
    }
  }

  /** Two selections from a sequence without repetitions that keep the same
      elements are the same selection: membership and order together
      determine an order-preserving filter. */
  lemma {:induction false} SubseqUnique<T>(r1: seq<T>, r2: seq<T>, b: seq<T>)
    requires Distinct(b) && SubseqOf(r1, b) && SubseqOf(r2, b)
    requires forall x :: x in r1 <==> x in r2
    ensures r1 == r2
    decreases |b|
  {
    if b == [] {
      assert r1 == [] && r2 == [];
    } else {
      var x := b[|b| - 1];
      var b' := b[..|b| - 1];
      assert Distinct(b');
      assert x !in b';
      if x in r1 {
        LastIsLast(r1, b);
        LastIsLast(r2, b);
        var r1', r2' := r1[..|r1| - 1], r2[..|r2| - 1];
        assert r1 == r1' + [x] && r2 == r2' + [x];
        SubseqElements(r1', b');
        SubseqElements(r2', b');
        forall y
          ensures y in r1' <==> y in r2'
        {
          assert y in r1' ==> y != x && y in r1;
          assert y in r2' ==> y != x && y in r2;
          assert y in r1 && y != x ==> y in r1';
          assert y in r2 && y != x ==> y in r2';
        }
        SubseqUnique(r1', r2', b');
      } else {
        assert x !in r2;
        NotLastSkips(r1, b);
        NotLastSkips(r2, b);
        SubseqUnique(r1, r2, b');
      }
    }
  }

  lemma LastIsLast<T>(r: seq<T>, b: seq<T>)
    requires b != [] && Distinct(b) && SubseqOf(r, b) && b[|b| - 1] in r
    ensures r != [] && r[|r| - 1] == b[|b| - 1]
    ensures SubseqOf(r[..|r| - 1], b[..|b| - 1])
  {
    var b' := b[..|b| - 1];
    if r[|r| - 1] != b[|b| - 1] {
      SubseqElements(r, b');
      assert false;
    }
  }

  lemma NotLastSkips<T>(r: seq<T>, b: seq<T>)
    requires b != [] && SubseqOf(r, b) && b[|b| - 1] !in r
    ensures SubseqOf(r, b[..|b| - 1])
  {
    if r != [] {
      assert r[|r| - 1] in r;
    }
  }
}
