/** Python's ordering of strings, and `sorted()` of a finite set of keys under it. */
module LexOrder {

  /** `a < b` as Python compares strings: the first differing character
      decides, and a proper prefix is smaller than the longer string. */
  predicate Less(a: string, b: string): (r: bool)
    ensures r ==> |b| > 0
    ensures |a| < |b| && a == b[..|a|] ==> r
    decreases |a|
  {
    |b| > 0 && (|a| == 0 || a[0] < b[0] || (a[0] == b[0] && Less(a[1..], b[1..])))
  }

  /** The usual statement of the order: `a` is a proper prefix of `b`, or
      the two agree up to some position where `a` has the smaller character. */
  ghost predicate FirstDifferenceBelow(a: string, b: string)
  {
    || (|a| < |b| && a == b[..|a|])
    || exists i :: 0 <= i < |a| && i < |b| && a[..i] == b[..i] && a[i] < b[i]
  }

  /** When the first characters differ, they alone decide. */
  lemma FirstDifferenceAtHead(a: string, b: string)
    requires |a| > 0 && |b| > 0 && a[0] != b[0]
    ensures FirstDifferenceBelow(a, b) <==> a[0] < b[0]
  {
    assert a[..0] == b[..0];
    forall i | 0 < i < |a| && i < |b|
      ensures a[..i] != b[..i]
    {
      assert a[..i][0] != b[..i][0];
    }
    if |a| < |b| {
      assert b[..|a|][0] != a[0];
    }
  }

  /** When the first characters agree, the order is decided by the rests. */
  lemma FirstDifferenceAfterHead(a: string, b: string)
    requires |a| > 0 && |b| > 0 && a[0] == b[0]
    ensures FirstDifferenceBelow(a, b) <==> FirstDifferenceBelow(a[1..], b[1..])
  {
    var a', b' := a[1..], b[1..];
    if |a| < |b| {
      assert b[..|a|] == [b[0]] + b'[..|a'|];
      assert a == [a[0]] + a';
    }
    forall i | 0 < i < |a| && i < |b|
      ensures (a[..i] == b[..i] && a[i] < b[i]) <==> (a'[..i - 1] == b'[..i - 1] && a'[i - 1] < b'[i - 1])
    {
      assert a[..i] == [a[0]] + a'[..i - 1] && b[..i] == [b[0]] + b'[..i - 1];
    }
    if exists j :: 0 <= j < |a'| && j < |b'| && a'[..j] == b'[..j] && a'[j] < b'[j] {
      var j :| 0 <= j < |a'| && j < |b'| && a'[..j] == b'[..j] && a'[j] < b'[j];
      assert a[..j + 1] == b[..j + 1] && a[j + 1] < b[j + 1];
    }
  }

  /** `Less` is exactly that order. */
  lemma {:induction false} LessIsFirstDifference(a: string, b: string)
    ensures Less(a, b) <==> FirstDifferenceBelow(a, b)
    decreases |a|
  {
    if |a| == 0 || |b| == 0 {
      assert a[..0] == [];
    } else if a[0] != b[0] {
      FirstDifferenceAtHead(a, b);
    } else {
      LessIsFirstDifference(a[1..], b[1..]);
      FirstDifferenceAfterHead(a, b);
    }
  }

  lemma {:induction false} LessIrreflexive(a: string)
    ensures !Less(a, a)
    decreases |a|
  {
    if |a| > 0 {
      LessIrreflexive(a[1..]);
    }
  }

  lemma {:induction false} LessTransitive(a: string, b: string, c: string)
    requires Less(a, b) && Less(b, c)
    ensures Less(a, c)
    decreases |a|
  {
    if |a| > 0 && a[0] == b[0] && b[0] == c[0] {
      LessTransitive(a[1..], b[1..], c[1..]);
    }
  }

  lemma {:induction false} LessTotal(a: string, b: string)
    requires a != b
    ensures Less(a, b) || Less(b, a)
    decreases |a|
  {
    if |a| > 0 && |b| > 0 && a[0] == b[0] {
      assert a == [a[0]] + a[1..] && b == [b[0]] + b[1..];
      LessTotal(a[1..], b[1..]);
    }
  }

  lemma LessAsymmetric(a: string, b: string)
    requires Less(a, b)
    ensures !Less(b, a)
  {
    if Less(b, a) {
      LessTransitive(a, b, a);
      LessIrreflexive(a);
    }
  }

  /** Every earlier element is smaller than every later one (so no element repeats). */
  predicate StrictlySorted(s: seq<string>)
  {
    forall i, j :: 0 <= i < j < |s| ==> Less(s[i], s[j])
  }

  /** x is the smallest element of keys. */
  predicate IsLeast(x: string, keys: set<string>)
  {
    x in keys && forall y :: y in keys && y != x ==> Less(x, y)
  }

  lemma {:induction false} LeastExists(keys: set<string>)
    requires keys != {}
    ensures exists x :: IsLeast(x, keys)
    decreases |keys|
  {
    var y :| y in keys;
    if keys == {y} {
      assert IsLeast(y, keys);
    } else {
      var rest := keys - {y};
      LeastExists(rest);
      var z :| IsLeast(z, rest);
      if Less(y, z) {
        forall w | w in keys && w != y
          ensures Less(y, w)
        {
          if w != z {
            LessTransitive(y, z, w);
          }
        }
        assert IsLeast(y, keys);
      } else {
        LessTotal(y, z);
        assert IsLeast(z, keys);
      }
    }
  }

  lemma LeastUnique(keys: set<string>)
    ensures forall x, y :: IsLeast(x, keys) && IsLeast(y, keys) ==> x == y
  {
    forall x, y | IsLeast(x, keys) && IsLeast(y, keys)
      ensures x == y
    {
      if x != y {
        LessAsymmetric(x, y);
      }
    }
  }

  /** The smallest key of a non-empty set. */
  function Least(keys: set<string>): (x: string)
    requires keys != {}
    ensures IsLeast(x, keys)
  {
    LeastExists(keys);
    LeastUnique(keys);
    var x :| IsLeast(x, keys); x
  }

  /** `sorted(keys)`: the keys in ascending order, each exactly once. */
  function SortedKeys(keys: set<string>): (r: seq<string>)
    ensures StrictlySorted(r)
    ensures forall k :: k in r <==> k in keys
    ensures |r| == |keys|
    decreases |keys|
  {
    if keys == {} then []
    else
      var x := Least(keys);
      var rest := SortedKeys(keys - {x});
      assert forall j :: 0 <= j < |rest| ==> rest[j] in keys - {x};
      [x] + rest
  }

  lemma SameElementsEmpty(a: seq<string>, b: seq<string>)
    requires forall k :: k in a <==> k in b
    ensures a == [] <==> b == []
  {
    if a != [] {
      assert a[0] in a;
    }
    if b != [] {
      assert b[0] in b;
    }
  }

  /** A strictly sorted sequence is determined by its elements, so `SortedKeys`
      is the only order a sorted enumeration of a set can have. */
  lemma {:induction false} SortedUnique(a: seq<string>, b: seq<string>)
    requires StrictlySorted(a) && StrictlySorted(b)
    requires forall k :: k in a <==> k in b
    ensures a == b
    decreases |a|
  {
    SameElementsEmpty(a, b);
    if a != [] {
      if a[0] != b[0] {
        assert b[0] in a && a[0] in b;
        var i :| 0 <= i < |a| && a[i] == b[0];
        var j :| 0 <= j < |b| && b[j] == a[0];
        assert i > 0 && j > 0;
        assert Less(a[0], b[0]) && Less(b[0], a[0]);
        LessAsymmetric(a[0], b[0]);
      }
      forall k
        ensures k in a[1..] <==> k in b[1..]
      {
        if k in a[1..] {
          var i :| 1 <= i < |a| && a[i] == k;
          assert Less(a[0], a[i]);
          LessIrreflexive(a[0]);
          assert k in b && k != b[0];
        }
        if k in b[1..] {
          var j :| 1 <= j < |b| && b[j] == k;
          assert Less(b[0], b[j]);
          LessIrreflexive(b[0]);
          assert k in a && k != a[0];
        }
      }
      SortedUnique(a[1..], b[1..]);
      assert a == [a[0]] + a[1..] && b == [b[0]] + b[1..];
    }
  }
}
