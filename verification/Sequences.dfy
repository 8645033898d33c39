/** Sequences without repetitions and the sets they list. */
module Sequences {

  function Members<T>(s: seq<T>): set<T> {
    set x | x in s
  }

  predicate Distinct<T(==)>(s: seq<T>) {
    forall i, j | 0 <= i < j < |s| :: s[i] != s[j]
  }

  lemma MembersOfConcat<T>(a: seq<T>, b: seq<T>)
    ensures Members(a + b) == Members(a) + Members(b)
  {
  }

  lemma DistinctConcat<T>(a: seq<T>, b: seq<T>)
    ensures Members(a + b) == Members(a) + Members(b)
    ensures Distinct(a + b) <==> Distinct(a) && Distinct(b) && Members(a) !! Members(b)
  {
    var c := a + b;
    if Distinct(c) {
      forall i, j | 0 <= i < j < |a| ensures a[i] != a[j] {
        assert c[i] != c[j];
      }
      forall i, j | 0 <= i < j < |b| ensures b[i] != b[j] {
        assert c[|a| + i] != c[|a| + j];
      }
      forall x | x in Members(a) ensures x !in Members(b) {
        var i :| 0 <= i < |a| && a[i] == x;
        forall j | 0 <= j < |b| ensures b[j] != x {
          assert c[i] != c[|a| + j];
        }
      }
    }
    if Distinct(a) && Distinct(b) && Members(a) !! Members(b) {
      forall i, j | 0 <= i < j < |c| ensures c[i] != c[j] {
        if i < |a| <= j {
          assert a[i] in Members(a) && b[j - |a|] in Members(b);
        }
      }
    }
  }

  /** The first element and the rest of a sequence without repetitions. */
  lemma DistinctHead<T>(s: seq<T>)
    requires s != []
    ensures Members(s) == {s[0]} + Members(s[1..])
    ensures Distinct(s) <==> Distinct(s[1..]) && s[0] !in Members(s[1..])
  {
    assert s == [s[0]] + s[1..];
    DistinctConcat([s[0]], s[1..]);
  }

  lemma {:induction false} SizeOfDistinct<T>(s: seq<T>)
    requires Distinct(s)
    ensures |Members(s)| == |s|
  {
    if s != [] {
      DistinctHead(s);
      SizeOfDistinct(s[1..]);
    } else {
      assert Members(s) == {};
    }
  }

  /** A subset is no larger, and a proper subset is smaller. */
  lemma {:induction false} SubsetSize<T>(a: set<T>, b: set<T>)
    requires a <= b
    ensures |a| <= |b|
    ensures |a| == |b| ==> a == b
    ensures a < b ==> |a| < |b|
  {
    if a != {} {
      var x :| x in a;
      SubsetSize(a - {x}, b - {x});
    }
  }

  lemma UnionSize<T>(n: set<T>, a: set<T>, b: set<T>)
    requires n == a + b
    ensures |n| <= |a| + |b|
  {
    assert n == a + (b - a);
    assert b == (b - a) + (a * b);
  }
}
