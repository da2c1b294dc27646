/** Facts about the size of finite sets. */
module SetFacts {

  lemma SubsetSize<T>(a: set<T>, b: set<T>)
    requires a <= b
    ensures |a| <= |b|
  {
    assert b == a + (b - a);
  }

  lemma AddOne<T>(a: set<T>, b: set<T>, x: T)
    requires a <= b + {x}
    ensures |a| <= |b| + 1
  {
    SubsetSize(a - {x}, b);
    assert |a - {x}| >= |a| - 1;
  }

  lemma RemoveOne<T>(a: set<T>, b: set<T>, x: T)
    requires x in b && a <= b - {x}
    ensures |a| <= |b| - 1
  {
    SubsetSize(a, b - {x});
  }

  lemma WithoutOne<T>(a: set<T>, x: T)
    requires x in a
    ensures a - {x} < a && |a - {x}| == |a| - 1 && a - {x} + {x} == a && x !in a - {x}
  {
  }
}
