/** Sizes of finite sets. */
module Sets {
  lemma SubsetSize<X>(a: set<X>, b: set<X>)
    requires a <= b
    ensures |a| <= |b|
  {
    assert b == a + (b - a);
  }

  /** A one-to-one correspondence keeps the size. */
  lemma {:induction false} SameSize<X, Y>(a: set<X>, b: set<Y>, f: X --> Y)
    requires forall x | x in a :: f.requires(x) && f(x) in b
    requires forall x, x' | x in a && x' in a && f(x) == f(x') :: x == x'
    requires forall y | y in b :: exists x :: x in a && f(x) == y
    ensures |a| == |b|
    decreases |a|
  {
    if a == {} {
      assert b == {};
    } else {
      var x :| x in a;
      forall y | y in b - {f(x)}
        ensures exists x' :: x' in a - {x} && f(x') == y
      {
        var x' :| x' in a && f(x') == y;
        assert x' in a - {x};
      }
      SameSize(a - {x}, b - {f(x)}, f);
    }
  }
}
