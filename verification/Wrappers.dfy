/** The result types shared by every component. */
module Wrappers {

  /** A value that may be missing. */
  datatype Option<+T> = None | Some(value: T)

  /** The cardinality of a set mapped through a function never grows. */
  lemma {:induction false} ImageNotLarger<A, B>(xs: set<A>, ys: set<B>, f: A -> B)
    requires ys == set x | x in xs :: f(x)
    ensures |ys| <= |xs|
  {
    if xs != {} {
      var x :| x in xs;
      var rest := xs - {x};
      var image := set z | z in rest :: f(z);
      ImageNotLarger(rest, image, f);
      assert ys == image + {f(x)};
    }
  }

  /** A function that is injective on a set keeps its cardinality. */
  lemma {:induction false} InjectiveImageSameSize<A, B>(xs: set<A>, ys: set<B>, f: A -> B)
    requires ys == set x | x in xs :: f(x)
    requires forall x, z :: x in xs && z in xs && f(x) == f(z) ==> x == z
    ensures |ys| == |xs|
  {
    if xs != {} {
      var x :| x in xs;
      var rest := xs - {x};
      var image := set z | z in rest :: f(z);
      InjectiveImageSameSize(rest, image, f);
      assert ys == image + {f(x)};
      assert f(x) !in image;
    }
  }

  /** A subset is not larger than the set around it. */
  lemma {:induction false} SubsetNotLarger<T>(xs: set<T>, ys: set<T>)
    requires xs <= ys
    ensures |xs| <= |ys|
  {
    assert ys == xs + (ys - xs);
  }

  /** A set whose elements are all the same has at most one. */
  lemma AtMostOne<T>(xs: set<T>)
    requires forall x, y :: x in xs && y in xs ==> x == y
    ensures |xs| <= 1
  {
    if x :| x in xs {
      assert xs == {x};
    }
  }

  lemma Associative<T>(a: seq<T>, b: seq<T>, c: seq<T>)
    ensures a + b + c == a + (b + c)
  {
  }
}
