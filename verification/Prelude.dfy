/** Options, and the facts about finite sets that the counting arguments share. */
module Prelude {

  datatype Option<+T> = None | Some(value: T)

  /** A subset has no more elements. */
  lemma {:induction false} SubsetSize<T>(a: set<T>, b: set<T>)
    requires a <= b
    ensures |a| <= |b|
  {
    if a != {} {
      var x :| x in a;
      SubsetSize(a - {x}, b - {x});
    }
  }

  /** The image of a finite set has no more elements than the set. */
  lemma {:induction false} ImageSize<S, T>(a: set<S>, b: set<T>, f: S -> T)
    requires forall y :: y in b ==> exists x :: x in a && f(x) == y
    ensures |b| <= |a|
  {
    if b != {} {
      var y :| y in b;
      var x :| x in a && f(x) == y;
      forall z | z in b - {y} ensures exists w :: w in a - {x} && f(w) == z {
        var w :| w in a && f(w) == z;
        assert w in a - {x} && f(w) == z;
      }
      ImageSize(a - {x}, b - {y}, f);
    }
  }

  /** A union has at most as many elements as its parts together. */
  lemma UnionSize<T>(a: set<T>, b: set<T>)
    ensures |a + b| <= |a| + |b|
  {
    assert a + b == a + (b - a);
    SubsetSize(b - a, b);
  }
}
