/** Regrouping sequences. */
module Sequences {

  lemma Associate<T>(a: seq<T>, b: seq<T>, c: seq<T>)
    ensures a + b + c == a + (b + c)
  {
  }

  lemma AddNone<T>(a: seq<T>)
    ensures a + [] == a
  {
  }

  /** The first element of the second sequence moves to the end of the first. */
  lemma MoveFirst<T>(a: seq<T>, b: seq<T>)
    requires b != []
    ensures a + [b[0]] + b[1..] == a + b
  {
    Associate(a, [b[0]], b[1..]);
    assert [b[0]] + b[1..] == b;
  }
}
