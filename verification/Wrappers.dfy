/** Nullable references and exceptions of the source, as values. */
module Wrappers {

  datatype Option<+T> = None | Some(value: T)

  /** A call that returns normally or throws. */
  datatype Result<+T, +E> = Ok(value: T) | Err(error: E)

  /** The Java cast from long to int. */
  function ToInt32(x: int): (r: int)
    ensures -0x8000_0000 <= r < 0x8000_0000
    ensures -0x8000_0000 <= x < 0x8000_0000 ==> r == x
  {
    var low := x % 0x1_0000_0000;
    if low < 0x8000_0000 then low else low - 0x1_0000_0000
  }

  /** What `unique()` returns is the one key the query selects. */
  lemma SingleId(ids: set<nat>, i: nat, found: Option<nat>)
    requires |ids| <= 1 && i in ids && found.Some? && found.value in ids
    ensures found == Some(i)
  {
    assert |ids - {i}| == |ids| - 1;
    assert found.value !in ids - {i};
  }
}
