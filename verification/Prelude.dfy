/** Shared by every module. */
module Prelude {
  const MAX_INT: nat := 0x7FFF_FFFF_FFFF_FFFF
  const MAX_EPOCH: nat := 0xFFFF_FFFF_FFFF_FFFF

  datatype Option<+T> = None | Some(value: T)

  lemma SubsetSize<T>(a: set<T>, b: set<T>)
    requires a <= b
    ensures |a| <= |b|
  {
    assert b == a + (b - a);
  }
}
