/** What every component shares. */
module Prelude {
  datatype Option<+T> = None | Some(value: T)

  lemma SubsetIsSmaller<T>(a: set<T>, b: set<T>)
    requires a <= b
    ensures |a| <= |b|
  {
    assert b == a + (b - a);
  }
}
