/** Small shared datatypes. */
module Prelude {

  datatype Option<+T> = None | Some(value: T)

  // Names a pair of positions, for quantifiers over all pairs.
  predicate Before(i: int, j: int) { i < j }
}
