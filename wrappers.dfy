/** Option and Result values for the error paths of the model. */
module Wrappers {

  datatype Option<T> = None | Some(value: T)

  datatype Result<T, E> = Ok(value: T) | Err(error: E)
}

/** Dense real tensors of rank two, as nested sequences (rows first). */
module Tensors {

  type Matrix = seq<seq<real>>

  /** Every row of `x` has exactly `cols` columns. */
  predicate Shaped(x: Matrix, cols: nat)
  {
    forall i :: 0 <= i < |x| ==> |x[i]| == cols
  }
}
