/** Small shared vocabulary: optional values and joined errors. */
module Base {
  datatype Option<+T> = None | Some(value: T)

  /** An error value: the leaf errors it joins, in join order. The empty
      sequence is Go's nil error, so `errors.Join` is concatenation. */
  type Errors = seq<nat>

  function Join(left: Errors, right: Errors): Errors { left + right }
}
