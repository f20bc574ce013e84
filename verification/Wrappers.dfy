/** Result types and a proof device shared by the other modules. */
module Wrappers {
  datatype Option<+T> = None | Some(value: T)

  datatype Result<+T, +E> = Ok(value: T) | Err(error: E)

  /**
   * A handle: facts stated as `forall token: nat :: Unfold(token) ==> ...` stay folded until a
   * proof mentions `Unfold(0)`.
   */
  predicate Unfold(token: nat) {
    true
  }
}
