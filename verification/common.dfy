/** Result types shared by the models. */
module Common {
  datatype Option<+T> = None | Some(value: T)

  datatype Result<+T, +E> = Ok(value: T) | Err(error: E)

  /** Number and timestamp of a block, which is what an execution sees of its header. */
  datatype BlockInfo = BlockInfo(number: nat, timestamp: nat)
}
