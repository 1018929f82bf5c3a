/** Optional values and the replies of the coordinator's operations. */
module Options {
  datatype Option<+T> = None | Some(value: T)

  /** What a transaction tells its caller.  Everything but `Ok` rolls the transaction back:
      a fenced lease, a rejected argument, an unmet activation gate, or a broken constraint. */
  datatype Reply<+T> = Ok(value: T) | LostLease | Invalid | Rejected | Conflict
}
