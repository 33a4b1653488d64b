/** Optional values and transaction outcomes. */
module Wrappers {

  datatype Option<+T> = None | Some(value: T)

  /** Why a transaction was refused. A refused transaction is rolled back. */
  datatype Error =
    | NotFound   // no such row
    | Conflict   // the durable state does not allow the change
    | Invalid    // malformed arguments or an illegal lifecycle edge
    | NotDue     // a forge event whose deadline has not passed

  datatype Result<+T> = Ok(value: T) | Err(error: Error)
}
