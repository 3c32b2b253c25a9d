/** Optional values and two-outcome results, used wherever the service
    treats "absent" (undefined/null) or a thrown error as a value. */
module Wrappers {

  datatype Option<+T> = None | Some(value: T)

  datatype Result<+R, +E> = Success(value: R) | Failure(error: E)
}
