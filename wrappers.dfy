/** The optional value used for query parameters that may be absent and for the
    optional date window of a statistics query. */
module Wrappers {

  datatype Option<+T> = None | Some(value: T)

}
