/** Optional values: Go's nil-able `error` results are modelled as Option<E>,
    with None standing for nil. */
module Wrappers {

  datatype Option<+T> = None | Some(value: T)

}
