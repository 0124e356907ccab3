/** The optional-value type used for missing cells, missing prices and absent results. */
module Wrappers {

  datatype Option<+T> = None | Some(value: T)

}
