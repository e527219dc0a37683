/** The optional value used wherever the worker's JavaScript sees `undefined`/`null`. */
module Wrappers {

  datatype Option<+T> = None | Some(value: T)
}
