/** An optional value: a field the test objects may leave out, or an argument the caller did not pass. */
module Wrappers {

  datatype Option<+T> = None | Some(value: T)

}
