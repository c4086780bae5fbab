/** The optional value used for `File | undefined` and a `FileList | null`. */
module Wrappers {

  datatype Option<+T> = None | Some(value: T)

}
