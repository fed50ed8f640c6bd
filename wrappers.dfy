/** An optional value, used for a header that may be absent and for the optional
    MIME type of an attachment. */
module Wrappers {

  datatype Option<+T> = None | Some(value: T)
}
