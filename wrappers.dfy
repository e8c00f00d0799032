/** The optional value Python spells `X | None`. */
module Wrappers {

  datatype Option<+T> = None | Some(value: T)

}
