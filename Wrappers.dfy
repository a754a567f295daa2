/** The optional value that Swift writes `T?`: `None` stands for `nil`. */
module Wrappers {

  datatype Option<+T> = None | Some(value: T)

}
