/** The optional value used for Swift's `T?` results (`try?`, `Int(String)`, `data(forKey:)`). */
module Wrappers {

  datatype Option<+T> = None | Some(value: T)
}
