// Values that may be absent, used wherever the services have a nullable column or pointer.
module Wrappers {
  datatype Option<+T> = None | Some(value: T)
}
