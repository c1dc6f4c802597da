// Java's nullable references, where the core returns or stores null, become Option values.
module Opcionales {
  datatype Option<+T> = None | Some(value: T)
}
