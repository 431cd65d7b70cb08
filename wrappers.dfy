/** Optional values, standing for Java's nullable references and for
    operations that either yield a value or throw. */
module Wrappers {

  datatype Option<+T> = None | Some(value: T)
}
