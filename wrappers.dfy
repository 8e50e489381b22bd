/** The C++ std::optional results of the program, as a Dafny datatype. */
module Wrappers {

  /** std::optional<T>: None stands for std::nullopt (or a null pointer). */
  datatype Option<+T> = None | Some(value: T)
}
