/** Option: the null-or-value shape of the program, written as a
    datatype. */
module Wrappers {

  /** A value that may be null (a configuration lookup, `Console.ReadLine`,
      a streamed chunk's text). */
  datatype Option<+T> = None | Some(value: T) {

    /** The C# `??` operator: the value, or `default` when it is null. */
    function GetOr(default: T): T
    {
      match this
      case Some(v) => v
      case None => default
    }
  }
}
