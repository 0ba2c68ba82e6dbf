/** Option and Result datatypes for the error paths of the resource. Ruby
    raises KeyError from Hash#fetch and from the missing-message-source guard,
    Errno::ENOENT or TypeError from File.read, ArgumentError from File.join
    and File.read on a path holding a NUL character, NoMethodError when
    `gsub` is called on a message that is not a String, and whatever the
    webhook handler raises when a delivery fails (the handler's response
    function chooses which of these errors stands for it). */
module Outcomes {

  datatype Option<+T> = None | Some(value: T)

  /** The exceptions the core raises. */
  datatype Error =
    | KeyError(message: string)
    | FileNotFound(path: string)
    | TypeError(message: string)
    | ArgumentError(message: string)
    | NoMethodError(name: string)

  datatype Result<+T> = Success(value: T) | Failure(error: Error)
}
