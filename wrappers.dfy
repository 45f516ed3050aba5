// Option and Result values that stand for the null references and the
// exceptions of the original C# code, and the byte type.
module Wrappers {

  datatype Option<T> = None | Some(value: T)

  /** The exceptions the modelled code can raise. */
  datatype Fault =
    | NullReference      // a member accessed through a null reference
    | ArgumentNull       // a null argument the callee checks for
    | InvalidArgument    // an argument a library constructor refuses (font size, colour channel)
    | IndexOutOfRange    // an array or string index outside its bounds
    | MalformedInput     // text the JSON or Base64 reader cannot read as the requested type
    | InvalidCast        // a record cast to a record class it is not an instance of
    | FileNotFound       // a picture file that cannot be loaded

  datatype Result<T> = Ok(value: T) | Err(error: Fault)
  {
    predicate IsOk() { Ok? }
  }

  /** C#'s byte. */
  type Byte = b: int | 0 <= b < 256

  /** The outcome of a statement that produces no value but may throw. */
  datatype Outcome = Success | Failure(error: Fault)
}
