/** Failure-compatible result types and the exception classes the
    simple-dataset code raises. A Python `raise` or a failing `assert`
    becomes an `Err` carrying the exception class; messages are not kept. */
module Wrappers {

  /** The exception classes raised (directly or by the runtime) in the core. */
  datatype Error =
    | IndexError           // indexing past the end of a list or string
    | ValueError           // bad int(), wrong number of values to unpack, max() of nothing
    | KeyError             // missing dict key or archive entry
    | AssertionError       // a failing `assert`
    | RuntimeError         // an explicit `raise RuntimeError(...)`
    | NotImplementedError  // a writer that declares export unsupported
    | FileNotFoundError    // opening a file or archive that does not exist
    | BadZipFile           // opening a plain file as an archive
    | ImageError           // the image decoder could not read the bytes
    | OverflowError        // int() of an infinite float

  datatype Option<+T> = None | Some(value: T)

  datatype Result<+T> = Ok(value: T) | Err(error: Error) {
    predicate IsFailure() {
      Err?
    }

    function PropagateFailure<U>(): Result<U>
      requires Err?
    {
      Err(error)
    }

    function Extract(): T
      requires Ok?
    {
      value
    }
  }
}
