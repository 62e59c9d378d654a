/** Values shared by every part of the upload pipeline. */
module Types {

  datatype Option<+T> = None | Some(value: T)

  datatype Result<+R, +E> = Success(value: R) | Failure(error: E)

  /** A file's bytes; image decoding and encoding are left to the codec. */
  type Content = seq<bv8>

  /** A value drawn by `mt_rand(0, 9)`. */
  type Digit = d: int | 0 <= d <= 9

  /** A scalar argument of an image operation, as written in configuration
      or passed to a chained call. */
  datatype Value = Int(i: int) | Str(s: string) | Nil

  /** The value stored under one key of a profile array: the string kept
      under `type`, or the argument list of an operation. */
  datatype Entry = Text(text: string) | Params(args: seq<Value>)

  /** The exceptions the pipeline throws. */
  datatype Error =
    | InvalidStructure                // template without {name}
    | OutOfDigits                     // the digit oracle ran dry (stands for non-termination)
    | UnsupportedDriver               // disk driver other than local, s3, rackspace
    | StagingFailed                   // the inbound file could not be moved into the scratch directory
    | EditingCopyFailed(path: string) // copy of the staged original for editing failed
    | UnknownProfile(name: string)    // profile name absent from the profile map
    | MissingUpload(field: string)    // request has no file under the field
    | ValidationFailed                // the validator rejected the file
    | MoveFailed                      // the final move of the one-shot pipeline failed

  /** PHP's string interpolation of a nullable string: null becomes "". */
  function OrEmpty(s: Option<string>): string
  {
    if s.Some? then s.value else ""
  }
}
