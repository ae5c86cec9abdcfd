/** Machine types and the error outcomes shared by the encoder session and its engine. */
module OpusTypes {

  /** C#'s `int`. */
  newtype int32 = x: int | -0x8000_0000 <= x < 0x8000_0000

  /** C#'s `byte`. */
  newtype byte = x: int | 0 <= x < 0x100

  predicate InInt32(x: int) {
    -0x8000_0000 <= x < 0x8000_0000
  }

  /** The constructor argument that an out-of-range error names. */
  datatype Argument =
    | SamplingRateArgument   // inputSamplingRateHz
    | ChannelsArgument       // numChannels
    | ApplicationArgument    // applicationType
    | DelayArgument          // encoderDelay

  datatype Error =
    | OutOfRange(argument: Argument)  // ArgumentOutOfRangeException
    | AllocFail                       // OpusException with status AllocFail
    | Overflow                        // OverflowException of a checked decimal-to-int conversion
    | InvalidHandle                   // the engine refuses a handle it does not own

  datatype Option<T> = None | Some(value: T)

  datatype Result<T> = Ok(value: T) | Err(error: Error) {
    /** Translates a success value and passes an error through. */
    function Map<U>(f: T -> U): Result<U> {
      match this
      case Ok(v) => Ok(f(v))
      case Err(e) => Err(e)
    }
  }

  datatype Outcome = Pass | Fail(error: Error)
}
