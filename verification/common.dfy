/** Constants, plugin type tags and the error taxonomy shared by every module.
    The Python exceptions the core raises become values of `Error`; an operation
    that may raise returns a `Result`. */
module Common {

  /** Largest frame the virtual camera is fed (720p). */
  const MaxWidth: nat := 1280
  const MaxHeight: nat := 720

  /** Plugin and device family tags. */
  const Webcam: string := "webcam"
  const Depthai: string := "depthai"

  datatype Option<+T> = None | Some(value: T)

  datatype Result<+T> = Ok(value: T) | Err(error: Error)

  /** The Python exceptions raised on the paths that are modelled. */
  datatype Error =
    | AssertionError      // a device path that does not look like /dev/videoN or does not exist
    | IndexError          // a list index out of range (`[0]` on an empty findall, `args[i + 1]`)
    | ValueError          // int() of a non-number, a plugin without a type in the runner
    | NotImplementedError // an unknown device family, a plugin type of None
    | LookupError         // a capture requested before a real device was selected
    | RuntimeError        // a frame grab that failed
    | AttributeError      // `.value` on something that is not an enum member
    | InvalidArgumentError // malformed extra arguments, a plugin of the wrong family

  /** Python truthiness of an optional string: None and "" are false. */
  predicate Truthy(s: Option<string>)
  {
    s.Some? && s.value != ""
  }
}
