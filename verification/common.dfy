/** Shared vocabulary: an optional value (Python's `None` versus a value), a value
    or an error, the part of a device stream the tracks read, and the concatenation
    of a sequence of pieces. */
module Common {

  /** A value that may be absent, as Python's `None`. */
  datatype Option<+T> = None | Some(value: T)

  /** A value or an error, for operations that raise in the source. */
  datatype Result<+T, +E> = Success(value: T) | Failure(error: E)

  /** What the modelled code reads from an open device stream: its channel count. */
  datatype Stream = Stream(channels: nat)

  /** Concatenation of all pieces, in order. */
  function Flatten<T>(pieces: seq<seq<T>>): seq<T>
  {
    if |pieces| == 0 then [] else Flatten(pieces[..|pieces| - 1]) + pieces[|pieces| - 1]
  }
}
