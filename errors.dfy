/** The error values of the library: Foundation's leaf `DecodingError`, the
    library's aggregate `DecodingSafeError`, and what a Swift `throw` can carry. */
module Errors {
  import opened Wrappers

  /** The four cases of Foundation's `DecodingError`. */
  datatype ErrorKind = TypeMismatch | ValueNotFound | KeyNotFound | DataCorrupted

  /** A leaf decoding failure. `errorDescription` is Foundation's localized text,
      opaque to the library (it prints it with `?? ""`). */
  datatype DecodingError = DecodingError(kind: ErrorKind, errorDescription: Option<string>)

  /** The aggregate error. Every entry holds a leaf `DecodingError`: no variant
      nests another `DecodingSafeError`. */
  datatype DecodingSafeError =
    | ArrayElementErrors(elementErrors: seq<(int, DecodingError)>)
    | DictionaryErrors(keyErrors: seq<(string, DecodingError)>)
    | StructErrors(typeName: string, reference: Option<string>, errors: seq<(string, DecodingError)>)
  {
    /** `errors.count` of whichever variant this is. */
    function Count(): nat {
      match this
      case ArrayElementErrors(es) => |es|
      case DictionaryErrors(es) => |es|
      case StructErrors(_, _, es) => |es|
    }
  }

  /** A value thrown by a Swift `throw`: a `DecodingError`, a `DecodingSafeError`
      (thrown by a model's `init(from:)`), or any other error type. */
  datatype Thrown =
    | Decoding(decodingError: DecodingError)
    | Aggregated(safeError: DecodingSafeError)
    | Other(message: string)

  /** One call `SafeDecoder.logger?(error, typeName)`. */
  datatype LogEntry = LogEntry(error: Thrown, typeName: string)

  /** The result of a decode together with the logger calls it made on the way. */
  datatype Decoded<+T> = Decoded(result: Result<T, Thrown>, logs: seq<LogEntry>)
}
