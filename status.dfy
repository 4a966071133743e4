/** The part of gRPC's `codes` and `status` packages that the authorization layer relies on:
    an error is either a status error carrying a code and a description, or a plain Go error. */
module Status {

  /** The non-OK gRPC status codes. (`status.Error` with code OK yields a nil error, so a
      non-nil status error never carries OK.) */
  datatype Code =
    | Canceled | Unknown | InvalidArgument | DeadlineExceeded | NotFound | AlreadyExists
    | PermissionDenied | ResourceExhausted | FailedPrecondition | Aborted | OutOfRange
    | Unimplemented | Internal | Unavailable | DataLoss | Unauthenticated

  /** The name `codes.Code.String()` gives a code. */
  function CodeName(c: Code): string
  {
    match c
    case Canceled => "Canceled"
    case Unknown => "Unknown"
    case InvalidArgument => "InvalidArgument"
    case DeadlineExceeded => "DeadlineExceeded"
    case NotFound => "NotFound"
    case AlreadyExists => "AlreadyExists"
    case PermissionDenied => "PermissionDenied"
    case ResourceExhausted => "ResourceExhausted"
    case FailedPrecondition => "FailedPrecondition"
    case Aborted => "Aborted"
    case OutOfRange => "OutOfRange"
    case Unimplemented => "Unimplemented"
    case Internal => "Internal"
    case Unavailable => "Unavailable"
    case DataLoss => "DataLoss"
    case Unauthenticated => "Unauthenticated"
  }

  /** A Go error value. `status.FromError` reports ok exactly for `StatusError`. */
  datatype Error = StatusError(code: Code, desc: string) | PlainError(text: string)

  /** What `err.Error()` prints, i.e. what `%v` inserts into a format string. */
  function Text(e: Error): string
  {
    match e
    case StatusError(c, d) => "rpc error: code = " + CodeName(c) + " desc = " + d
    case PlainError(t) => t
  }

  /** `status.Errorf(code, prefix + "%v", cause)`: a status error whose description ends
      with the cause's text. */
  function Wrap(code: Code, prefix: string, cause: Error): (r: Error)
    ensures r.StatusError? && r.code == code
    ensures |r.desc| == |prefix| + |Text(cause)| && r.desc[|prefix|..] == Text(cause)
  {
    StatusError(code, prefix + Text(cause))
  }
}
