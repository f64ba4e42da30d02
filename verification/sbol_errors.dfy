/** The errors raised by the modelled code, each tagged with its SBOL error code. */
module SbolErrors {

  /** The members of `SBOLErrorCode` that the modelled code raises, plus the
      cardinality and type checks of the property framework. */
  datatype ErrorCode =
    | InvalidArgument
    | NotFound
    | HttpUnauthorized
    | BadHttpRequest
    | CardinalityViolation
    | TypeMismatch

  /** One raised exception. `UrisTypeError` is Python's built-in `TypeError`
      and `RequestFailed` is an exception of the HTTP library; neither carries
      an SBOL error code. */
  datatype Error =
    | TerminalSlashInResource
    | TerminalSlashInSpoofedResource
    | PartNotFound(uri: string)
    | Unauthorized
    | BadRequest(statusCode: int)
    | UrisTypeError(found: string)
    | RequestFailed(reason: string)
    | Cardinality(predicateUri: string, count: nat)
    | WrongChildType(predicateUri: string)

  /** True unless the error is the plain Python `TypeError` or an HTTP library exception. */
  predicate IsSbolError(e: Error) {
    !e.UrisTypeError? && !e.RequestFailed?
  }

  /** The SBOL error code an error is raised with. */
  function Code(e: Error): ErrorCode
    requires IsSbolError(e)
  {
    match e
    case TerminalSlashInResource => InvalidArgument
    case TerminalSlashInSpoofedResource => InvalidArgument
    case PartNotFound(_) => NotFound
    case Unauthorized => HttpUnauthorized
    case BadRequest(_) => BadHttpRequest
    case Cardinality(_, _) => CardinalityViolation
    case WrongChildType(_) => TypeMismatch
  }
}
