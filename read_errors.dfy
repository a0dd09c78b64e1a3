/** The error kinds the city-read function raises and the two tables that turn them into a
    `FunctionResponse`: `utils/ExceptionHandlerUtil.handleException` (a switch with a default
    case) and `handlers/GlobalExceptionHandler` (one handler per kind, no catch-all). */
module ReadErrors {
  import opened Common

  /** Error codes of the shared library's `ErrorCode` enum used by this function. */
  datatype ErrorCode = INTERNAL_001 | INTERNAL_002

  /** A thrown error, by kind. The library exceptions are told apart by simple class name;
      `Other` is any throwable none of the handlers names (for example an
      `IllegalArgumentException` from `Enum.valueOf`). */
  datatype ReadError =
    | Parsing(message: string)
    | Validation(message: string, requestId: Option<string>)
    | InactiveCity(message: string, requestId: Option<string>)
    | ResourceNotFound(message: string)
    | City(message: string, code: Option<ErrorCode>, requestId: Option<string>)
    | Other(message: string)

  /** HTTP status codes used by the handlers. */
  const Ok200 := 200
  const NotAcceptable := 406
  const InternalServerError := 500

  const UnexpectedErrorMessage := "Unexpected error occurred"

  /** `FunctionResponse`: a status code with either a body (success) or an error message. */
  datatype FunctionResponse<T> = FunctionResponse(statusCode: int, body: Option<T>, errorMessage: Option<string>)

  /** `FunctionResponse.success`. */
  function Success<T>(body: T): FunctionResponse<T> {
    FunctionResponse(Ok200, Some(body), None)
  }

  /** `FunctionResponse.error`. */
  function Error<T>(statusCode: int, message: string): FunctionResponse<T> {
    FunctionResponse(statusCode, None, Some(message))
  }

  /** The kinds both tables treat as the caller's fault. */
  predicate IsClientError(e: ReadError) {
    e.Parsing? || e.Validation? || e.InactiveCity? || e.ResourceNotFound?
  }

  /** 2xx status codes. */
  predicate IsSuccessful(statusCode: int) {
    200 <= statusCode <= 299
  }

  /** `ExceptionHandlerUtil.handleException`: client kinds give 406 with the error's message,
      a `CityException` gives 500 with its message, anything else 500 with a fixed message. */
  function HandleException<T>(e: ReadError): (r: FunctionResponse<T>)
    ensures r.body.None? && !IsSuccessful(r.statusCode)
    ensures r.statusCode == NotAcceptable <==> IsClientError(e)
    ensures r.statusCode == InternalServerError <==> !IsClientError(e)
    ensures r.errorMessage == Some(if e.Other? then UnexpectedErrorMessage else e.message)
  {
    match e
    case Parsing(m) => Error(NotAcceptable, m)
    case Validation(m, _) => Error(NotAcceptable, m)
    case InactiveCity(m, _) => Error(NotAcceptable, m)
    case ResourceNotFound(m) => Error(NotAcceptable, m)
    case City(m, _, _) => Error(InternalServerError, m)
    case Other(_) => Error(InternalServerError, UnexpectedErrorMessage)
  }

  /** `GlobalExceptionHandler`: the handler for the error's kind, or nothing when no handler
      is declared for it. */
  function HandleGlobally<T>(e: ReadError): (r: Option<FunctionResponse<T>>)
    ensures r.None? <==> e.Other?
    ensures r.Some? ==> r.value.body.None? && r.value.errorMessage == Some(e.message)
    ensures r.Some? ==> (r.value.statusCode == NotAcceptable <==> IsClientError(e))
    ensures r.Some? ==> (r.value.statusCode == InternalServerError <==> e.City?)
  {
    match e
    case Parsing(m) => Some(Error(NotAcceptable, m))
    case Validation(m, _) => Some(Error(NotAcceptable, m))
    case ResourceNotFound(m) => Some(Error(NotAcceptable, m))
    case InactiveCity(m, _) => Some(Error(NotAcceptable, m))
    case City(m, _, _) => Some(Error(InternalServerError, m))
    case Other(_) => None
  }

  /** The two tables agree on every kind the global handler covers. */
  lemma HandlersAgree<T>(e: ReadError)
    ensures HandleGlobally<T>(e).Some? ==> HandleGlobally<T>(e).value == HandleException<T>(e)
  {
  }
}
