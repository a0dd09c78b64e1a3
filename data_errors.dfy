/** What the city-data function can throw. `exceptions/CityException` is sealed and permits
    exactly the two final classes `DisabledCityException` and `ResourceNotFoundException`, so
    a city exception is one of three constructors; every constructor keeps its message as
    given. The remaining kinds are the throwables of the validators, the repository and
    `Enum.valueOf`. */
module DataErrors {

  /** `CityException` and its two permitted subclasses. */
  datatype CityException =
    | PlainCityException(message: string)
    | DisabledCity(message: string)
    | ResourceNotFound(message: string)

  /** A throwable reaching the data function's error handler, by kind. */
  datatype Failure =
    | Validation(message: string)          // jakarta `ValidationException`
    | CityError(exception: CityException)
    | Runtime(message: string)             // the `RuntimeException` wrapping a `DynamoDbException`,
                                           // or any other unchecked exception of the client
    | IllegalArgument(message: string)     // `Enum.valueOf` on an unknown name
    | NullPointer(message: string)         // `Enum.valueOf` on null
  {
    /** `Throwable.getMessage()`. */
    function Message(): string {
      if CityError? then exception.message else message
    }
  }
}
