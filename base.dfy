/** Shared wrappers: optional values, the application's error type and results. */
module Base {

  datatype Option<+T> = None | Some(value: T)

  /** An error raised by the backend: the HTTP status it maps to and its message. */
  datatype AppError = AppError(status: int, message: string)

  /** The outcome of an operation that may raise an `AppError`; usable with `:-`. */
  datatype Result<+T> = Ok(value: T) | Err(error: AppError) {
    predicate IsFailure() { Err? }

    function PropagateFailure<U>(): Result<U>
      requires Err?
    {
      Err(error)
    }

    function Extract(): T
      requires Ok?
    {
      value
    }

    /** The HTTP status of a failure; 0 for a success. */
    function Status(): int {
      if Err? then error.status else 0
    }
  }

  const BAD_REQUEST := 400
  const UNAUTHORIZED := 401
  const FORBIDDEN := 403
  const NOT_FOUND := 404
  const CONFLICT := 409
  const UNPROCESSABLE := 422
  const INTERNAL := 500

  const MSG_UNAUTHORIZED := "No autorizado"
  const MSG_INVALID_ID := "Identificador inválido"
  /** The message `errorHandler` answers any error that is not an `AppError` with, under status 500. */
  const MSG_INTERNAL := "Error interno del servidor"

  /** The failure of a query the database refuses, as the error handler answers it. */
  const DB_ERROR := AppError(INTERNAL, MSG_INTERNAL)

  /** A number used as an integer key: the integer, or 500 when the database cannot read it as one. */
  function IntegerKey(x: real): (r: Result<int>)
    ensures r.Ok? <==> x == x.Floor as real
    ensures r.Ok? ==> r.value as real == x
    ensures r.Err? ==> r.error == DB_ERROR
  {
    if x == x.Floor as real then Ok(x.Floor) else Err(DB_ERROR)
  }
}
