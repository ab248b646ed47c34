/** Values shared by every part of the model: optional values, the error taxonomy of
    the registration service, and results that carry either a value or an error. */
module Base {

  datatype Option<T> = None | Some(value: T)

  /** Python exceptions that are not part of the application's own error hierarchy.
      No `except` clause of the modelled code catches them, so they always reach the caller. */
  datatype PyException =
    | TypeError          // e.g. `str.replace` called with None, `None['key']`
    | KeyError           // a JSON reply without the expected key
    | ValueError         // an address or number that does not parse, a bad tuple unpacking
    | IndexError         // `split(...)[1]` on a string without the separator
    | JsonDecodeError    // a 200 reply whose body is not JSON
    | ValidationError    // a stored value that does not fit the response model
    | PyMongo(err: MongoError)  // a store error the caller does not map
    | SystemExit         // `sys.exit(1)` after a fatal configuration error

  /** The store driver's exceptions (`pymongo.errors`). */
  datatype MongoError = ConnectionFailure | DuplicateKeyError | OperationFailure

  datatype Error =
    // shared by both generations
    | DuplicateResource
    | ResourceNotFound
    | SessionCredentialError       // the request carries no valid user session or credential
    | PermError                    // the user lacks the permission asked for
    | AAError                      // any other refusal of the authorization gate
    // current generation
    | BackendError                 // store connection failure, or a backend reply other than 200
    | HostNumRangeExceeded(maxRange: nat)
    // legacy generation
    | MongoConnError
    | ForemanConnError
    | BackEndError                 // "could not create instance in backend"
    | InvalidName
    | InvalidSelectors
    | InvalidFields
    | InvalidParameterValue
    | InvalidPaginationLimit
    | InvalidSortCriteria
    // outside the hierarchy
    | RequestValidation            // FastAPI refuses a query parameter (status 422) before the handler runs
    | Uncaught(exc: PyException)

  /** The legacy `ModelError` family (catweazle/errors.py): the errors a failed
      authorization and the store raise. */
  predicate IsModelError(e: Error) {
    e.DuplicateResource? || e.ResourceNotFound? || e.SessionCredentialError? || e.PermError?
  }

  /** The legacy `BaseError` family: everything the application itself raises. */
  predicate IsBaseError(e: Error) {
    !e.Uncaught?
  }

  datatype Result<T> = Ok(value: T) | Err(error: Error)

  /** The outcome of a step that returns nothing. */
  datatype Outcome = Pass | Fail(error: Error)
}
