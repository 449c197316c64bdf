/** The exceptions the client code raises itself or catches by name. */
module Exceptions {

  datatype Exception =
    | SSLError            // requests.exceptions.SSLError, a subclass of ConnectionError
    | ConnectionError     // requests.exceptions.ConnectionError, other than SSLError
    | AuthorizationError  // raised by the budgeting library on a bad password
    | UnknownFileId       // the budget file id does not exist on the server
    | InvalidFile
    | InvalidZipFile
    | SessionNotValidated // Exception("Session not validated")
    | AccountNotFound(account: string)
    | BudgetNotFound(budget: string)
    | OtherError          // any exception not named above

  /** `except ConnectionError` also catches its subclass `SSLError`. */
  predicate IsConnectionError(e: Exception) {
    e.SSLError? || e.ConnectionError?
  }
}
