/** The exceptions that reach Python through the Manager binding (openassetio::errors). */
module Errors {

  /** Message raised when a batch of traits data holds a None element. */
  const kTraitsDataCannotBeNone: string := "Traits data cannot be None"

  datatype Exception =
      /** errors::InputValidationException, raised by the binding itself. */
    | InputValidationException(message: string)
      /** Any exception raised inside the Manager; passed through unchanged. */
    | ManagerException(message: string)
}
