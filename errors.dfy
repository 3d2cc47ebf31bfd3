/**
 Go error values as the transaction bridge sees them.

 An error made by `errors.New` is a pointer, and the bridge compares errors with
 `==`, that is by identity: two errors with the same text are different errors.
 An `Error` is therefore an object, and a nil error is `null` of type `Error?`.
 */
module Errors {

  class Error {
    const message: string

    constructor (message: string)
      ensures this.message == message
    {
      this.message := message;
    }
  }

  /**
   toWrapperError: the translation of the App Engine library's errors into the
   wrapper API's errors. Which error maps to which is the wrapper's business
   (`toWrapper`); the bridge relies only on nil staying nil and an error staying
   an error.
   */
  function ToWrapperError(toWrapper: Error -> Error, err: Error?): (r: Error?)
    ensures (r == null) == (err == null)
    ensures err != null ==> r == toWrapper(err)
  {
    if err == null then null else toWrapper(err)
  }
}
