/** The exceptions the core throws or catches, by kind. Messages and stack traces are not modelled. */
module Exceptions {

  /** Why a client threw NodeProcessException. */
  datatype Cause =
    | WaitInterrupted  // InterruptedException while waiting for the response
    | BodyUnreadable   // IOException while reading the response body as JSON

  /** Why PingAuthorizeService wrapped a failure into PingAuthorizeServiceException. */
  datatype ServiceCause = MalformedHeader | ServiceInterrupted | ServiceIo

  datatype Thrown =
    | NullPointer                                // a member used on null, or a switch on a null string
    | JsonValueError                             // asString, required or asList on a value of the wrong shape
    | IllegalArgument                            // URI.create on text that is not a URI
    | NodeProcess(cause: Cause)                  // NodeProcessException from a client
    | ServiceRejected(status: int, body: string) // PingAuthorizeServiceException for a status other than 200/201
    | ServiceFailure(reason: ServiceCause)       // PingAuthorizeServiceException wrapping a caught exception
}
