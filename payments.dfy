/** The values the payment gateway passes around: the request a caller hands in,
    the response the remote service sends back, and the error record a failed
    call is inspected as. */
module Payments {

  datatype Option<T> = None | Some(value: T)

  /** What a call produces: a value, or the error it was rejected with. */
  datatype Result<T, E> = Ok(value: T) | Err(error: E)

  /** A payment as the caller submits it; the gateway never looks inside. */
  datatype PaymentRequest = PaymentRequest(
    amount: real,
    currency: string,
    customerId: string,
    orderId: string,
    metadata: Option<map<string, string>>)

  datatype PaymentStatus = Success | Pending | Failed

  /** The remote service's answer, passed through unchanged on success. */
  datatype PaymentResponse = PaymentResponse(
    transactionId: string,
    status: PaymentStatus,
    message: Option<string>)

  /** The `response` part of a failed HTTP call. A status of 0 stands for a
      missing status: both are falsy where the gateway tests for one. */
  datatype HttpResponse = HttpResponse(status: int, statusText: string)

  /** Whatever a failed call throws, seen through the fields the gateway reads:
      whether it is an HTTP-client error, its `code`, its `response`, whether a
      request went out, and whether it is an `Error` instance at all. */
  datatype Fault = Fault(
    isAxios: bool,
    code: Option<string>,
    response: Option<HttpResponse>,
    hasRequest: bool,
    isErrorInstance: bool,
    message: string)

  /** The code an HTTP client reports when its own timeout fired. */
  const ConnectionAborted: string := "ECONNABORTED"

  /** The error the circuit breaker throws when it rejects a call outright. */
  const CircuitOpenFault: Fault :=
    Fault(false, None, None, false, true, "Circuit breaker is OPEN - service unavailable")

  /** The error the retry loop throws if it ends without any attempt. */
  const FallbackFault: Fault :=
    Fault(false, None, None, false, true, "Payment processing failed")

  /** The outcome of one transport call. */
  type Attempt = Result<PaymentResponse, Fault>
}
