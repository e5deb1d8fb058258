/** The boundary between the operation wrappers and the SOAP transport.

    The transport itself (envelope encoding, UsernameToken signing, the HTTP
    POST and fault parsing) is not part of this model: a wrapper hands one
    `Exchange` to a caller-supplied transport function, which either fails
    with a `SoapError` or yields the decoded response value. */
module Soap {

  datatype Option<+T> = None | Some(value: T)

  datatype Result<+T, +E> = Ok(value: T) | Err(error: E)

  /** The error classes one SOAP exchange can end in. */
  datatype SoapError =
    | TransportError(message: string)
    | FaultError(code: string, reason: string)
    | DecodeError(message: string)

  /** The error a wrapper returns: `fmt.Errorf("<operation> failed: %w", cause)`. */
  datatype OpError = OperationFailed(operation: string, cause: SoapError)

  /** One call handed to the transport: the target service URL, the snapshot
      of the credentials taken for this call, and the request body. */
  datatype Exchange<Req> = Exchange(endpoint: string, username: string, password: string, request: Req)

  /** The error a void wrapper returns for the transport's outcome. */
  function WrapVoid(operation: string, outcome: Option<SoapError>): (err: Option<OpError>)
    ensures err.None? <==> outcome.None?
    ensures outcome.Some? ==> err.value.operation == operation && err.value.cause == outcome.value
  {
    match outcome
    case None => None
    case Some(e) => Some(OperationFailed(operation, e))
  }

  /** A string field tagged `omitempty`: the element is left out when the value is "". */
  function OmitEmpty(s: string): (r: Option<string>)
    ensures r.Some? <==> s != ""
    ensures r.Some? ==> r.value == s
  {
    if s == "" then None else Some(s)
  }

  /** An integer field tagged `omitempty`: the element is left out when the value is 0. */
  function OmitZero(n: int): (r: Option<int>)
    ensures r.Some? <==> n != 0
    ensures r.Some? ==> r.value == n
  {
    if n == 0 then None else Some(n)
  }

  /** A boolean field tagged `omitempty`: the element is left out when the value is false. */
  function OmitFalse(b: bool): (r: Option<bool>)
    ensures r.Some? <==> b
    ensures r.Some? ==> r.value
  {
    if b then Some(true) else None
  }
}
