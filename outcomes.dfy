/** Option and Result wrappers, and the kinds of failure the AMT client can raise. */
module Outcomes {

  datatype Option<+T> = None | Some(value: T)

  /** Why an operation of the client did not return normally (the Python exception it raises). */
  datatype Error =
    | UnknownProtocol            // KeyError from the protocol-to-port table
    | MissingAttribute(attr: string) // AttributeError on the client object
    | AmtTimeout                 // AMTTimeout: the reachability deadline passed
    | SocketError(errno: int)    // a connect error other than ECONNREFUSED, re-raised
    | TransportError             // requests.post itself failed
    | NotXml                     // the response body is not well-formed XML
    | MissingElement             // no element with the requested qualified name
    | NotAnInteger               // ReturnValue text absent or not a decimal integer

  datatype Result<+T> = Ok(value: T) | Err(error: Error)
}
