/**
 * The SOAP payload builders the client calls. Their envelopes are not modelled:
 * a payload is the name of the builder together with the arguments it was given.
 */
module Wsman {

  datatype Payload =
    | GetRequest(uri: string, resource: string)
    | PowerStateRequest(uri: string, state: string)
    | ChangeBootOrderRequest(uri: string, device: string)
    | EnableBootConfigRequest(uri: string)
    | EnableRemoteKvm(uri: string, password: string)
    | KvmRedirect(uri: string)
}
