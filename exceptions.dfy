/** The exceptions that can leave the gateway client and the provider. */
module Exceptions {
  import opened Wrappers

  datatype Exception =
      /** `payments.PaymentError(message, gateway_message=...)`; `str(e)` is `message`. */
    | PaymentError(message: string, gatewayMessage: Option<string>)
      /** Raised by the field validators before any request is made. */
    | ValueError(message: string)
      /** `.get` applied to a JSON value that is not an object, or a missing attribute in `attrs`. */
    | AttributeError
      /** Subscript of a stored dictionary that lacks the key. */
    | KeyError
      /** Subscript of a stored value that is not a dictionary. */
    | TypeError
}
