/**
 * The payment record of django-payments as the Saferpay provider sees it:
 * the fixed order data, and the fields the provider updates in place.
 */
module Payments {
  import opened Json

  /** django-payments' `PaymentStatus`. The Saferpay provider never sets `Preauth`. */
  datatype PaymentStatus = Waiting | Preauth | Confirmed | Rejected | Refunded | Error | Input

  /** The mutable part of a payment, as a value. `attrs` is the JSON dictionary behind `payment.attrs`. */
  datatype Record = Record(
    transactionId: Json,
    status: PaymentStatus,
    message: string,
    capturedAmount: real,
    attrs: map<string, Json>)

  class Payment {
    const pk: int
    const currency: string
    const total: real
    const description: string
    /** What `get_return_url`, `get_success_url` and `get_failure_url` return for this payment. */
    const returnUrl: string
    const successUrl: string
    const failureUrl: string

    var transactionId: Json
    var status: PaymentStatus
    var message: string
    var capturedAmount: real
    var attrs: map<string, Json>

    /** A freshly created payment, with django-payments' field defaults. */
    constructor(pk: int, currency: string, total: real, description: string,
                returnUrl: string, successUrl: string, failureUrl: string)
      ensures this.pk == pk && this.currency == currency && this.total == total
      ensures this.description == description && this.returnUrl == returnUrl
      ensures this.successUrl == successUrl && this.failureUrl == failureUrl
      ensures Snapshot() == Record(JStr(""), Waiting, "", 0.0, map[])
    {
      this.pk, this.currency, this.total, this.description := pk, currency, total, description;
      this.returnUrl, this.successUrl, this.failureUrl := returnUrl, successUrl, failureUrl;
      transactionId, status, message, capturedAmount, attrs := JStr(""), Waiting, "", 0.0, map[];
    }

    function Snapshot(): Record
      reads this
    {
      Record(transactionId, status, message, capturedAmount, attrs)
    }

    /** `change_status(status, message="")`: sets the status and the message, nothing else. */
    method ChangeStatus(status: PaymentStatus, message: string)
      modifies this
      ensures Snapshot() == old(Snapshot()).(status := status, message := message)
    {
      this.status := status;
      this.message := message;
    }
  }
}
