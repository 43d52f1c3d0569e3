# Saferpay payment provider for django-payments — a Dafny model

This project models the core of `django-payments-saferpay`: the client for the
Saferpay JSON API (`Facade`) and the provider that drives one payment through
the gateway's payment-page flow (`SaferpayProvider`).

- **Facade** (`facade.dfy`, module `Facade`). It builds request envelopes.
  Each envelope has a `RequestHeader` with `CustomerId`, the generated
  `RequestId`, `RetryIndicator = 0` and `SpecVersion = "1.45"`. It parses the
  three gateway responses (initialize, assert, capture), checking their fields
  in the source's order with the source's messages. It turns the failures
  of the exchange itself into a `PaymentError`:
  - a send failure gives "Failed to connect";
  - an HTTP error status (400–599, as `raise_for_status` decides) gives the
    message of that call, with `error_message=… error_detail=…` or
    "Failed to parse" as its gateway message;
  - a body with any other status that is not JSON gives "Failed to parse";
  - an echoed `RequestId` that differs from the one sent gives "RequestId
    doesn't match".

  Not every failure is a `PaymentError`. Missing order data is a `ValueError`
  raised before anything is sent. A `ResponseHeader` or `Transaction` that is
  present but not a JSON object makes `.get` raise an `AttributeError`, which
  no `except` clause catches.

  The three calls `PaymentInitialize`, `PaymentAssert` and
  `TransactionCapture` are methods. Each is specified by a function
  (`InitializeOutcome`, `AssertOutcome`, `CaptureOutcome`), and lemmas state
  what the source promises about those functions.
- **Provider** (`provider.dfy`, module `Provider`). `GetForm` and `ProcessData`
  update a `Payments.Payment` record in place. The record holds the
  transaction id, status, message, captured amount and the `attrs` dictionary
  of stored gateway responses. Each method is tied to a step function
  (`GetFormStep`, `ProcessDataStep`) over a value snapshot of the record, and
  the lemmas about these functions state the lifecycle properties:
  - get_form is idempotent once a transaction id is stored;
  - process_data does not short-circuit on the current status;
  - the transitions on CANCELED, CAPTURED, AUTHORIZED and other statuses;
  - the captured amount is only ever set to the total.
- **Json** (`json.dfy`): JSON values with Python's truthiness, `dict.get` with
  a default, and `.get` on a non-dictionary raising `AttributeError`. It also
  has `str`/`repr` as used in the error messages.
- **Exceptions**, **Payments**, **Wrappers**: the exceptions that can leave a
  call, the django-payments record and its `PaymentStatus`, and `Option`/`Result`.

The network is a parameter: `Server = (url, payload) -> Reply`, where a reply
is either no response (the send failed) or a status code with a body that is
a JSON object or undecodable text. Each call's request id is a parameter too.

Behaviour of the code worth noting:
- A successful `get_form` leaves the status unchanged: it only stores the
  initialize response and the token. An initialize `PaymentError` sets ERROR.
- `process_data` computes redirects for CONFIRMED, REJECTED and ERROR payments,
  discards them, and asserts again.
- The provider never sets `PREAUTH`. A capture whose status is not exactly
  `"CAPTURED"` leaves status and captured amount unchanged, and still
  redirects to the success URL.
- `PENDING` and unknown assert statuses return no redirect.
- Validation failures are `ValueError`s that leave the status unchanged.
- The initialize parser checks only that `Token` and `RedirectUrl` are present,
  not that they are non-empty. An empty token is stored as the transaction id,
  so a later `get_form` initializes again.
- Capture HTTP errors reuse "Failed to assert payment at SaferPay".
- The provider's `sandbox` setting defaults to true, selecting the test endpoint.

## Model

| member | source | states |
|---|---|---|
| `Facade.ParseInitialize` | django_payments_saferpay/facade.py:43-68 | A malformed header raises AttributeError. A missing or empty RequestId (including an absent ResponseHeader) raises "Missing RequestId" before any other field is read. Otherwise it fails with "Invalid response" unless both Token and RedirectUrl keys are present. It succeeds exactly then, copying the header id, Token and RedirectUrl unchanged. |
| `Facade.ParseAssert` | django_payments_saferpay/facade.py:84-118 | RequestId is checked first, then a non-empty Transaction.Id (an absent Transaction counts as a missing Id; a Transaction that is not an object raises AttributeError), then a non-empty Transaction.Status. It succeeds exactly when all three are present. The result holds those values and CaptureId, which defaults to "". |
| `Facade.ParseCapture` | django_payments_saferpay/facade.py:132-154 | Only RequestId is required. It succeeds exactly when it is present. The status is the body's Status, or "" when Status is absent. |
| `Facade.ParseCaptureIgnoresOtherFields` | django_payments_saferpay/facade.py:143-154 | Bodies that agree on ResponseHeader and Status parse to the same capture result, so extra fields are ignored. |
| `Facade.ParseErrorResponse` | django_payments_saferpay/facade.py:472-489 | No response gives "No response received from SaferPay". An undecodable error body gives "Failed to parse the response from SaferPay". |
| `Facade.GatewayMessageOfErrorBody` | django_payments_saferpay/facade.py:479-485 | For a JSON error body the message is `error_message='<ErrorMessage or Unknown Error>' error_detail='<ErrorDetail or Unknown Detail>'`. |
| `Facade.CardDeclinedReply` | django_payments_saferpay/facade.py:231-242 | For any call, a 400 reply with ErrorMessage "Card declined" and ErrorDetail "insufficient funds" raises PaymentError with the call's message and gateway message `error_message='Card declined' error_detail='insufficient funds'`. |
| `Facade.OnlyEchoedBodiesAreParsed` | django_payments_saferpay/facade.py:219-229 | A reply reaches the parser exactly when it is a non-error JSON response whose header RequestId equals the id sent. Any other reply fails, and its outcome does not depend on the parser. |
| `Facade.MismatchIsPaymentError` | django_payments_saferpay/facade.py:223-227 | A JSON body with a non-error status (outside 400–599) whose echoed RequestId differs from the id sent raises PaymentError "SaferPay response RequestId doesn't match our request". |
| `Facade.FailureClassification` | django_payments_saferpay/facade.py:231-253 | No response gives "Failed to connect to SaferPay" with the reason. An HTTP error status gives the call's message with the error-body text, or "Failed to parse" if the body is not JSON. An undecodable body with a non-error status gives "Failed to parse the response from SaferPay" with "Invalid JSON response". |
| `Facade.Post` | django_payments_saferpay/facade.py:214-256 | The try block of a call, step by step, equals the classification function. A success implies the reply echoed the request id. |
| `Facade.ValidateInitializeFields` | django_payments_saferpay/facade.py:458-465 | It passes exactly when currency, total and description are all non-empty or non-zero. Otherwise it raises the ValueError for the first missing field, checked in the order currency, total, description. |
| `Facade.ValidateAssertFields` | django_payments_saferpay/facade.py:467-470 | It raises the ValueError "no transaction ID" exactly when the transaction id is falsy. |
| `Facade.Facade.constructor` | django_payments_saferpay/facade.py:170-185 | It stores the identifiers. The base URL is the test endpoint in sandbox mode and the production endpoint otherwise. |
| `Facade.Facade.RequestHeader` | django_payments_saferpay/facade.py:385-391 | The header has exactly the keys CustomerId, RequestId (the given id), RetryIndicator 0 and SpecVersion "1.45". |
| `Facade.Facade.InitializePayload` | django_payments_saferpay/facade.py:393-427 | The initialize payload has exactly the keys RequestHeader (for the given id), Payment (currency code, amount in minor units, description, and the payment's pk as OrderId), ReturnUrl, Notification (the failure and success URLs) and TerminalId. |
| `Facade.Facade.AssertPayload` | django_payments_saferpay/facade.py:429-440 | The assert payload is exactly the request header and Token, which is the payment's transaction id. |
| `Facade.Facade.CapturePayload` | django_payments_saferpay/facade.py:442-456 | The capture payload is exactly the request header and TransactionReference.TransactionId. |
| `Facade.Facade.PaymentInitialize` | django_payments_saferpay/facade.py:193-256 | The result equals InitializeOutcome. A payment with a transaction id raises "already processed". A success carries the generated request id. |
| `Facade.Facade.PaymentAssert` | django_payments_saferpay/facade.py:258-326 | The result equals AssertOutcome. A payment without a transaction id raises "already processed". A success carries the generated request id and a non-empty transaction id. |
| `Facade.Facade.TransactionCapture` | django_payments_saferpay/facade.py:328-380 | The result equals CaptureOutcome. A success carries the generated request id. |
| `Facade.InitializeRefusesProcessedPayment` | django_payments_saferpay/facade.py:197-198 | With a transaction id set, initialize raises "This payment has already been processed" whatever the request id and the gateway, so no request is made. |
| `Facade.InitializeValidatesBeforeSending` | django_payments_saferpay/facade.py:200-201 | A validation failure is a ValueError that does not depend on the request id or the gateway, so no request is sent. |
| `Facade.AssertRefusesMissingTransaction` | django_payments_saferpay/facade.py:269-273 | Without a transaction id, assert raises "already processed" and makes no request. Assert never raises ValueError. |
| `Facade.InitializeSuccess` | django_payments_saferpay/facade.py:214-229 | A successful initialize means there was no transaction id and the reply to the initialize payload echoed the id sent. The result is that id with the reply's Token and RedirectUrl. |
| `Facade.AssertSuccess` | django_payments_saferpay/facade.py:284-299 | A successful assert means the reply echoed the id sent. The result is the parsed body, with a non-empty transaction id and status. |
| `Facade.HttpErrorMessages` | django_payments_saferpay/facade.py:355-366 | HTTP error replies give "Failed to create payment" for initialize (facade.py:231-242), and "Failed to assert payment" for assert (facade.py:301-312) and for capture (facade.py:355-366). In each case the gateway message is the error-body text. |
| `Json.StrReprOfPlainText` | django_payments_saferpay/facade.py:481-485 | The `repr` used by `f"{v=}"` of text without quotes, backslashes or control characters is that text in single quotes. |
| `Json.EscapeOfPlainText` | django_payments_saferpay/facade.py:484 | Escaping leaves plain text unchanged. |
| `Payments.Payment.ChangeStatus` | django_payments_saferpay/provider.py:68 | `change_status` sets the status and the message, and nothing else. |
| `Provider.SaferpayProvider.constructor` | django_payments_saferpay/provider.py:18-27 | The provider's facade is built from the credentials and the sandbox flag. The flag defaults to true, which selects the test endpoint. |
| `Provider.SaferpayProvider.GetForm` | django_payments_saferpay/provider.py:102-129 | The new record and the outcome equal GetFormStep of the old record. A payment with a transaction id is left unchanged. The captured amount never changes. |
| `Provider.SaferpayProvider.ProcessData` | django_payments_saferpay/provider.py:38-100 | The new record and the outcome equal ProcessDataStep of the old record. The transaction id never changes. |
| `Provider.GetFormStoresInitializeResponse` | django_payments_saferpay/provider.py:109-129 | With no transaction id and a successful initialize, the response dict is stored in attrs, transaction_id becomes the token, and the redirect goes to that response's redirect_url. |
| `Provider.GetFormWithTransactionIsPure` | django_payments_saferpay/provider.py:109-129 | With a transaction id set, get_form calls nothing and changes nothing. It redirects to the stored redirect_url. |
| `Provider.GetFormIsIdempotent` | django_payments_saferpay/provider.py:109-129 | Once a call leaves a non-empty transaction id, calling again yields the same record and the same redirect. |
| `Provider.GetFormInitializeFailure` | django_payments_saferpay/provider.py:112-119 | An initialize PaymentError sets status ERROR with its message and is re-raised, with transaction id and attrs unchanged. Other exceptions leave the record untouched. There is no redirect. |
| `Provider.GetFormValidationErrorEscapes` | django_payments_saferpay/provider.py:112-119 | A payment that fails validation gets a ValueError from get_form, and its record is unchanged. |
| `Provider.ProcessDataWithoutTransaction` | django_payments_saferpay/provider.py:46 | Without a transaction id, process_data changes nothing and returns no redirect. |
| `Provider.ProcessDataIgnoresCurrentStatus` | django_payments_saferpay/provider.py:46-57 | The current status (CONFIRMED, REJECTED, ERROR or any other) changes neither the outcome nor any other field of the result. The discarded redirects do not short-circuit. |
| `Provider.ProcessDataAssertFailure` | django_payments_saferpay/provider.py:52-57 | An assert failure is re-raised. A PaymentError first sets status ERROR with its message. Other exceptions leave the record untouched. |
| `Provider.ProcessDataAfterAssert` | django_payments_saferpay/provider.py:58-100 | After a successful assert, its dict is stored. CANCELED then gives REJECTED and the failure URL. CAPTURED gives captured_amount = total, CONFIRMED and the success URL. Any status other than CANCELED, CAPTURED and AUTHORIZED (PENDING included) leaves the rest unchanged and returns no redirect. |
| `Provider.ProcessDataAuthorized` | django_payments_saferpay/provider.py:77-100 | AUTHORIZED captures the asserted transaction. A failed capture is recorded and re-raised. Otherwise the capture dict is stored and the redirect goes to the success URL. Only a capture status of exactly "CAPTURED" confirms the payment and sets captured_amount = total; any other status leaves status, message and captured amount unchanged. |
| `Provider.ProcessDataFrame` | django_payments_saferpay/provider.py:38-100 | process_data never changes the transaction id. The captured amount is unchanged or equal to the total. The status is unchanged or becomes ERROR, REJECTED or CONFIRMED, and entering CONFIRMED sets captured amount = total. Other attrs entries are kept. |
| `Provider.ProcessDataSuccessRedirect` | django_payments_saferpay/provider.py:64-100 | The success redirect happens exactly when assert reports CAPTURED, or reports AUTHORIZED and the capture call succeeds. |

## Left out

- HTTP transport (`requests.Session`, `post`, `raise_for_status`): replaced by the `Server` function and the `Reply` datatype. `raise_for_status` is modelled as status 400–599.
- User-Agent and Basic-auth headers set on the session: this is library and credential formatting. The credentials are stored but not used.
- `_generate_request_id` (uuid4): the request id of each call is a parameter, so uniqueness across calls is not modelled.
- Amount encoding `int(float(str(total)) * 100)`: floating point. It is the abstract function `toMinorUnits` given to the facade, and no exact minor-unit conversion is claimed.
- The `str(e)` branch of the HTTP-error handler: it is unreachable because a response always exists there, so it is not modelled.
- Top-level bodies that are JSON but not objects (which would raise `AttributeError` at `.get`), and JSON floating-point numbers: not modelled.
- `repr` of lists and dicts inside error messages is abbreviated to `[...]`/`{...}`, and `repr` does not model `\x`/`\u` escapes of non-printable characters.
- GatewayMessageOfErrorBody: states the gateway message only for plain-text ErrorMessage/ErrorDetail values, because `repr` of other values is only partly modelled.
- Django persistence: `update_payment`, `payment.save()` and the JSON round trip of `attrs` through `extra_data` (assumed lossless) are not modelled. The record's fields are updated in memory.
- `change_status` internals (saving, the `status_changed` signal): modelled as setting status and message.
- `get_return_url`, `get_success_url` and `get_failure_url`: fixed fields of the payment.
- A `None` total: not modelled, because the total is a non-nullable decimal field. `not total` is modelled as `total == 0`.
- The `data` argument of `get_form` and the `request` argument of `process_data`: neither is used by the source.
- `gettext` wrappers (messages are plain strings) and `logger` calls.
- `capture` and `refund`: both are `pass` in the source.
- Concurrent `process_data` calls on the same payment: the source does no locking, and the model is sequential.
