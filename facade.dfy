/**
 * The Saferpay gateway client: request envelopes, response parsers, error
 * classification, and the three gateway calls (initialize, assert, capture).
 */
module Facade {
  import opened Wrappers
  import opened Exceptions
  import opened Json
  import opened Payments

  const SpecVersion := "1.45"
  const SandboxBaseUrl := "https://test.saferpay.com/api/Payment/v1"
  const ProductionBaseUrl := "https://www.saferpay.com/api/Payment/v1"
  const InitializePath := "/PaymentPage/Initialize"
  const AssertPath := "/PaymentPage/Assert"
  const CapturePath := "/Transaction/Capture"

  /** Gateway transaction statuses. */
  const TransactionAuthorized := "AUTHORIZED"
  const TransactionCanceled := "CANCELED"
  const TransactionCaptured := "CAPTURED"
  const TransactionPending := "PENDING"

  const MissingRequestId := "Missing RequestId in SaferPay response"
  const InvalidResponse := "Invalid response from SaferPay"
  const MissingTransactionId := "Missing Transaction.Id in SaferPay response"
  const MissingTransactionStatus := "Missing Transaction.Status in SaferPay response"
  const AlreadyProcessed := "This payment has already been processed"
  const RequestIdMismatch := "SaferPay response RequestId doesn't match our request"
  const CreateFailed := "Failed to create payment at SaferPay"
  const AssertFailed := "Failed to assert payment at SaferPay"
  const ParseFailed := "Failed to parse the response from SaferPay"
  const InvalidJson := "Invalid JSON response"
  const ConnectFailed := "Failed to connect to SaferPay"
  const NoResponseReceived := "No response received from SaferPay"
  const NoCurrency := "The payment has no currency, but it is required"
  const NoTotal := "The payment has no total amount, but it is required"
  const NoDescription := "The payment has no description, but it is required"
  const NoTransactionId := "The payment has no transaction ID, but it is required"

  /** A body as `response.json()` sees it: a JSON object, or text it cannot decode. */
  datatype Body = JsonBody(fields: map<string, Json>) | NotJson

  /** What posting a request yields: no response at all (the send failed), or a status code and a body. */
  datatype Reply = NoResponse(reason: string) | Response(statusCode: int, body: Body)

  /** The gateway as seen by the client: the reply to a payload posted to a URL. */
  type Server = (string, Json) -> Reply

  /** `raise_for_status()` raises for client and server error codes. */
  predicate IsHttpError(code: int) {
    400 <= code < 600
  }

  datatype InitializeResponse = InitializeResponse(requestId: Json, token: Json, redirectUrl: Json) {
    function ToDict(): Json {
      JObj(map["request_id" := requestId, "token" := token, "redirect_url" := redirectUrl])
    }
  }

  datatype AssertResponse = AssertResponse(requestId: Json, transactionId: Json, transactionStatus: Json, captureId: Json) {
    function ToDict(): Json {
      JObj(map["request_id" := requestId, "transaction_id" := transactionId,
               "transaction_status" := transactionStatus, "capture_id" := captureId])
    }
  }

  datatype CaptureResponse = CaptureResponse(requestId: Json, status: Json) {
    function ToDict(): Json {
      JObj(map["request_id" := requestId, "status" := status])
    }
  }

  // ---------------------------------------------------------------------
  // Response parsers
  // ---------------------------------------------------------------------

  /** `data.get("ResponseHeader", {}).get("RequestId", default)`. */
  function HeaderRequestId(data: map<string, Json>, default: Json): Result<Json, Exception> {
    Get(DictGet(data, "ResponseHeader", EmptyObject), "RequestId", default)
  }

  /** A `ResponseHeader` that is present but not an object: `.get` on it raises. */
  predicate HeaderMalformed(data: map<string, Json>) {
    "ResponseHeader" in data && !data["ResponseHeader"].JObj?
  }

  /** The response header carries a non-empty `RequestId`. */
  predicate RequestIdPresent(data: map<string, Json>) {
    var rid := HeaderRequestId(data, JStr(""));
    rid.Success? && Truthy(rid.value)
  }

  /** `data.get("Transaction", {}).get(key, "")`. */
  function TransactionField(data: map<string, Json>, key: string): Result<Json, Exception> {
    Get(DictGet(data, "Transaction", EmptyObject), key, JStr(""))
  }

  /** `SaferpayPaymentInitializeResponse.from_api_response`. */
  function ParseInitialize(data: map<string, Json>): (r: Result<InitializeResponse, Exception>)
    ensures HeaderMalformed(data) ==> r == Failure(AttributeError)
    ensures !HeaderMalformed(data) && !RequestIdPresent(data) ==> r == Failure(PaymentError(MissingRequestId, None))
    ensures RequestIdPresent(data) && !("Token" in data && "RedirectUrl" in data) ==>
              r == Failure(PaymentError(InvalidResponse, None))
    ensures r.Success? <==> RequestIdPresent(data) && "Token" in data && "RedirectUrl" in data
    ensures r.Success? ==>
              && r.value.requestId == HeaderRequestId(data, JStr("")).value
              && r.value.token == data["Token"]
              && r.value.redirectUrl == data["RedirectUrl"]
  {
    var requestId :- HeaderRequestId(data, JStr(""));
    if !Truthy(requestId) then
      Failure(PaymentError(MissingRequestId, None))
    else if !("Token" in data && "RedirectUrl" in data) then
      Failure(PaymentError(InvalidResponse, None))
    else
      Success(InitializeResponse(requestId, data["Token"], data["RedirectUrl"]))
  }

  /** `SaferpayPaymentAssertResponse.from_api_response`. */
  function ParseAssert(data: map<string, Json>): (r: Result<AssertResponse, Exception>)
    ensures HeaderMalformed(data) ==> r == Failure(AttributeError)
    ensures !HeaderMalformed(data) && !RequestIdPresent(data) ==> r == Failure(PaymentError(MissingRequestId, None))
    ensures RequestIdPresent(data) && TransactionField(data, "Id").Success? && !Truthy(TransactionField(data, "Id").value) ==>
              r == Failure(PaymentError(MissingTransactionId, None))
    ensures RequestIdPresent(data) && "Transaction" !in data ==> r == Failure(PaymentError(MissingTransactionId, None))
    ensures RequestIdPresent(data) && "Transaction" in data && !data["Transaction"].JObj? ==> r == Failure(AttributeError)
    ensures RequestIdPresent(data) && TransactionField(data, "Id").Success? && Truthy(TransactionField(data, "Id").value)
            && !Truthy(TransactionField(data, "Status").value) ==>
              r == Failure(PaymentError(MissingTransactionStatus, None))
    ensures r.Success? <==> RequestIdPresent(data) && TransactionField(data, "Id").Success?
                            && Truthy(TransactionField(data, "Id").value) && Truthy(TransactionField(data, "Status").value)
    ensures r.Success? ==> r.value == AssertResponse(HeaderRequestId(data, JStr("")).value,
                                                     TransactionField(data, "Id").value,
                                                     TransactionField(data, "Status").value,
                                                     TransactionField(data, "CaptureId").value)
  {
    var requestId :- HeaderRequestId(data, JStr(""));
    if !Truthy(requestId) then
      Failure(PaymentError(MissingRequestId, None))
    else
      var transaction := DictGet(data, "Transaction", EmptyObject);
      if !transaction.JObj? then
        Failure(AttributeError)
      else
        var transactionId := DictGet(transaction.fields, "Id", JStr(""));
        if !Truthy(transactionId) then
          Failure(PaymentError(MissingTransactionId, None))
        else
          var transactionStatus := DictGet(transaction.fields, "Status", JStr(""));
          if !Truthy(transactionStatus) then
            Failure(PaymentError(MissingTransactionStatus, None))
          else
            var captureId := DictGet(transaction.fields, "CaptureId", JStr(""));
            Success(AssertResponse(requestId, transactionId, transactionStatus, captureId))
  }

  /** `SaferpayTransactionCaptureResponse.from_api_response`. */
  function ParseCapture(data: map<string, Json>): (r: Result<CaptureResponse, Exception>)
    ensures HeaderMalformed(data) ==> r == Failure(AttributeError)
    ensures !HeaderMalformed(data) && !RequestIdPresent(data) ==> r == Failure(PaymentError(MissingRequestId, None))
    ensures r.Success? <==> RequestIdPresent(data)
    ensures r.Success? ==> r.value.requestId == HeaderRequestId(data, JStr("")).value
    ensures r.Success? && "Status" in data ==> r.value.status == data["Status"]
    ensures r.Success? && "Status" !in data ==> r.value.status == JStr("")
  {
    var requestId :- HeaderRequestId(data, JStr(""));
    if !Truthy(requestId) then
      Failure(PaymentError(MissingRequestId, None))
    else
      Success(CaptureResponse(requestId, DictGet(data, "Status", JStr(""))))
  }

  /** Fields other than the header and `Status` never change what the capture parser returns. */
  lemma ParseCaptureIgnoresOtherFields(data: map<string, Json>, other: map<string, Json>)
    requires ("ResponseHeader" in data <==> "ResponseHeader" in other)
    requires "ResponseHeader" in data ==> data["ResponseHeader"] == other["ResponseHeader"]
    requires ("Status" in data <==> "Status" in other)
    requires "Status" in data ==> data["Status"] == other["Status"]
    ensures ParseCapture(data) == ParseCapture(other)
  {
  }

  // ---------------------------------------------------------------------
  // Error classification
  // ---------------------------------------------------------------------

  /** `_parse_error_response`: the `message` of the dictionary it returns. */
  function ParseErrorResponse(response: Option<Body>): (message: string)
    ensures response == None ==> message == NoResponseReceived
    ensures response == Some(NotJson) ==> message == ParseFailed
  {
    match response
    case None => NoResponseReceived
    case Some(NotJson) => ParseFailed
    case Some(JsonBody(m)) =>
      "error_message=" + PyRepr(DictGet(m, "ErrorMessage", JStr("Unknown Error")))
      + " error_detail=" + PyRepr(DictGet(m, "ErrorDetail", JStr("Unknown Detail")))
  }

  /** `repr` of `m.get(key, default)` when that value is plain text. */
  lemma QuotedField(m: map<string, Json>, key: string, default: string, text: string)
    requires if key in m then m[key] == JStr(text) else default == text
    requires PlainText(text)
    ensures PyRepr(DictGet(m, key, JStr(default))) == "'" + text + "'"
  {
    assert DictGet(m, key, JStr(default)) == JStr(text);
    StrReprOfPlainText(text);
  }

  lemma ConcatQuoted(message: string, detail: string)
    ensures "error_message=" + ("'" + message + "'") + " error_detail=" + ("'" + detail + "'")
            == "error_message='" + message + "' error_detail='" + detail + "'"
  {
    var e, q, d := "error_message=", "'", " error_detail=";
    assert e + q == "error_message='";
    assert q + d + q == "' error_detail='";
    calc {
      e + (q + message + q) + d + (q + detail + q);
      (e + q) + message + (q + d + q) + detail + q;
    }
  }

  /** For plain-text `ErrorMessage`/`ErrorDetail` (or absent ones) the gateway message quotes both. */
  lemma GatewayMessageOfErrorBody(m: map<string, Json>, message: string, detail: string)
    requires if "ErrorMessage" in m then m["ErrorMessage"] == JStr(message) else message == "Unknown Error"
    requires if "ErrorDetail" in m then m["ErrorDetail"] == JStr(detail) else detail == "Unknown Detail"
    requires PlainText(message) && PlainText(detail)
    ensures ParseErrorResponse(Some(JsonBody(m))) == "error_message='" + message + "' error_detail='" + detail + "'"
  {
    QuotedField(m, "ErrorMessage", "Unknown Error", message);
    QuotedField(m, "ErrorDetail", "Unknown Detail", detail);
    ConcatQuoted(message, detail);
  }

  /** The reply is a non-error response whose JSON header echoes exactly `requestId`. */
  predicate Echoes(reply: Reply, requestId: string) {
    && reply.Response?
    && !IsHttpError(reply.statusCode)
    && reply.body.JsonBody?
    && HeaderRequestId(reply.body.fields, JNull) == Success(JStr(requestId))
  }

  /**
   * What the `try` block of a gateway call and its `except` clauses make of a
   * reply: a parsed result, or the exception that leaves the call.
   */
  function CallOutcome<T>(reply: Reply, requestId: string, parse: map<string, Json> -> Result<T, Exception>,
                          httpFailure: string): Result<T, Exception>
  {
    match reply
    case NoResponse(reason) =>
      Failure(PaymentError(ConnectFailed, Some(reason)))
    case Response(code, body) =>
      if IsHttpError(code) then
        Failure(PaymentError(httpFailure, Some(ParseErrorResponse(Some(body)))))
      else
        match body
        case NotJson => Failure(PaymentError(ParseFailed, Some(InvalidJson)))
        case JsonBody(data) =>
          var echoed :- HeaderRequestId(data, JNull);
          if echoed != JStr(requestId) then
            Failure(PaymentError(RequestIdMismatch, Some("Expected " + requestId + ", got " + PyStr(echoed))))
          else
            parse(data)
  }

  /**
   * Correlation: only a body that echoes the request id is handed to the
   * parser; any other reply fails, whatever the parser would have said.
   */
  lemma OnlyEchoedBodiesAreParsed<T>(reply: Reply, requestId: string, parse: map<string, Json> -> Result<T, Exception>,
                                     other: map<string, Json> -> Result<T, Exception>, httpFailure: string)
    ensures Echoes(reply, requestId) ==> CallOutcome(reply, requestId, parse, httpFailure) == parse(reply.body.fields)
    ensures !Echoes(reply, requestId) ==>
              && CallOutcome(reply, requestId, parse, httpFailure).Failure?
              && CallOutcome(reply, requestId, parse, httpFailure) == CallOutcome(reply, requestId, other, httpFailure)
  {
  }

  /** A JSON body with a non-error status (outside 400-599) whose header holds another request id is reported as a mismatch. */
  lemma MismatchIsPaymentError<T>(code: int, data: map<string, Json>, requestId: string,
                                  parse: map<string, Json> -> Result<T, Exception>, httpFailure: string)
    requires !IsHttpError(code) && !HeaderMalformed(data)
    requires HeaderRequestId(data, JNull) != Success(JStr(requestId))
    ensures CallOutcome(Response(code, JsonBody(data)), requestId, parse, httpFailure).Failure?
    ensures CallOutcome(Response(code, JsonBody(data)), requestId, parse, httpFailure).error.PaymentError?
    ensures CallOutcome(Response(code, JsonBody(data)), requestId, parse, httpFailure).error.message == RequestIdMismatch
  {
  }

  /** How failures are classified, uniformly for every call. */
  lemma FailureClassification<T>(reply: Reply, requestId: string, parse: map<string, Json> -> Result<T, Exception>,
                                 httpFailure: string)
    ensures reply.NoResponse? ==>
              CallOutcome(reply, requestId, parse, httpFailure) == Failure(PaymentError(ConnectFailed, Some(reply.reason)))
    ensures reply.Response? && IsHttpError(reply.statusCode) && reply.body.NotJson? ==>
              CallOutcome(reply, requestId, parse, httpFailure) == Failure(PaymentError(httpFailure, Some(ParseFailed)))
    ensures reply.Response? && IsHttpError(reply.statusCode) && reply.body.JsonBody? ==>
              CallOutcome(reply, requestId, parse, httpFailure)
              == Failure(PaymentError(httpFailure, Some(ParseErrorResponse(Some(reply.body)))))
    ensures reply.Response? && !IsHttpError(reply.statusCode) && reply.body.NotJson? ==>
              CallOutcome(reply, requestId, parse, httpFailure) == Failure(PaymentError(ParseFailed, Some(InvalidJson)))
  {
  }

  /** The `try` block shared by the three gateway calls, step by step. */
  method Post<T>(url: string, payload: Json, requestId: string, parse: map<string, Json> -> Result<T, Exception>,
                 httpFailure: string, server: Server) returns (r: Result<T, Exception>)
    ensures r == CallOutcome(server(url, payload), requestId, parse, httpFailure)
    ensures r.Success? ==> Echoes(server(url, payload), requestId)
  {
    var response := server(url, payload);
    if response.NoResponse? {
      return Failure(PaymentError(ConnectFailed, Some(response.reason)));
    }
    if IsHttpError(response.statusCode) {
      var errorMessage := ParseErrorResponse(Some(response.body));
      return Failure(PaymentError(httpFailure, Some(errorMessage)));
    }
    if response.body.NotJson? {
      return Failure(PaymentError(ParseFailed, Some(InvalidJson)));
    }
    var paymentData := response.body.fields;
    var responseHeader := DictGet(paymentData, "ResponseHeader", EmptyObject);
    if !responseHeader.JObj? {
      return Failure(AttributeError);
    }
    var responseRequestId := DictGet(responseHeader.fields, "RequestId", JNull);
    if responseRequestId != JStr(requestId) {
      return Failure(PaymentError(RequestIdMismatch, Some("Expected " + requestId + ", got " + PyStr(responseRequestId))));
    }
    r := parse(paymentData);
  }

  // ---------------------------------------------------------------------
  // Validators
  // ---------------------------------------------------------------------

  /** `_validate_payment_initialize_fields`: currency, then total, then description. */
  function ValidateInitializeFields(payment: Payment): (raised: Option<Exception>)
    ensures raised == None <==> payment.currency != "" && payment.total != 0.0 && payment.description != ""
    ensures raised != None ==> raised.value.ValueError?
    ensures payment.currency == "" ==> raised == Some(ValueError(NoCurrency))
    ensures payment.currency != "" && payment.total == 0.0 ==> raised == Some(ValueError(NoTotal))
    ensures payment.currency != "" && payment.total != 0.0 && payment.description == "" ==>
              raised == Some(ValueError(NoDescription))
  {
    if payment.currency == "" then Some(ValueError(NoCurrency))
    else if payment.total == 0.0 then Some(ValueError(NoTotal))
    else if payment.description == "" then Some(ValueError(NoDescription))
    else None
  }

  /** `_validate_payment_assert_fields`. */
  function ValidateAssertFields(transactionId: Json): (raised: Option<Exception>)
    ensures raised != None <==> !Truthy(transactionId)
    ensures raised != None ==> raised.value == ValueError(NoTransactionId)
  {
    if !Truthy(transactionId) then Some(ValueError(NoTransactionId)) else None
  }

  // ---------------------------------------------------------------------
  // The client
  // ---------------------------------------------------------------------

  class Facade {
    const customerId: string
    const terminalId: string
    const authUsername: string
    const authPassword: string
    const baseUrl: string
    /** `int(float(str(total)) * 100)`, a floating-point conversion the model does not interpret. */
    const toMinorUnits: real -> int

    constructor(customerId: string, terminalId: string, authUsername: string, authPassword: string,
                sandbox: bool, toMinorUnits: real -> int)
      ensures this.customerId == customerId && this.terminalId == terminalId
      ensures this.authUsername == authUsername && this.authPassword == authPassword
      ensures baseUrl == if sandbox then SandboxBaseUrl else ProductionBaseUrl
      ensures this.toMinorUnits == toMinorUnits
    {
      this.customerId := customerId;
      this.terminalId := terminalId;
      this.authUsername := authUsername;
      this.authPassword := authPassword;
      this.toMinorUnits := toMinorUnits;
      if sandbox {
        baseUrl := SandboxBaseUrl;
      } else {
        baseUrl := ProductionBaseUrl;
      }
    }

    /** `_generate_payment_request_header`. */
    function RequestHeader(requestId: string): (header: Json)
      ensures header.JObj? && header.fields.Keys == {"CustomerId", "RequestId", "RetryIndicator", "SpecVersion"}
      ensures header.fields["CustomerId"] == JStr(customerId) && header.fields["RequestId"] == JStr(requestId)
      ensures header.fields["RetryIndicator"] == JInt(0) && header.fields["SpecVersion"] == JStr(SpecVersion)
    {
      JObj(map["CustomerId" := JStr(customerId), "RequestId" := JStr(requestId),
               "RetryIndicator" := JInt(0), "SpecVersion" := JStr(SpecVersion)])
    }

    /** `_generate_payment_initialize_payload`. */
    function InitializePayload(payment: Payment, returnUrl: string, requestId: string): (payload: Json)
      ensures payload.JObj? && payload.fields.Keys == {"RequestHeader", "Payment", "ReturnUrl", "Notification", "TerminalId"}
      ensures payload.fields["RequestHeader"] == RequestHeader(requestId)
      ensures payload.fields["ReturnUrl"] == JObj(map["Url" := JStr(returnUrl)])
      ensures payload.fields["TerminalId"] == JStr(terminalId)
      ensures payload.fields["Payment"]
              == JObj(map["Amount" := JObj(map["CurrencyCode" := JStr(payment.currency),
                                               "Value" := JInt(toMinorUnits(payment.total))]),
                          "Description" := JStr(payment.description),
                          "OrderId" := JInt(payment.pk)])
      ensures payload.fields["Notification"]
              == JObj(map["FailNotifyUrl" := JStr(payment.failureUrl), "SuccessNotifyUrl" := JStr(payment.successUrl)])
    {
      JObj(map[
        "RequestHeader" := RequestHeader(requestId),
        "Payment" := JObj(map[
          "Amount" := JObj(map["CurrencyCode" := JStr(payment.currency),
                               "Value" := JInt(toMinorUnits(payment.total))]),
          "Description" := JStr(payment.description),
          "OrderId" := JInt(payment.pk)]),
        "ReturnUrl" := JObj(map["Url" := JStr(returnUrl)]),
        "Notification" := JObj(map["FailNotifyUrl" := JStr(payment.failureUrl),
                                   "SuccessNotifyUrl" := JStr(payment.successUrl)]),
        "TerminalId" := JStr(terminalId)])
    }

    /** `_generate_payment_assert_payload`: the token is the payment's transaction id. */
    function AssertPayload(transactionId: Json, requestId: string): (payload: Json)
      ensures payload.JObj? && payload.fields.Keys == {"RequestHeader", "Token"}
      ensures payload.fields["RequestHeader"] == RequestHeader(requestId)
      ensures payload.fields["Token"] == transactionId
    {
      JObj(map["RequestHeader" := RequestHeader(requestId), "Token" := transactionId])
    }

    /** `_generate_transaction_capture_payload`. */
    function CapturePayload(transactionId: Json, requestId: string): (payload: Json)
      ensures payload.JObj? && payload.fields.Keys == {"RequestHeader", "TransactionReference"}
      ensures payload.fields["RequestHeader"] == RequestHeader(requestId)
      ensures payload.fields["TransactionReference"] == JObj(map["TransactionId" := transactionId])
    {
      JObj(map["RequestHeader" := RequestHeader(requestId),
               "TransactionReference" := JObj(map["TransactionId" := transactionId])])
    }

    /** What `payment_initialize` returns or raises for a payment whose transaction id is `transactionId`. */
    function InitializeOutcome(payment: Payment, transactionId: Json, returnUrl: string, requestId: string,
                               server: Server): Result<InitializeResponse, Exception>
    {
      if Truthy(transactionId) then
        Failure(PaymentError(AlreadyProcessed, None))
      else
        match ValidateInitializeFields(payment)
        case Some(e) => Failure(e)
        case None =>
          CallOutcome(server(baseUrl + InitializePath, InitializePayload(payment, returnUrl, requestId)),
                      requestId, ParseInitialize, CreateFailed)
    }

    /** What `payment_assert` returns or raises. */
    function AssertOutcome(transactionId: Json, requestId: string, server: Server): Result<AssertResponse, Exception>
    {
      if !Truthy(transactionId) then
        Failure(PaymentError(AlreadyProcessed, None))
      else
        match ValidateAssertFields(transactionId)
        case Some(e) => Failure(e)
        case None =>
          CallOutcome(server(baseUrl + AssertPath, AssertPayload(transactionId, requestId)),
                      requestId, ParseAssert, AssertFailed)
    }

    /** What `transaction_capture` returns or raises. */
    function CaptureOutcome(transactionId: Json, requestId: string, server: Server): Result<CaptureResponse, Exception>
    {
      CallOutcome(server(baseUrl + CapturePath, CapturePayload(transactionId, requestId)),
                  requestId, ParseCapture, AssertFailed)
    }

    /** `payment_initialize`. */
    method PaymentInitialize(payment: Payment, returnUrl: string, requestId: string, server: Server)
      returns (r: Result<InitializeResponse, Exception>)
      ensures r == InitializeOutcome(payment, payment.transactionId, returnUrl, requestId, server)
      ensures Truthy(payment.transactionId) ==> r == Failure(PaymentError(AlreadyProcessed, None))
      ensures r.Success? ==> r.value.requestId == JStr(requestId)
    {
      if Truthy(payment.transactionId) {
        return Failure(PaymentError(AlreadyProcessed, None));
      }
      match ValidateInitializeFields(payment) {
        case Some(e) => return Failure(e);
        case None =>
      }
      var payload := InitializePayload(payment, returnUrl, requestId);
      r := Post(baseUrl + InitializePath, payload, requestId, ParseInitialize, CreateFailed, server);
    }

    /** `payment_assert`. */
    method PaymentAssert(payment: Payment, requestId: string, server: Server)
      returns (r: Result<AssertResponse, Exception>)
      ensures r == AssertOutcome(payment.transactionId, requestId, server)
      ensures !Truthy(payment.transactionId) ==> r == Failure(PaymentError(AlreadyProcessed, None))
      ensures r.Success? ==> r.value.requestId == JStr(requestId) && Truthy(r.value.transactionId)
    {
      if !Truthy(payment.transactionId) {
        return Failure(PaymentError(AlreadyProcessed, None));
      }
      match ValidateAssertFields(payment.transactionId) {
        case Some(e) => return Failure(e);
        case None =>
      }
      var payload := AssertPayload(payment.transactionId, requestId);
      r := Post(baseUrl + AssertPath, payload, requestId, ParseAssert, AssertFailed, server);
    }

    /** `transaction_capture`. */
    method TransactionCapture(payment: Payment, transactionId: Json, requestId: string, server: Server)
      returns (r: Result<CaptureResponse, Exception>)
      ensures r == CaptureOutcome(transactionId, requestId, server)
      ensures r.Success? ==> r.value.requestId == JStr(requestId)
    {
      var payload := CapturePayload(transactionId, requestId);
      r := Post(baseUrl + CapturePath, payload, requestId, ParseCapture, AssertFailed, server);
    }
  }

  // ---------------------------------------------------------------------
  // Properties of the gateway calls
  // ---------------------------------------------------------------------

  /**
   * A payment that already has a transaction id is refused before validation,
   * request-id generation or any request: the outcome depends on neither.
   */
  lemma InitializeRefusesProcessedPayment(facade: Facade, payment: Payment, transactionId: Json, returnUrl: string,
                                          requestId: string, server: Server, otherId: string, other: Server)
    requires Truthy(transactionId)
    ensures facade.InitializeOutcome(payment, transactionId, returnUrl, requestId, server)
            == facade.InitializeOutcome(payment, transactionId, returnUrl, otherId, other)
            == Failure(PaymentError(AlreadyProcessed, None))
  {
  }

  /** Validation errors are `ValueError`s raised before any request: the server is never consulted. */
  lemma InitializeValidatesBeforeSending(facade: Facade, payment: Payment, transactionId: Json, returnUrl: string,
                                         requestId: string, server: Server, otherId: string, other: Server)
    requires !Truthy(transactionId) && ValidateInitializeFields(payment).Some?
    ensures facade.InitializeOutcome(payment, transactionId, returnUrl, requestId, server)
            == facade.InitializeOutcome(payment, transactionId, returnUrl, otherId, other)
    ensures facade.InitializeOutcome(payment, transactionId, returnUrl, requestId, server).error.ValueError?
  {
  }

  /** `payment_assert` without a transaction id raises "already processed" and sends nothing; it never raises a `ValueError`. */
  lemma AssertRefusesMissingTransaction(facade: Facade, transactionId: Json, requestId: string, server: Server,
                                        otherId: string, other: Server)
    ensures !Truthy(transactionId) ==>
              facade.AssertOutcome(transactionId, requestId, server)
              == facade.AssertOutcome(transactionId, otherId, other)
              == Failure(PaymentError(AlreadyProcessed, None))
    ensures !(facade.AssertOutcome(transactionId, requestId, server).Failure?
              && facade.AssertOutcome(transactionId, requestId, server).error.ValueError?)
  {
  }

  /**
   * A successful initialize comes from a non-error JSON reply to the initialize
   * payload that echoes the generated request id and carries `Token` and
   * `RedirectUrl`, copied unchanged.
   */
  lemma InitializeSuccess(facade: Facade, payment: Payment, transactionId: Json, returnUrl: string,
                          requestId: string, server: Server)
    requires facade.InitializeOutcome(payment, transactionId, returnUrl, requestId, server).Success?
    ensures var reply := server(facade.baseUrl + InitializePath, facade.InitializePayload(payment, returnUrl, requestId));
            var r := facade.InitializeOutcome(payment, transactionId, returnUrl, requestId, server).value;
            && !Truthy(transactionId)
            && Echoes(reply, requestId)
            && "Token" in reply.body.fields && "RedirectUrl" in reply.body.fields
            && r == InitializeResponse(JStr(requestId), reply.body.fields["Token"], reply.body.fields["RedirectUrl"])
  {
    var reply := server(facade.baseUrl + InitializePath, facade.InitializePayload(payment, returnUrl, requestId));
    OnlyEchoedBodiesAreParsed(reply, requestId, ParseInitialize, ParseInitialize, CreateFailed);
  }

  /** A successful assert echoes the request id and reports a non-empty transaction id and status. */
  lemma AssertSuccess(facade: Facade, transactionId: Json, requestId: string, server: Server)
    requires facade.AssertOutcome(transactionId, requestId, server).Success?
    ensures var reply := server(facade.baseUrl + AssertPath, facade.AssertPayload(transactionId, requestId));
            var r := facade.AssertOutcome(transactionId, requestId, server).value;
            && Truthy(transactionId)
            && Echoes(reply, requestId)
            && r.requestId == JStr(requestId) && Truthy(r.transactionId) && Truthy(r.transactionStatus)
            && r == ParseAssert(reply.body.fields).value
  {
    var reply := server(facade.baseUrl + AssertPath, facade.AssertPayload(transactionId, requestId));
    OnlyEchoedBodiesAreParsed(reply, requestId, ParseAssert, ParseAssert, AssertFailed);
  }

  predicate IsHttpErrorReply(reply: Reply) {
    reply.Response? && IsHttpError(reply.statusCode)
  }

  /** Each call reports an HTTP error status with its own message; capture reuses the assert message. */
  lemma HttpErrorMessages(facade: Facade, payment: Payment, returnUrl: string, transactionId: Json,
                          requestId: string, server: Server)
    ensures && IsHttpErrorReply(server(facade.baseUrl + InitializePath, facade.InitializePayload(payment, returnUrl, requestId)))
            && !Truthy(payment.transactionId) && ValidateInitializeFields(payment).None? ==>
              facade.InitializeOutcome(payment, payment.transactionId, returnUrl, requestId, server)
              == Failure(PaymentError(CreateFailed, Some(ParseErrorResponse(Some(
                   server(facade.baseUrl + InitializePath, facade.InitializePayload(payment, returnUrl, requestId)).body)))))
    ensures IsHttpErrorReply(server(facade.baseUrl + AssertPath, facade.AssertPayload(transactionId, requestId)))
            && Truthy(transactionId) ==>
              facade.AssertOutcome(transactionId, requestId, server)
              == Failure(PaymentError(AssertFailed, Some(ParseErrorResponse(Some(
                   server(facade.baseUrl + AssertPath, facade.AssertPayload(transactionId, requestId)).body)))))
    ensures IsHttpErrorReply(server(facade.baseUrl + CapturePath, facade.CapturePayload(transactionId, requestId))) ==>
              facade.CaptureOutcome(transactionId, requestId, server)
              == Failure(PaymentError(AssertFailed, Some(ParseErrorResponse(Some(
                   server(facade.baseUrl + CapturePath, facade.CapturePayload(transactionId, requestId)).body)))))
  {
  }

  /** A 400 reply `{ErrorMessage: "Card declined", ErrorDetail: "insufficient funds"}` to any call. */
  lemma CardDeclinedReply<T>(requestId: string, parse: map<string, Json> -> Result<T, Exception>, httpFailure: string)
    ensures var body := map["ErrorMessage" := JStr("Card declined"), "ErrorDetail" := JStr("insufficient funds")];
            CallOutcome(Response(400, JsonBody(body)), requestId, parse, httpFailure)
            == Failure(PaymentError(httpFailure, Some("error_message='" + "Card declined" + "' error_detail='" + "insufficient funds" + "'")))
  {
    var body := map["ErrorMessage" := JStr("Card declined"), "ErrorDetail" := JStr("insufficient funds")];
    assert PlainText("Card declined") && PlainText("insufficient funds");
    GatewayMessageOfErrorBody(body, "Card declined", "insufficient funds");
  }
}
