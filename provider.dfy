/**
 * The Saferpay provider for django-payments: `get_form` starts a payment and
 * sends the payer to the gateway; `process_data` handles the payer's return.
 * Both update the payment record in place.
 */
module Provider {
  import opened Wrappers
  import opened Exceptions
  import opened Json
  import opened Payments
  import opened Facade

  /** Keys under which the gateway responses are stored in `payment.attrs`. */
  const InitializeKey := "saferpay_initialize_response"
  const AssertKey := "saferpay_assert_response"
  const CaptureKey := "saferpay_capture_response"

  /** How a provider call ends: a redirect (`RedirectNeeded`, or a returned `redirect`), nothing, or an exception. */
  datatype Outcome = Redirect(target: Json) | NoRedirect | Raised(error: Exception)

  /** The record after a call, and how the call ended. */
  datatype Step = Step(record: Record, outcome: Outcome)

  /** `RedirectNeeded(payment.attrs.saferpay_initialize_response["redirect_url"])`. */
  function StoredRedirect(attrs: map<string, Json>): Outcome {
    if InitializeKey !in attrs then Raised(AttributeError)
    else
      match attrs[InitializeKey]
      case JObj(stored) => if "redirect_url" in stored then Redirect(stored["redirect_url"]) else Raised(KeyError)
      case _ => Raised(TypeError)
  }

  /** `except PaymentError as pe: payment.change_status(ERROR, str(pe))`; other exceptions pass untouched. */
  function RecordFailure(s: Record, e: Exception): Record {
    if e.PaymentError? then s.(status := Error, message := e.message) else s
  }

  /** What `get_form` does to a payment whose mutable state is `s`. */
  function GetFormStep(facade: Facade, p: Payment, s: Record, requestId: string, server: Server): Step {
    if !Truthy(s.transactionId) then
      match facade.InitializeOutcome(p, s.transactionId, p.returnUrl, requestId, server)
      case Failure(e) => Step(RecordFailure(s, e), Raised(e))
      case Success(initialized) =>
        var stored := s.(attrs := s.attrs[InitializeKey := initialized.ToDict()],
                         transactionId := initialized.token);
        Step(stored, StoredRedirect(stored.attrs))
    else
      Step(s, StoredRedirect(s.attrs))
  }

  /** The record after a successful capture: confirmed only when the capture status is exactly "CAPTURED". */
  function AfterCapture(p: Payment, s: Record, captured: CaptureResponse): Record {
    var stored := s.(attrs := s.attrs[CaptureKey := captured.ToDict()]);
    if captured.status == JStr(TransactionCaptured) then
      stored.(capturedAmount := p.total, status := Confirmed, message := "")
    else
      stored
  }

  /** What `process_data` does to a payment whose mutable state is `s`. */
  function ProcessDataStep(facade: Facade, p: Payment, s: Record, assertRequestId: string,
                           captureRequestId: string, server: Server): Step
  {
    if !Truthy(s.transactionId) then
      Step(s, NoRedirect)
    else
      match facade.AssertOutcome(s.transactionId, assertRequestId, server)
      case Failure(e) => Step(RecordFailure(s, e), Raised(e))
      case Success(asserted) =>
        var stored := s.(attrs := s.attrs[AssertKey := asserted.ToDict()]);
        if asserted.transactionStatus == JStr(TransactionCanceled) then
          Step(stored.(status := Rejected, message := ""), Redirect(JStr(p.failureUrl)))
        else if asserted.transactionStatus == JStr(TransactionCaptured) then
          Step(stored.(capturedAmount := p.total, status := Confirmed, message := ""), Redirect(JStr(p.successUrl)))
        else if asserted.transactionStatus == JStr(TransactionAuthorized) then
          match facade.CaptureOutcome(asserted.transactionId, captureRequestId, server)
          case Failure(e) => Step(RecordFailure(stored, e), Raised(e))
          case Success(captured) => Step(AfterCapture(p, stored, captured), Redirect(JStr(p.successUrl)))
        else
          Step(stored, NoRedirect)
  }

  class SaferpayProvider {
    const facade: Facade

    /** The `sandbox` flag defaults to true, so an unconfigured provider talks to the test endpoint. */
    constructor(customerId: string, terminalId: string, authUsername: string, authPassword: string,
                toMinorUnits: real -> int, sandbox: bool := true)
      ensures facade.customerId == customerId && facade.terminalId == terminalId
      ensures facade.authUsername == authUsername && facade.authPassword == authPassword
      ensures facade.baseUrl == if sandbox then SandboxBaseUrl else ProductionBaseUrl
      ensures facade.toMinorUnits == toMinorUnits
    {
      facade := new Facade(customerId, terminalId, authUsername, authPassword, sandbox, toMinorUnits);
    }

    /** `get_form`: initialize once, then always redirect to the stored gateway page. */
    method GetForm(payment: Payment, requestId: string, server: Server) returns (outcome: Outcome)
      modifies payment
      ensures Step(payment.Snapshot(), outcome) == GetFormStep(facade, payment, old(payment.Snapshot()), requestId, server)
      ensures old(Truthy(payment.transactionId)) ==> payment.Snapshot() == old(payment.Snapshot())
      ensures payment.capturedAmount == old(payment.capturedAmount)
    {
      if !Truthy(payment.transactionId) {
        var initialized := facade.PaymentInitialize(payment, payment.returnUrl, requestId, server);
        if initialized.Failure? {
          if initialized.error.PaymentError? {
            payment.ChangeStatus(Error, initialized.error.message);
          }
          return Raised(initialized.error);
        }
        payment.attrs := payment.attrs[InitializeKey := initialized.value.ToDict()];
        payment.transactionId := initialized.value.token;
      }
      outcome := StoredRedirect(payment.attrs);
    }

    /** `process_data`: assert the transaction, capture it if only authorized, and record the result. */
    method ProcessData(payment: Payment, assertRequestId: string, captureRequestId: string, server: Server)
      returns (outcome: Outcome)
      modifies payment
      ensures Step(payment.Snapshot(), outcome)
              == ProcessDataStep(facade, payment, old(payment.Snapshot()), assertRequestId, captureRequestId, server)
      ensures payment.transactionId == old(payment.transactionId)
    {
      if !Truthy(payment.transactionId) {
        return NoRedirect;
      }
      // These redirects are built and dropped: they do not end the call.
      if payment.status == Rejected || payment.status == Error {
        var discarded := Redirect(JStr(payment.failureUrl));
      } else if payment.status == Confirmed {
        var discarded := Redirect(JStr(payment.successUrl));
      }

      var asserted := facade.PaymentAssert(payment, assertRequestId, server);
      if asserted.Failure? {
        if asserted.error.PaymentError? {
          payment.ChangeStatus(Error, asserted.error.message);
        }
        return Raised(asserted.error);
      }
      var assertResponse := asserted.value;
      payment.attrs := payment.attrs[AssertKey := assertResponse.ToDict()];

      if assertResponse.transactionStatus == JStr(TransactionCanceled) {
        payment.ChangeStatus(Rejected, "");
        return Redirect(JStr(payment.failureUrl));
      } else if assertResponse.transactionStatus == JStr(TransactionCaptured) {
        payment.capturedAmount := payment.total;
        payment.ChangeStatus(Confirmed, "");
        return Redirect(JStr(payment.successUrl));
      } else if assertResponse.transactionStatus == JStr(TransactionAuthorized) {
        var captured := facade.TransactionCapture(payment, assertResponse.transactionId, captureRequestId, server);
        if captured.Failure? {
          if captured.error.PaymentError? {
            payment.ChangeStatus(Error, captured.error.message);
          }
          return Raised(captured.error);
        }
        payment.attrs := payment.attrs[CaptureKey := captured.value.ToDict()];
        if captured.value.status == JStr(TransactionCaptured) {
          payment.capturedAmount := payment.total;
          payment.ChangeStatus(Confirmed, "");
        }
        return Redirect(JStr(payment.successUrl));
      }
      outcome := NoRedirect;
    }
  }

  // ---------------------------------------------------------------------
  // get_form
  // ---------------------------------------------------------------------

  /** A first `get_form` that initializes stores the response and the token, and redirects to the gateway page. */
  lemma GetFormStoresInitializeResponse(facade: Facade, p: Payment, s: Record, requestId: string, server: Server)
    requires !Truthy(s.transactionId)
    requires facade.InitializeOutcome(p, s.transactionId, p.returnUrl, requestId, server).Success?
    ensures var r := facade.InitializeOutcome(p, s.transactionId, p.returnUrl, requestId, server).value;
            var t := GetFormStep(facade, p, s, requestId, server);
            && t.record == s.(attrs := s.attrs[InitializeKey := r.ToDict()], transactionId := r.token)
            && t.outcome == Redirect(r.redirectUrl)
  {
  }

  /** With a transaction id already set, `get_form` makes no gateway call and changes nothing. */
  lemma GetFormWithTransactionIsPure(facade: Facade, p: Payment, s: Record, requestId: string, server: Server,
                                     otherId: string, other: Server)
    requires Truthy(s.transactionId)
    ensures GetFormStep(facade, p, s, requestId, server) == GetFormStep(facade, p, s, otherId, other)
    ensures GetFormStep(facade, p, s, requestId, server) == Step(s, StoredRedirect(s.attrs))
  {
  }

  /**
   * Once a call has left a (non-empty) transaction id, calling `get_form`
   * again yields the same record and the same redirect.
   */
  lemma GetFormIsIdempotent(facade: Facade, p: Payment, s: Record, requestId: string, server: Server,
                                               againId: string, again: Server)
    requires Truthy(GetFormStep(facade, p, s, requestId, server).record.transactionId)
    ensures var t := GetFormStep(facade, p, s, requestId, server);
            GetFormStep(facade, p, t.record, againId, again) == t
  {
    var t := GetFormStep(facade, p, s, requestId, server);
    if Truthy(s.transactionId) {
      GetFormWithTransactionIsPure(facade, p, s, requestId, server, againId, again);
    } else {
      GetFormWithTransactionIsPure(facade, p, t.record, againId, again, againId, again);
    }
  }

  /**
   * When initialize raises `PaymentError`, the status becomes ERROR with the
   * error's message and the error is re-raised; a `ValueError` (or any other
   * exception) leaves the record untouched. No redirect either way.
   */
  lemma GetFormInitializeFailure(facade: Facade, p: Payment, s: Record, requestId: string, server: Server)
    requires !Truthy(s.transactionId)
    requires facade.InitializeOutcome(p, s.transactionId, p.returnUrl, requestId, server).Failure?
    ensures var e := facade.InitializeOutcome(p, s.transactionId, p.returnUrl, requestId, server).error;
            var t := GetFormStep(facade, p, s, requestId, server);
            && t.outcome == Raised(e)
            && (e.PaymentError? ==> t.record == s.(status := Error, message := e.message))
            && (!e.PaymentError? ==> t.record == s)
  {
  }

  /** A payment that fails validation raises `ValueError` from `get_form` and keeps its status. */
  lemma GetFormValidationErrorEscapes(facade: Facade, p: Payment, s: Record, requestId: string, server: Server)
    requires !Truthy(s.transactionId) && ValidateInitializeFields(p).Some?
    ensures GetFormStep(facade, p, s, requestId, server) == Step(s, Raised(ValidateInitializeFields(p).value))
    ensures ValidateInitializeFields(p).value.ValueError?
  {
  }

  // ---------------------------------------------------------------------
  // process_data
  // ---------------------------------------------------------------------

  /** Without a transaction id, `process_data` does nothing and returns no redirect. */
  lemma ProcessDataWithoutTransaction(facade: Facade, p: Payment, s: Record, assertRequestId: string,
                                      captureRequestId: string, server: Server)
    requires !Truthy(s.transactionId)
    ensures ProcessDataStep(facade, p, s, assertRequestId, captureRequestId, server) == Step(s, NoRedirect)
  {
  }

  /**
   * `process_data` does not short-circuit on the current status: a
   * CONFIRMED, REJECTED or ERROR payment is asserted again, and the outcome
   * and every field but the status are what they would be for any status.
   */
  lemma ProcessDataIgnoresCurrentStatus(facade: Facade, p: Payment, s: Record, status: PaymentStatus,
                                        assertRequestId: string, captureRequestId: string, server: Server)
    ensures var t := ProcessDataStep(facade, p, s, assertRequestId, captureRequestId, server);
            var u := ProcessDataStep(facade, p, s.(status := status), assertRequestId, captureRequestId, server);
            && t.outcome == u.outcome
            && t.record.(status := status) == u.record.(status := status)
  {
  }

  /**
   * An assert failure is re-raised; a `PaymentError` first sets ERROR with
   * its message, while any other exception leaves the record untouched.
   */
  lemma ProcessDataAssertFailure(facade: Facade, p: Payment, s: Record, assertRequestId: string,
                                 captureRequestId: string, server: Server)
    requires Truthy(s.transactionId)
    requires facade.AssertOutcome(s.transactionId, assertRequestId, server).Failure?
    ensures var e := facade.AssertOutcome(s.transactionId, assertRequestId, server).error;
            var t := ProcessDataStep(facade, p, s, assertRequestId, captureRequestId, server);
            && t.outcome == Raised(e)
            && (e.PaymentError? ==> t.record == s.(status := Error, message := e.message))
            && (!e.PaymentError? ==> t.record == s)
  {
  }

  /** The four ways a successful assert is handled. */
  lemma ProcessDataAfterAssert(facade: Facade, p: Payment, s: Record, assertRequestId: string,
                               captureRequestId: string, server: Server)
    requires Truthy(s.transactionId)
    requires facade.AssertOutcome(s.transactionId, assertRequestId, server).Success?
    ensures var a := facade.AssertOutcome(s.transactionId, assertRequestId, server).value;
            var stored := s.(attrs := s.attrs[AssertKey := a.ToDict()]);
            var t := ProcessDataStep(facade, p, s, assertRequestId, captureRequestId, server);
            && (a.transactionStatus == JStr(TransactionCanceled) ==>
                  t == Step(stored.(status := Rejected, message := ""), Redirect(JStr(p.failureUrl))))
            && (a.transactionStatus == JStr(TransactionCaptured) ==>
                  t == Step(stored.(capturedAmount := p.total, status := Confirmed, message := ""), Redirect(JStr(p.successUrl))))
            && (a.transactionStatus !in {JStr(TransactionCanceled), JStr(TransactionCaptured), JStr(TransactionAuthorized)} ==>
                  t == Step(stored, NoRedirect))
  {
  }

  /**
   * AUTHORIZED triggers a capture of the asserted transaction: a failed
   * capture sets ERROR and re-raises; otherwise the capture is stored, the
   * payment is confirmed only on a capture status of exactly "CAPTURED", and
   * the payer goes to the success URL either way.
   */
  lemma ProcessDataAuthorized(facade: Facade, p: Payment, s: Record, assertRequestId: string,
                              captureRequestId: string, server: Server)
    requires Truthy(s.transactionId)
    requires facade.AssertOutcome(s.transactionId, assertRequestId, server).Success?
    requires facade.AssertOutcome(s.transactionId, assertRequestId, server).value.transactionStatus == JStr(TransactionAuthorized)
    ensures var a := facade.AssertOutcome(s.transactionId, assertRequestId, server).value;
            var stored := s.(attrs := s.attrs[AssertKey := a.ToDict()]);
            var c := facade.CaptureOutcome(a.transactionId, captureRequestId, server);
            var t := ProcessDataStep(facade, p, s, assertRequestId, captureRequestId, server);
            && (c.Failure? ==> t == Step(RecordFailure(stored, c.error), Raised(c.error)))
            && (c.Success? ==> t.outcome == Redirect(JStr(p.successUrl))
                               && t.record.attrs == stored.attrs[CaptureKey := c.value.ToDict()])
            && (c.Success? && c.value.status == JStr(TransactionCaptured) ==>
                  t.record.status == Confirmed && t.record.capturedAmount == p.total)
            && (c.Success? && c.value.status != JStr(TransactionCaptured) ==>
                  t.record.status == s.status && t.record.capturedAmount == s.capturedAmount
                  && t.record.message == s.message)
  {
  }

  /**
   * What `process_data` can change: the transaction id never; the captured
   * amount only to the total; the status only to ERROR, REJECTED or
   * CONFIRMED; and CONFIRMED is entered only together with the captured
   * amount. Stored entries other than the assert and capture responses stay.
   */
  lemma ProcessDataFrame(facade: Facade, p: Payment, s: Record, assertRequestId: string,
                         captureRequestId: string, server: Server)
    ensures var t := ProcessDataStep(facade, p, s, assertRequestId, captureRequestId, server);
            && t.record.transactionId == s.transactionId
            && (t.record.capturedAmount == s.capturedAmount || t.record.capturedAmount == p.total)
            && t.record.status in {s.status, Error, Rejected, Confirmed}
            && (t.record.status == Confirmed && s.status != Confirmed ==> t.record.capturedAmount == p.total)
            && (forall k :: k in s.attrs && k != AssertKey && k != CaptureKey ==> k in t.record.attrs && t.record.attrs[k] == s.attrs[k])
  {
  }

  /** The payer is sent to the success URL exactly when the gateway reported CAPTURED, or AUTHORIZED and a capture that went through. */
  lemma ProcessDataSuccessRedirect(facade: Facade, p: Payment, s: Record, assertRequestId: string,
                                   captureRequestId: string, server: Server)
    requires p.successUrl != p.failureUrl
    ensures var t := ProcessDataStep(facade, p, s, assertRequestId, captureRequestId, server);
            var a := facade.AssertOutcome(s.transactionId, assertRequestId, server);
            t.outcome == Redirect(JStr(p.successUrl))
            <==> && Truthy(s.transactionId) && a.Success?
                 && (|| a.value.transactionStatus == JStr(TransactionCaptured)
                     || (&& a.value.transactionStatus == JStr(TransactionAuthorized)
                         && facade.CaptureOutcome(a.value.transactionId, captureRequestId, server).Success?))
  {
  }
}
