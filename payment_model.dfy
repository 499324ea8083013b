/**
 * What the payment step service (payment-svc/internal/usecase/usecase.go)
 * replies to the orchestrator for each provider answer, and the properties
 * of it.
 */
module PaymentModel {
  import opened Wrappers
  import opened Json
  import opened Events
  import opened Messaging
  import opened StepReply
  import opened PaymentProvider

  /** The `source` of every reply payment-svc builds. */
  const PaymentSource := "payment-svc"

  /** The provider's answer to each request, standing for `provider.PaymentProvider`. */
  datatype PaymentAnswers = PaymentAnswers(
    createAccountBalance: AccountBalanceRequest -> ProviderAnswer<AccountBalance>,
    processPayment: PaymentRequest -> ProviderAnswer<Transaction>,
    refundPayment: PaymentRequest -> ProviderAnswer<Transaction>)

  /** What payment-svc publishes to the orchestrator. */
  datatype PaymentOutbound =
    | BalanceReply(balance: GlobalEvent<AccountBalanceRequest, ReplyPayload<AccountBalance>>)
    | PaymentReply(payment: GlobalEvent<PaymentRequest, ReplyPayload<Transaction>>)

  type PaymentEnv = StepEnv<PaymentAnswers>
  type PaymentState = StepState<PaymentOutbound>

  /** One `CreateAccountBalanceMessaging`. */
  function CreateAccountBalanceSpec(env: PaymentEnv, s: PaymentState, ge: GlobalEvent<AccountBalanceRequest, Json>, now: int)
    : (PaymentState, Result<(), CallError>)
  {
    var a := env.provider.createAccountBalance(AccountBalanceRequest(ge.payload.request.deposit, ge.payload.request.username));
    match ProviderReply(PaymentSource, ge, a, env.gen(s.drawn), "create", "bank_account_failed", "bank_account_created", now)
    case None => (AbortState(s, a), Failure(Panicked))
    case Some(ev) => Deliver(env, s.(drawn := s.drawn + 1), BalanceReply(ev), a.err, "account balance processing")
  }

  /** One `ProcessPaymentMessaging`. */
  function ProcessPaymentSpec(env: PaymentEnv, s: PaymentState, ge: GlobalEvent<PaymentRequest, Json>, now: int)
    : (PaymentState, Result<(), CallError>)
  {
    var r := ge.payload.request;
    var a := env.provider.processPayment(PaymentRequest(r.refId, r.amount, r.accountBankId));
    match ProviderReply(PaymentSource, ge, a, env.gen(s.drawn), "update", "payment_failed", "payment_success", now)
    case None => (AbortState(s, a), Failure(Panicked))
    case Some(ev) => Deliver(env, s.(drawn := s.drawn + 1), PaymentReply(ev), a.err, "payment processing")
  }

  /** The request a refund hands the provider: the reference alone. */
  function RefundRequest(r: PaymentRequest): PaymentRequest
  {
    PaymentRequest(r.refId, 0, "")
  }

  /** One `RefundPaymentMessaging`. */
  function RefundPaymentSpec(env: PaymentEnv, s: PaymentState, ge: GlobalEvent<PaymentRequest, Json>, now: int)
    : (PaymentState, Result<(), CallError>)
  {
    var a := env.provider.refundPayment(RefundRequest(ge.payload.request));
    match ProviderReply(PaymentSource, ge, a, env.gen(s.drawn), "update", "refund_failed", "refund_success", now)
    case None => (AbortState(s, a), Failure(Panicked))
    case Some(ev) => Deliver(env, s.(drawn := s.drawn + 1), PaymentReply(ev), a.err, "refund processing")
  }

  /**
   * `ProcessPaymentMessaging` with a response from the provider publishes
   * its reply whether or not the payment failed: "payment_failed" or
   * "payment_success" by the provider's error; a send error is reported in
   * preference, then "payment processing failed".
   */
  lemma ProcessPaymentReplies(env: PaymentEnv, s: PaymentState, ge: GlobalEvent<PaymentRequest, Json>, now: int)
    requires env.provider.processPayment(ge.payload.request).response.Some?
    ensures var a := env.provider.processPayment(ge.payload.request);
      var (s', r) := ProcessPaymentSpec(env, s, ge, now);
      (env.topic !in env.unavailable ==>
         |s'.sent| == |s.sent| + 1 && s'.sent[..|s.sent|] == s.sent && s'.sent[|s.sent|].value.PaymentReply?
         && var e := s'.sent[|s.sent|].value.payment;
            e.state == (if a.err.Some? then "payment_failed" else "payment_success")
            && e.eventId == ge.eventId && e.instanceId == ge.instanceId && e.eventType == ge.eventType
            && e.payload.request == ge.payload.request)
      && (r == Failure(SendFailed) <==> env.topic in env.unavailable)
      && (r.Success? <==> env.topic !in env.unavailable && a.err.None?)
      && (r.Failure? && r.error.ProcessingFailed? ==> r.error == ProcessingFailed("payment processing", a.err.value))
  {
    var a := env.provider.processPayment(ge.payload.request);
    ProviderReplyRule(PaymentSource, ge, a, env.gen(s.drawn), "update", "payment_failed", "payment_success", now);
    var ev := ProviderReply(PaymentSource, ge, a, env.gen(s.drawn), "update", "payment_failed", "payment_success", now).value;
    DeliverReports(env, s.(drawn := s.drawn + 1), PaymentReply(ev), a.err, "payment processing");
  }

  /**
   * `CreateAccountBalanceMessaging` with a response from the provider
   * publishes "bank_account_failed" or "bank_account_created" by the
   * provider's error, with the matching status and code.
   */
  lemma CreateAccountBalanceReplies(env: PaymentEnv, s: PaymentState, ge: GlobalEvent<AccountBalanceRequest, Json>, now: int)
    requires env.provider.createAccountBalance(ge.payload.request).response.Some?
    requires env.topic !in env.unavailable
    ensures var a := env.provider.createAccountBalance(ge.payload.request);
      var resp := a.response.value;
      var (s', r) := CreateAccountBalanceSpec(env, s, ge, now);
      |s'.sent| == |s.sent| + 1 && s'.sent[|s.sent|].value.BalanceReply?
      && var e := s'.sent[|s.sent|].value.balance;
         e.action == "create" && e.eventId == ge.eventId && e.instanceId == ge.instanceId
         && (a.err.Some? ==> e.state == "bank_account_failed" && e.status == "error" && e.statusCode == FailureCode(resp)
                             && r == Failure(ProcessingFailed("account balance processing", a.err.value)))
         && (a.err.None? ==> e.state == "bank_account_created" && e.status == "success" && e.statusCode == resp.statusCode
                             && r == Success(()))
  {
    var a := env.provider.createAccountBalance(ge.payload.request);
    ProviderReplyRule(PaymentSource, ge, a, env.gen(s.drawn), "create", "bank_account_failed", "bank_account_created", now);
  }

  /**
   * A refund consults the provider with the reference alone: two refund
   * events that differ only in amount or account get replies that differ
   * only in the request they echo.
   */
  lemma RefundDependsOnlyOnRef(env: PaymentEnv, s: PaymentState, ge: GlobalEvent<PaymentRequest, Json>,
                               amount: int, account: string, now: int)
    ensures var ge' := ge.(payload := ge.payload.(request := ge.payload.request.(amount := amount, accountBankId := account)));
      var (s1, r1) := RefundPaymentSpec(env, s, ge, now);
      var (s2, r2) := RefundPaymentSpec(env, s, ge', now);
      r1 == r2 && |s1.sent| == |s2.sent| && s1.drawn == s2.drawn
      && (|s1.sent| == |s.sent| + 1 ==>
            s1.sent[|s.sent|].value.PaymentReply? && s2.sent[|s.sent|].value.PaymentReply?
            && s1.sent[|s.sent|].value.payment.(payload := s2.sent[|s.sent|].value.payment.payload)
               == s2.sent[|s.sent|].value.payment
            && s1.sent[|s.sent|].value.payment.payload.response == s2.sent[|s.sent|].value.payment.payload.response)
  {
    var ge' := ge.(payload := ge.payload.(request := ge.payload.request.(amount := amount, accountBankId := account)));
    assert RefundRequest(ge'.payload.request) == RefundRequest(ge.payload.request);
  }

  /**
   * With `PaymentProviderImpl` behind it no handler of payment-svc
   * dereferences a nil response: the provider always returns one.
   */
  lemma ImplNeverPanics(env: PaymentEnv, s: PaymentState,
                        balances: HttpCall<AccountBalanceRequest> -> ClientAnswer<AccountBalance>,
                        payments: HttpCall<PaymentRequest> -> ClientAnswer<Transaction>,
                        ge: GlobalEvent<AccountBalanceRequest, Json>, pe: GlobalEvent<PaymentRequest, Json>, now: int)
    requires env.provider == PaymentAnswers(req => CreateAccountBalance(balances, req), req => ProcessPayment(payments, req),
                                            req => RefundPayment(payments, req))
    ensures CreateAccountBalanceSpec(env, s, ge, now).1 != Failure(Panicked)
    ensures ProcessPaymentSpec(env, s, pe, now).1 != Failure(Panicked)
    ensures RefundPaymentSpec(env, s, pe, now).1 != Failure(Panicked)
  {
  }
}
