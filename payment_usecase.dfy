/**
 * The `Usecase` of payment-svc (payment-svc/internal/usecase/usecase.go) as
 * a class over the provider, the producer bound to the orchestrator's topic
 * and the uuid supply, proved to do what `PaymentModel` says.
 */
module Payments {
  import opened Wrappers
  import opened Json
  import opened Events
  import opened Messaging
  import opened StepReply
  import opened PaymentProvider
  import opened PaymentModel

  class PaymentUsecase {
    const provider: PaymentAnswers
    const producer: Producer<PaymentOutbound>
    /** Stands for `uuid.New()`. */
    const uuids: Supply

    /** `NewUsecase`. */
    constructor (provider: PaymentAnswers, producer: Producer<PaymentOutbound>, uuids: Supply)
      ensures this.provider == provider && this.producer == producer && this.uuids == uuids
    {
      this.provider := provider;
      this.producer := producer;
      this.uuids := uuids;
    }

    ghost function State(): PaymentState
      reads producer, uuids
    {
      StepState(producer.sent, uuids.drawn)
    }

    ghost function Environment(): PaymentEnv
      reads producer
    {
      StepEnv(provider, producer.topic, producer.unavailable, uuids.gen)
    }

    /** The shared tail: send with a fresh key, then report the send error or the provider's. */
    method Report(msg: PaymentOutbound, providerErr: Option<ErrorResponse>, operation: string)
      returns (r: Result<(), CallError>)
      modifies producer`sent, uuids
      ensures (State(), r) == Deliver(old(Environment()), old(State()), msg, providerErr, operation)
    {
      var key := uuids.Next();
      var ok := producer.Send(key, msg);
      if !ok {
        return Failure(SendFailed);
      }
      if providerErr.Some? {
        return Failure(ProcessingFailed(operation, providerErr.value));
      }
      r := Success(());
    }

    /**
     * The branch every handler makes on the provider's answer, building the
     * reply envelope; `None` where it dereferences a nil response.
     */
    method BuildReply<R, T>(ge: GlobalEvent<R, Json>, a: ProviderAnswer<T>, action: string, failedState: string,
                            successState: string, now: int) returns (reply: Option<GlobalEvent<R, ReplyPayload<T>>>)
      modifies uuids
      ensures reply == ProviderReply(PaymentSource, ge, a, uuids.gen(old(uuids.drawn)), action, failedState, successState, now)
      ensures uuids.drawn == old(uuids.drawn) + (if reply.Some? || a.err.Some? then 1 else 0)
    {
      var gevent: GlobalEvent<R, ReplyPayload<T>>;
      if a.err.Some? {
        var id := uuids.Next();
        gevent := StepEnvelope(id, PaymentSource, action, "error", failedState,
                               BasePayload(ge.payload.request, Failed(a.err.value)), now);
        if a.response.None? {
          return None;
        }
        gevent := gevent.(statusCode := if a.response.value.error != "" then a.response.value.statusCode else 500);
      } else {
        if a.response.None? {
          return None;
        }
        var data := a.response.value.data;
        var id := uuids.Next();
        gevent := StepEnvelope(id, PaymentSource, action, "success", successState, BasePayload(ge.payload.request, Data(data)), now);
        gevent := gevent.(statusCode := a.response.value.statusCode);
      }
      gevent := gevent.(eventId := ge.eventId, instanceId := ge.instanceId, eventType := ge.eventType);
      reply := Some(gevent);
    }

    /** `CreateAccountBalanceMessaging`. */
    method CreateAccountBalanceMessaging(ge: GlobalEvent<AccountBalanceRequest, Json>, now: int)
      returns (r: Result<(), CallError>)
      modifies producer`sent, uuids
      ensures (State(), r) == CreateAccountBalanceSpec(old(Environment()), old(State()), ge, now)
    {
      var a := provider.createAccountBalance(AccountBalanceRequest(ge.payload.request.deposit, ge.payload.request.username));
      var reply := BuildReply(ge, a, "create", "bank_account_failed", "bank_account_created", now);
      if reply.None? {
        return Failure(Panicked);
      }
      r := Report(BalanceReply(reply.value), a.err, "account balance processing");
    }

    /** `ProcessPaymentMessaging`. */
    method ProcessPaymentMessaging(ge: GlobalEvent<PaymentRequest, Json>, now: int) returns (r: Result<(), CallError>)
      modifies producer`sent, uuids
      ensures (State(), r) == ProcessPaymentSpec(old(Environment()), old(State()), ge, now)
    {
      var req := ge.payload.request;
      var a := provider.processPayment(PaymentRequest(req.refId, req.amount, req.accountBankId));
      var reply := BuildReply(ge, a, "update", "payment_failed", "payment_success", now);
      if reply.None? {
        return Failure(Panicked);
      }
      r := Report(PaymentReply(reply.value), a.err, "payment processing");
    }

    /** `RefundPaymentMessaging`: the provider is handed the reference alone. */
    method RefundPaymentMessaging(ge: GlobalEvent<PaymentRequest, Json>, now: int) returns (r: Result<(), CallError>)
      modifies producer`sent, uuids
      ensures (State(), r) == RefundPaymentSpec(old(Environment()), old(State()), ge, now)
    {
      var a := provider.refundPayment(PaymentRequest(ge.payload.request.refId, 0, ""));
      var reply := BuildReply(ge, a, "update", "refund_failed", "refund_success", now);
      if reply.None? {
        return Failure(Panicked);
      }
      r := Report(PaymentReply(reply.value), a.err, "refund processing");
    }
  }
}
