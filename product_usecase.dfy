/**
 * The `Usecase` of product-svc (product-svc/internal/usecase/usecase.go) as
 * a class over the provider, the producer bound to the orchestrator's topic
 * and the uuid supply, proved to do what `ProductModel` says.
 */
module Products {
  import opened Wrappers
  import opened Json
  import opened Events
  import opened Messaging
  import opened StepReply
  import opened ProductModel

  class ProductUsecase {
    const provider: ProductAnswers
    const producer: Producer<ProductReply>
    /** Stands for `uuid.New()`. */
    const uuids: Supply

    /** `NewUsecase`. */
    constructor (provider: ProductAnswers, producer: Producer<ProductReply>, uuids: Supply)
      ensures this.provider == provider && this.producer == producer && this.uuids == uuids
    {
      this.provider := provider;
      this.producer := producer;
      this.uuids := uuids;
    }

    ghost function State(): ProductState
      reads producer, uuids
    {
      StepState(producer.sent, uuids.drawn)
    }

    ghost function Environment(): ProductEnv
      reads producer
    {
      StepEnv(provider, producer.topic, producer.unavailable, uuids.gen)
    }

    /** The shared tail: send with a fresh key, then report the send error or the provider's. */
    method Report(msg: ProductReply, providerErr: Option<ErrorResponse>, operation: string)
      returns (r: Result<(), CallError>)
      modifies producer`sent, uuids
      ensures (State(), r) == Deliver(old(Environment()), old(State()), msg, providerErr, operation)
    {
      var key := uuids.Next();
      var ok := producer.Send(key, msg);
      if !ok {
        return Failure(SendFailed);
      }
      if providerErr.Some? {
        return Failure(ProcessingFailed(operation, providerErr.value));
      }
      r := Success(());
    }

    /** `ReserveProductMessaging`. */
    method ReserveProductMessaging(ge: GlobalEvent<ProductRequest, Json>, now: int) returns (r: Result<(), CallError>)
      modifies producer`sent, uuids
      ensures (State(), r) == ReserveSpec(old(Environment()), old(State()), ge, now)
    {
      var a := provider.reserve(ProductRequest(ge.payload.request.productId, ge.payload.request.quantity));
      var gevent: ProductReply;
      if a.err.None? && a.response.None? {
        return Failure(Panicked);
      }
      if a.err.Some? || a.response.value.error != "" {
        var response := if a.err.Some? then Failed(a.err.value) else Rejected(a.response.value);
        var id := uuids.Next();
        gevent := StepEnvelope(id, ProductSource, "update", "error", "product_reservation_failed",
                               BasePayload(ge.payload.request, response), now);
      } else {
        var id := uuids.Next();
        gevent := StepEnvelope(id, ProductSource, "update", "success", "product_reservation_success",
                               BasePayload(ge.payload.request, Data(a.response.value.data)), now);
      }
      gevent := gevent.(eventId := ge.eventId, instanceId := ge.instanceId, eventType := ge.eventType);
      if a.response.Some? {
        gevent := gevent.(statusCode := a.response.value.statusCode);
      } else {
        gevent := gevent.(statusCode := 500);
      }
      r := Report(gevent, a.err, "product reservation");
    }

    /** `ReleaseProductMessaging`. */
    method ReleaseProductMessaging(ge: GlobalEvent<ProductRequest, Json>, now: int) returns (r: Result<(), CallError>)
      modifies producer`sent, uuids
      ensures (State(), r) == ReleaseSpec(old(Environment()), old(State()), ge, now)
    {
      var a := provider.release(ProductRequest(ge.payload.request.productId, ge.payload.request.quantity));
      var gevent: ProductReply;
      if a.err.Some? {
        var id := uuids.Next();
        gevent := StepEnvelope(id, ProductSource, "update", "error", "product_release_failed",
                               BasePayload(ge.payload.request, Failed(a.err.value)), now);
        if a.response.None? {
          return Failure(Panicked);
        }
        gevent := gevent.(statusCode := if a.response.value.error != "" then a.response.value.statusCode else 500);
      } else {
        if a.response.None? {
          return Failure(Panicked);
        }
        var data := a.response.value.data;
        var id := uuids.Next();
        gevent := StepEnvelope(id, ProductSource, "update", "success", "product_release_success",
                               BasePayload(ge.payload.request, Data(data)), now);
        gevent := gevent.(statusCode := a.response.value.statusCode);
      }
      gevent := gevent.(eventId := ge.eventId, instanceId := ge.instanceId, eventType := ge.eventType);
      r := Report(gevent, a.err, "product release");
    }
  }
}
