/**
 * `OrderUsecase` (order-svc/internal/usecase/order_usecase.go) as a class
 * over the order queries, the producer bound to the orchestrator's topic and
 * the two sources of fresh values, proved to do what `OrderModel` says.
 */
module Orders {
  import opened Wrappers
  import opened Json
  import opened Events
  import opened Messaging
  import opened OrderSvc
  import opened OrderModel

  /** The `sqlc.Querier` of order-svc: each query is answered by `answers`, each write is logged. */
  class OrderQueries {
    const answers: OrderAnswers
    var writes: seq<OrderWrite>

    constructor (answers: OrderAnswers)
      ensures this.answers == answers && writes == []
    {
      this.answers := answers;
      writes := [];
    }

    method CreateOrder(p: CreateOrderParams) returns (r: Result<Order, string>)
      modifies this`writes
      ensures writes == old(writes) + [CreateOrderCall(p)] && r == answers.createOrder(p)
    {
      writes := writes + [CreateOrderCall(p)];
      r := answers.createOrder(p);
    }

    method FindOrderByID(id: int) returns (r: Result<Order, string>)
      ensures r == answers.findOrderById(id)
    {
      r := answers.findOrderById(id);
    }

    method FindOrderByRefID(refId: string) returns (r: Result<Order, string>)
      ensures r == answers.findOrderByRefId(refId)
    {
      r := answers.findOrderByRefId(refId);
    }

    method UpdateOrder(p: UpdateOrderParams) returns (r: Result<Order, string>)
      modifies this`writes
      ensures writes == old(writes) + [UpdateOrderCall(p)] && r == answers.updateOrder(p)
    {
      writes := writes + [UpdateOrderCall(p)];
      r := answers.updateOrder(p);
    }
  }

  class OrderUsecase {
    const queries: OrderQueries
    const producer: Producer<OutboundEvent>
    /** Stands for `uuid.New()`. */
    const uuids: Supply
    /** Stands for `pkg.GenerateRandom6Char()`. */
    const randoms: Supply

    /** `NewOrderUsecase`. */
    constructor (queries: OrderQueries, producer: Producer<OutboundEvent>, uuids: Supply, randoms: Supply)
      ensures this.queries == queries && this.producer == producer && this.uuids == uuids && this.randoms == randoms
    {
      this.queries := queries;
      this.producer := producer;
      this.uuids := uuids;
      this.randoms := randoms;
    }

    ghost function State(): OrderState
      reads queries, producer, uuids, randoms
    {
      SvcState(queries.writes, producer.sent, uuids.drawn, randoms.drawn)
    }

    ghost function Environment(): OrderEnv
      reads producer
    {
      SvcEnv(queries.answers, producer.topic, producer.unavailable, uuids.gen, randoms.gen)
    }

    /** `orchestraProducer.SendMessage(uuid.New().String(), bytes)`. */
    method Send(ev: OutboundEvent) returns (ok: bool)
      requires uuids != randoms
      modifies producer`sent, uuids
      ensures (State(), ok) == Publish(old(Environment()), old(State()), ev)
    {
      var key := uuids.Next();
      ok := producer.Send(key, ev);
    }

    /** `CreateOrder`. */
    method CreateOrder(req: OrderRequest, now: int) returns (r: Result<Order, OrderError>)
      requires uuids != randoms
      modifies queries`writes, producer`sent, uuids, randoms
      ensures (State(), r) == CreateOrderSpec(old(Environment()), old(State()), req, now)
    {
      var id := uuids.Next();
      var created := queries.CreateOrder(CreateParams(req, id));
      if created.Failure? {
        return Failure(StoreError(created.error));
      }
      var ev := NewGlobalEvent(uuids, randoms, "create", "success", "order_created", OrderProcess,
                               BasePayload(req, created.value), now);
      ev := ev.(statusCode := 201);
      var ok := Send(OrderCreated(ev));
      if !ok {
        return Failure(SendError);
      }
      r := Success(created.value);
    }

    /** `UpdateOrder`: the amount is always sent as a valid (non-null) value. */
    method UpdateOrder(u: OrderUpdateRequest) returns (r: Result<Order, OrderError>)
      modifies queries`writes
      ensures (State(), r) == UpdateOrderSpec(Environment(), old(State()), u)
    {
      var updated := queries.UpdateOrder(UpdateOrderParams(u.status, Some(u.amount), u.quantity, u.refId));
      if updated.Failure? {
        return Failure(StoreError(updated.error));
      }
      r := Success(updated.value);
    }

    /** `CancelOrder`. */
    method CancelOrder(req: OrderCancelRequest, now: int) returns (r: Result<Order, OrderError>)
      requires uuids != randoms
      modifies queries`writes, producer`sent, uuids, randoms
      ensures (State(), r) == CancelOrderSpec(old(Environment()), old(State()), req, now)
    {
      var found := queries.FindOrderByID(req.orderId);
      if found.Failure? {
        return Failure(StoreError(found.error));
      }
      var order := found.value;
      if order.status != Complete {
        return Failure(CannotCancel);
      }
      if req.username != order.username {
        return Failure(UnauthorizedCancel);
      }
      var u := OrderUpdateRequest(order.refId, AmountOf(order), order.quantity, CancelProcessing, OrderCancelProcess);
      var updated := UpdateOrder(u);
      if updated.Failure? {
        return updated;
      }
      var ev := NewGlobalEvent(uuids, randoms, "update", "success", "order_cancel", OrderCancelProcess,
                               BasePayload(u, updated.value), now);
      ev := ev.(statusCode := 200);
      var ok := Send(OrderUpdated(ev));
      if !ok {
        return Failure(SendError);
      }
      r := updated;
    }

    /** `UpdateOrderMessaging`: applies an update event and replies to the orchestrator. */
    method UpdateOrderMessaging(req: GlobalEvent<OrderUpdateRequest, Json>, now: int) returns (r: Result<(), OrderError>)
      requires uuids != randoms
      modifies queries`writes, producer`sent, uuids, randoms
      ensures (State(), r) == UpdateOrderMessagingSpec(old(Environment()), old(State()), req, now)
    {
      var found := queries.FindOrderByRefID(req.payload.request.refId);
      if found.Failure? {
        return Failure(StoreError(found.error));
      }
      var order := found.value;
      var updateReq;
      if req.eventType == OrderProcess {
        updateReq := OrderUpdateRequest(order.refId, req.payload.request.amount, req.payload.request.quantity,
                                        req.payload.request.status, req.eventType);
      } else {
        updateReq := OrderUpdateRequest(order.refId, AmountOf(order), order.quantity, req.payload.request.status,
                                        req.eventType);
      }
      var updated := UpdateOrder(updateReq);
      if updated.Failure? {
        return Failure(updated.error);
      }
      var ev := NewGlobalEvent(uuids, randoms, "update", "success", "order_updated", req.eventType,
                               BasePayload(req.payload.request, updated.value), now);
      ev := ev.(eventId := req.eventId, instanceId := req.instanceId, statusCode := 200);
      var ok := Send(OrderUpdated(ev));
      if !ok {
        return Failure(SendError);
      }
      r := Success(());
    }
  }
}
