/** The properties of the order usecase, proved about the functions of `OrderModel`. */
module OrderLemmas {
  import opened Wrappers
  import opened Json
  import opened Events
  import opened Messaging
  import opened OrderSvc
  import opened OrderModel

  /** The state is only ever extended: writes and sends are appended, fresh values only drawn. */
  predicate Extends(s: OrderState, s': OrderState)
  {
    s.writes <= s'.writes && s.sent <= s'.sent && s.drawn <= s'.drawn && s.randomDrawn <= s'.randomDrawn
  }

  /** A call publishes exactly one record when it succeeds and none when it fails. */
  predicate PublishesOnSuccess<T>(s: OrderState, s': OrderState, r: Result<T, OrderError>)
  {
    Extends(s, s') && |s'.sent| == |s.sent| + (if r.Success? then 1 else 0)
  }

  /**
   * `CreateOrder` inserts one row, in status "PROCESSING", whose reference is
   * "TOKPED-" followed by the first uuid it draws, with the caller's customer,
   * user, product and quantity.
   */
  lemma CreateOrderInsertsProcessing(env: OrderEnv, s: OrderState, req: OrderRequest, now: int)
    ensures var (s', _) := CreateOrderSpec(env, s, req, now);
      var p := CreateOrderParams(RefPrefix + env.gen(s.drawn), req.customerId, req.username, req.productId,
                                 req.quantity, "PROCESSING");
      s'.writes == s.writes + [CreateOrderCall(p)]
      && p.refId[..|RefPrefix|] == "TOKPED-"
  {
  }

  /** A failed insert ends `CreateOrder` with the store's error: nothing is published. */
  lemma CreateOrderStoreFailureSendsNothing(env: OrderEnv, s: OrderState, req: OrderRequest, now: int)
    requires env.answers.createOrder(CreateParams(req, env.gen(s.drawn))).Failure?
    ensures var (s', r) := CreateOrderSpec(env, s, req, now);
      r == Failure(StoreError(env.answers.createOrder(CreateParams(req, env.gen(s.drawn))).error))
      && s'.sent == s.sent
  {
  }

  /**
   * After a successful insert `CreateOrder` publishes the initiating event:
   * state "order_created", type "order_process", status "success", code 201,
   * from "order-svc", under a fresh event id and an instance id "I-" plus the
   * random suffix, carrying the request and the stored row; the call returns
   * that row exactly when the record goes out.
   */
  lemma CreateOrderPublishesInitiatingEvent(env: OrderEnv, s: OrderState, req: OrderRequest, now: int)
    requires env.answers.createOrder(CreateParams(req, env.gen(s.drawn))).Success?
    ensures var order := env.answers.createOrder(CreateParams(req, env.gen(s.drawn))).value;
      var (s', r) := CreateOrderSpec(env, s, req, now);
      (r.Success? <==> env.topic !in env.unavailable)
      && (r.Success? ==>
            r.value == order && |s'.sent| == |s.sent| + 1 && s'.sent[..|s.sent|] == s.sent
            && var m := s'.sent[|s.sent|];
               m.topic == env.topic && m.key == env.gen(s.drawn + 2) && m.value.OrderCreated?
               && var e := m.value.created;
                  e.state == "order_created" && e.eventType == "order_process" && e.action == "create"
                  && e.status == "success" && e.statusCode == 201 && e.source == "order-svc"
                  && e.eventId == env.gen(s.drawn + 1) && e.instanceId == "I-" + env.random(s.randomDrawn)
                  && e.timestamp == now && e.payload == BasePayload(req, order))
      && (r.Failure? ==> r == Failure(SendError) && s'.sent == s.sent)
  {
  }

  /**
   * `CancelOrder` turns an order away as "cannot cancel uncomplete order"
   * exactly when it is found and not "COMPLETE", and as "user unauthorize to
   * cancel order" exactly when it is found, "COMPLETE", and owned by someone
   * else; so the status check comes first. Either way, and when the lookup
   * fails, nothing is written or published.
   */
  lemma CancelOrderGuards(env: OrderEnv, s: OrderState, req: OrderCancelRequest, now: int)
    ensures var found := env.answers.findOrderById(req.orderId);
      var (s', r) := CancelOrderSpec(env, s, req, now);
      (r == Failure(CannotCancel) <==> found.Success? && found.value.status != "COMPLETE")
      && (r == Failure(UnauthorizedCancel) <==>
            found.Success? && found.value.status == "COMPLETE" && found.value.username != req.username)
      && (found.Failure? ==> r == Failure(StoreError(found.error)))
      && (found.Failure? || r == Failure(CannotCancel) || r == Failure(UnauthorizedCancel) ==> s' == s)
  {
  }

  /**
   * A cancel that passes both checks issues one update, to
   * "CANCEL_PROCESSING" with the stored quantity and the stored amount (0
   * when it is null), keyed by the order's reference.
   */
  lemma CancelOrderUpdatesToCancelProcessing(env: OrderEnv, s: OrderState, req: OrderCancelRequest, now: int)
    requires env.answers.findOrderById(req.orderId).Success?
    requires env.answers.findOrderById(req.orderId).value.status == Complete
    requires env.answers.findOrderById(req.orderId).value.username == req.username
    ensures var order := env.answers.findOrderById(req.orderId).value;
      var (s', _) := CancelOrderSpec(env, s, req, now);
      var p := s'.writes[|s.writes|].update;
      |s'.writes| == |s.writes| + 1 && s'.writes[..|s.writes|] == s.writes && s'.writes[|s.writes|].UpdateOrderCall?
      && p == UpdateOrderParams("CANCEL_PROCESSING", Some(AmountOf(order)), order.quantity, order.refId)
      && (order.amount.Some? ==> p.amount == order.amount)
  {
  }

  /**
   * After a successful update the cancel publishes state "order_cancel", type
   * "order_cancel_process", code 200, with the update request it made and the
   * updated row, and returns that row when the record goes out; a failed
   * update returns its error and publishes nothing.
   */
  lemma CancelOrderPublishes(env: OrderEnv, s: OrderState, req: OrderCancelRequest, now: int)
    requires env.answers.findOrderById(req.orderId).Success?
    requires env.answers.findOrderById(req.orderId).value.status == Complete
    requires env.answers.findOrderById(req.orderId).value.username == req.username
    ensures var order := env.answers.findOrderById(req.orderId).value;
      var u := CancelUpdate(order);
      var updated := env.answers.updateOrder(UpdateParams(u));
      var (s', r) := CancelOrderSpec(env, s, req, now);
      (updated.Failure? ==> r == Failure(StoreError(updated.error)) && s'.sent == s.sent)
      && (updated.Success? ==>
            (r.Success? <==> env.topic !in env.unavailable)
            && (r.Success? ==>
                  r.value == updated.value && |s'.sent| == |s.sent| + 1 && s'.sent[|s.sent|].value.OrderUpdated?
                  && var e := s'.sent[|s.sent|].value.updated;
                     e.state == "order_cancel" && e.eventType == "order_cancel_process" && e.action == "update"
                     && e.status == "success" && e.statusCode == 200 && e.instanceId == InstanceIdOf(env.random(s.randomDrawn))
                     && e.payload == BasePayload(u, updated.value) && u.status == "CANCEL_PROCESSING"))
  {
  }

  /**
   * The update `UpdateOrderMessaging` issues: always keyed by the stored
   * order's reference and with the event's status; on an "order_process"
   * event also the event's amount and quantity, on any other the stored ones.
   */
  lemma UpdateMessagingSelectsFields(env: OrderEnv, s: OrderState, req: GlobalEvent<OrderUpdateRequest, Json>, now: int)
    requires env.answers.findOrderByRefId(req.payload.request.refId).Success?
    ensures var order := env.answers.findOrderByRefId(req.payload.request.refId).value;
      var r := req.payload.request;
      var (s', _) := UpdateOrderMessagingSpec(env, s, req, now);
      var p := s'.writes[|s.writes|].update;
      |s'.writes| == |s.writes| + 1 && s'.writes[..|s.writes|] == s.writes && s'.writes[|s.writes|].UpdateOrderCall?
      && p.refId == order.refId && p.status == r.status
      && (req.eventType == "order_process" ==> p.amount == Some(r.amount) && p.quantity == r.quantity)
      && (req.eventType != "order_process" ==> p.amount == Some(AmountOf(order)) && p.quantity == order.quantity)
  {
  }

  /**
   * A lookup that fails writes and publishes nothing, an update that fails
   * publishes nothing; after a successful update the reply carries the
   * event's own id, instance id and type, state "order_updated", code 200,
   * the event's request and the updated row, and the call succeeds exactly
   * when the reply goes out.
   */
  lemma UpdateMessagingReplies(env: OrderEnv, s: OrderState, req: GlobalEvent<OrderUpdateRequest, Json>, now: int)
    ensures var found := env.answers.findOrderByRefId(req.payload.request.refId);
      var (s', r) := UpdateOrderMessagingSpec(env, s, req, now);
      (found.Failure? ==> s' == s && r == Failure(StoreError(found.error)))
      && (found.Success? ==>
            var updated := env.answers.updateOrder(UpdateParams(SelectedUpdate(req, found.value)));
            (updated.Failure? ==> r == Failure(StoreError(updated.error)) && s'.sent == s.sent)
            && (updated.Success? ==>
                  (r.Success? <==> env.topic !in env.unavailable)
                  && (r.Success? ==>
                        |s'.sent| == |s.sent| + 1 && s'.sent[|s.sent|].value.OrderUpdated?
                        && var e := s'.sent[|s.sent|].value.updated;
                           e.eventId == req.eventId && e.instanceId == req.instanceId && e.eventType == req.eventType
                           && e.state == "order_updated" && e.action == "update" && e.status == "success"
                           && e.statusCode == 200 && e.payload == BasePayload(req.payload.request, updated.value))))
  {
  }

  /** Every order operation only extends the state, and publishes one record exactly when it succeeds. */
  lemma CreateOrderPublishesOnSuccess(env: OrderEnv, s: OrderState, now: int, create: OrderRequest)
    ensures var (s', r) := CreateOrderSpec(env, s, create, now); PublishesOnSuccess(s, s', r)
  {
  }

  lemma CancelOrderPublishesOnSuccess(env: OrderEnv, s: OrderState, now: int, cancel: OrderCancelRequest)
    ensures var (s', r) := CancelOrderSpec(env, s, cancel, now); PublishesOnSuccess(s, s', r)
  {
  }

  lemma UpdateMessagingPublishesOnSuccess(env: OrderEnv, s: OrderState, now: int,
                                          update: GlobalEvent<OrderUpdateRequest, Json>)
    ensures var (s', r) := UpdateOrderMessagingSpec(env, s, update, now); PublishesOnSuccess(s, s', r)
  {
  }
}
