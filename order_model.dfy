/**
 * What `OrderUsecase` (order-svc/internal/usecase/order_usecase.go) does,
 * given the store's answers: which writes it issues, what it publishes and
 * what it returns.
 */
module OrderModel {
  import opened Wrappers
  import opened Json
  import opened Events
  import opened Messaging
  import opened OrderSvc

  datatype CreateOrderParams = CreateOrderParams(refId: string, customerId: string, username: string,
                                                 productId: string, quantity: int, status: string)

  datatype UpdateOrderParams = UpdateOrderParams(status: string, amount: Option<int>, quantity: int, refId: string)

  /** A write issued to the orders table. */
  datatype OrderWrite = CreateOrderCall(create: CreateOrderParams) | UpdateOrderCall(update: UpdateOrderParams)

  /** The store's answer to each query, standing for the database behind `sqlc.Querier`. */
  datatype OrderAnswers = OrderAnswers(
    createOrder: CreateOrderParams -> Result<Order, string>,
    findOrderById: int -> Result<Order, string>,
    findOrderByRefId: string -> Result<Order, string>,
    updateOrder: UpdateOrderParams -> Result<Order, string>)

  datatype OrderError =
    | StoreError(message: string)
    | CannotCancel         // ErrCannotCancelOrder, "cannot cancel uncomplete order"
    | UnauthorizedCancel   // ErrUnauthorizeCancelOrder, "user unauthorize to cancel order"
    | SendError

  type OrderEnv = SvcEnv<OrderAnswers>
  type OrderState = SvcState<OrderWrite>

  /** The prefix of every order reference. */
  const RefPrefix := "TOKPED-"

  /** The row `CreateOrder` asks the store to insert, given the uuid it drew. */
  function CreateParams(req: OrderRequest, id: string): CreateOrderParams
  {
    CreateOrderParams(RefPrefix + id, req.customerId, req.username, req.productId, req.quantity, Processing)
  }

  /** `order.Amount.Float64`: a null amount reads as 0. */
  function AmountOf(order: Order): int
  {
    if order.amount.Some? then order.amount.value else 0
  }

  /** The publish that ends a successful call: `ok` tells whether the record went out. */
  function Finish<T>(env: OrderEnv, s: OrderState, ev: OutboundEvent, value: T): (OrderState, Result<T, OrderError>)
  {
    var (s', ok) := Publish(env, s, ev);
    (s', if ok then Success(value) else Failure(SendError))
  }

  /** One `CreateOrder`. */
  function CreateOrderSpec(env: OrderEnv, s: OrderState, req: OrderRequest, now: int): (OrderState, Result<Order, OrderError>)
  {
    var p := CreateParams(req, env.gen(s.drawn));
    var s1 := s.(writes := s.writes + [CreateOrderCall(p)], drawn := s.drawn + 1);
    match env.answers.createOrder(p)
    case Failure(e) => (s1, Failure(StoreError(e)))
    case Success(order) =>
      var ev := Envelope(env.gen(s1.drawn), env.random(s1.randomDrawn), "create", "success", "order_created",
                         OrderProcess, BasePayload(req, order), now).(statusCode := 201);
      Finish(env, Drew(s1), OrderCreated(ev), order)
  }

  /** The store parameters `UpdateOrder` sends for `u`. */
  function UpdateParams(u: OrderUpdateRequest): UpdateOrderParams
  {
    UpdateOrderParams(u.status, Some(u.amount), u.quantity, u.refId)
  }

  /** One `UpdateOrder`. */
  function UpdateOrderSpec(env: OrderEnv, s: OrderState, u: OrderUpdateRequest): (OrderState, Result<Order, OrderError>)
  {
    var s' := s.(writes := s.writes + [UpdateOrderCall(UpdateParams(u))]);
    match env.answers.updateOrder(UpdateParams(u))
    case Failure(e) => (s', Failure(StoreError(e)))
    case Success(order) => (s', Success(order))
  }

  /** The update a cancel asks for: the stored amount and quantity, status "CANCEL_PROCESSING". */
  function CancelUpdate(order: Order): OrderUpdateRequest
  {
    OrderUpdateRequest(order.refId, AmountOf(order), order.quantity, CancelProcessing, OrderCancelProcess)
  }

  /** One `CancelOrder`. */
  function CancelOrderSpec(env: OrderEnv, s: OrderState, req: OrderCancelRequest, now: int)
    : (OrderState, Result<Order, OrderError>)
  {
    match env.answers.findOrderById(req.orderId)
    case Failure(e) => (s, Failure(StoreError(e)))
    case Success(order) =>
      if order.status != Complete then (s, Failure(CannotCancel))
      else if req.username != order.username then (s, Failure(UnauthorizedCancel))
      else
        var u := CancelUpdate(order);
        var (s1, updated) := UpdateOrderSpec(env, s, u);
        match updated
        case Failure(e) => (s1, Failure(e))
        case Success(row) =>
          var ev := Envelope(env.gen(s1.drawn), env.random(s1.randomDrawn), "update", "success", "order_cancel",
                             OrderCancelProcess, BasePayload(u, row), now).(statusCode := 200);
          Finish(env, Drew(s1), OrderUpdated(ev), row)
  }

  /**
   * The update `UpdateOrderMessaging` asks for: on an "order_process"
   * event the amount, quantity and status of the request; on any other the
   * stored amount and quantity with the request's status.
   */
  function SelectedUpdate(req: GlobalEvent<OrderUpdateRequest, Json>, order: Order): OrderUpdateRequest
  {
    var r := req.payload.request;
    if req.eventType == OrderProcess then OrderUpdateRequest(order.refId, r.amount, r.quantity, r.status, req.eventType)
    else OrderUpdateRequest(order.refId, AmountOf(order), order.quantity, r.status, req.eventType)
  }

  /** The reply to an update event: "order_updated", code 200, carrying the event's ids and type. */
  function UpdateReply(env: OrderEnv, s: OrderState, req: GlobalEvent<OrderUpdateRequest, Json>, row: Order, now: int)
    : GlobalEvent<OrderUpdateRequest, Order>
  {
    Envelope(env.gen(s.drawn), env.random(s.randomDrawn), "update", "success", "order_updated", req.eventType,
             BasePayload(req.payload.request, row), now).(eventId := req.eventId, instanceId := req.instanceId,
                                                          statusCode := 200)
  }

  /** One `UpdateOrderMessaging`. */
  function UpdateOrderMessagingSpec(env: OrderEnv, s: OrderState, req: GlobalEvent<OrderUpdateRequest, Json>, now: int)
    : (OrderState, Result<(), OrderError>)
  {
    match env.answers.findOrderByRefId(req.payload.request.refId)
    case Failure(e) => (s, Failure(StoreError(e)))
    case Success(order) =>
      var (s1, updated) := UpdateOrderSpec(env, s, SelectedUpdate(req, order));
      match updated
      case Failure(e) => (s1, Failure(e))
      case Success(row) => Finish(env, Drew(s1), OrderUpdated(UpdateReply(env, s1, req, row, now)), ())
  }
}
