/**
 * What the two usecases of order-svc share: the request and row shapes of
 * order-svc/internal/dto, the events they publish on the one producer bound
 * to the orchestrator's topic, the envelope constructor of
 * order-svc/internal/dto/event/global_event.go, and the state a call changes.
 * Amounts and deposits, `float64` in the source, are integers here.
 */
module OrderSvc {
  import opened Wrappers
  import opened Json
  import opened Events
  import opened Messaging

  /** Order statuses (order-svc/internal/dto/order_request.go). */
  const Processing := "PROCESSING"
  const CancelProcessing := "CANCEL_PROCESSING"
  const Complete := "COMPLETE"

  /** Event types (order-svc/internal/dto/event/global_event.go). */
  const OrderProcess := "order_process"
  const OrderCancelProcess := "order_cancel_process"
  const BankAccountRegistration := "bank_account_registration"

  /** The `source` of every envelope order-svc builds. */
  const OrderSource := "order-svc"

  datatype OrderRequest = OrderRequest(productId: string, quantity: int, customerId: string, username: string)

  /** An `orders` row; `amount` is a nullable column. */
  datatype Order = Order(id: int, refId: string, customerId: string, username: string, productId: string,
                         quantity: int, status: string, amount: Option<int>)

  /** The update request as the usecases build and read it. */
  datatype OrderUpdateRequest = OrderUpdateRequest(refId: string, amount: int, quantity: int, status: string,
                                                   eventType: string)

  datatype OrderCancelRequest = OrderCancelRequest(orderId: int, username: string)

  datatype BankRegistrationRequest = BankRegistrationRequest(username: string, email: string, deposit: int)

  /** A `bank_account_registrations` row. */
  datatype BankAccount = BankAccount(customerId: string, username: string, email: string, status: string,
                                     deposit: int)

  datatype BankRegistrationUpdate = BankRegistrationUpdate(customerId: string, username: string, email: string,
                                                           status: string)

  /** What order-svc publishes to the orchestrator. */
  datatype OutboundEvent =
    | OrderCreated(created: GlobalEvent<OrderRequest, Order>)
    | OrderUpdated(updated: GlobalEvent<OrderUpdateRequest, Order>)
    | BankRegistered(registered: GlobalEvent<BankRegistrationRequest, BankAccount>)
    | BankUpdated(changed: GlobalEvent<BankRegistrationUpdate, BankAccount>)

  /** The instance id `NewGlobalEvent` makes from six random characters. */
  function InstanceIdOf(random: string): string
  {
    "I-" + random
  }

  /** The envelope `NewGlobalEvent` builds from a uuid and a random suffix; the status code stays 0. */
  function Envelope<R, S>(id: string, random: string, action: string, status: string, state: string,
                          eventType: string, payload: BasePayload<R, S>, now: int): GlobalEvent<R, S>
  {
    GlobalEvent(id, InstanceIdOf(random), eventType, state, now, OrderSource, action, status, 0, payload)
  }

  /** `event.NewGlobalEvent` of order-svc: draws the event id from `uuids` and the instance suffix from `randoms`. */
  method NewGlobalEvent<R, S>(uuids: Supply, randoms: Supply, action: string, status: string, state: string,
                              eventType: string, payload: BasePayload<R, S>, now: int) returns (e: GlobalEvent<R, S>)
    requires uuids != randoms
    modifies uuids, randoms
    ensures uuids.drawn == old(uuids.drawn) + 1 && randoms.drawn == old(randoms.drawn) + 1
    ensures e == Envelope(uuids.gen(old(uuids.drawn)), randoms.gen(old(randoms.drawn)), action, status, state,
                          eventType, payload, now)
  {
    var id := uuids.Next();
    var random := randoms.Next();
    e := Envelope(id, random, action, status, state, eventType, payload, now);
  }

  /**
   * What a usecase's environment decides: the store's answer to each query
   * (`answers`), the producer's topic and the topics that reject sends, and
   * the values `uuid.New()` and `GenerateRandom6Char` hand out.
   */
  datatype SvcEnv<A> = SvcEnv(answers: A, topic: string, unavailable: set<string>, gen: nat -> string,
                              random: nat -> string)

  /** The writes issued to the store, the published records and the fresh values used up. */
  datatype SvcState<W> = SvcState(writes: seq<W>, sent: seq<Message<OutboundEvent>>, drawn: nat, randomDrawn: nat)

  /** The state once `NewGlobalEvent` has drawn its id and its random suffix. */
  function Drew<W>(s: SvcState<W>): SvcState<W>
  {
    s.(drawn := s.drawn + 1, randomDrawn := s.randomDrawn + 1)
  }

  /** `SendMessage(uuid.New(), bytes)`: draws the key, then publishes unless the topic rejects it. */
  function Publish<A, W>(env: SvcEnv<A>, s: SvcState<W>, ev: OutboundEvent): (SvcState<W>, bool)
  {
    var s' := s.(drawn := s.drawn + 1);
    if env.topic in env.unavailable then (s', false)
    else (s'.(sent := s.sent + [Message(env.topic, env.gen(s.drawn), ev)]), true)
  }
}
