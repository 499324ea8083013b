/**
 * What `RetryUsecase` (orchestra-svc/internal/usecase/retry_usecase.go) does:
 * a step row in status "error" is re-driven by rebuilding its command from
 * the stored snapshot, marking the row "in_progress" again and republishing
 * to the step's topic.
 */
module RetryModel {
  import opened Wrappers
  import opened Json
  import opened Events
  import opened Messaging
  import opened Store
  import opened OrchestraEvent
  import opened OrchestraSpec

  /** Go's `int` on the 64-bit targets the services are built for. */
  type Int64 = x: int | -0x8000_0000_0000_0000 <= x < 0x8000_0000_0000_0000

  /** `dto.RetryRequest`. */
  datatype RetryRequest = RetryRequest(eventId: string, instanceId: string)

  /** `dto.ProductQuantityRetryRequest`. */
  datatype ProductQuantityRetryRequest = ProductQuantityRetryRequest(quantity: Int64, eventId: string, instanceId: string)

  /** `dto.ProductReserveRequest`: the only request members a product retry keeps. */
  datatype ProductReserveRequest = ProductReserveRequest(productId: string, quantity: Int64)

  /** The envelope `ProductQuantityRetry` returns, with a typed request. */
  type ProductEvent = GlobalEvent<ProductReserveRequest, Json>

  datatype RetryError =
    | Lookup(cause: DbError)     // no row with this event id and instance id
    | NotFailed                  // "step is not in failed state"
    | InvalidMessage             // "event message is not valid"
    | Decode(reason: string)     // the snapshot does not decode
    | Update(cause: DbError)     // the row update failed
    | SendFailed(topic: string)  // the producer rejected the record

  /** The part of the orchestrator's state a retry reads and writes. */
  datatype RetryState = RetryState(db: Db, sent: seq<Message<Snapshot>>, drawn: nat)

  /** What `FindWorkflowInstanceStepsByEventIDAndInsID` returns. */
  function Locate(db: Db, eventId: string, instanceId: string): Result<RowWithTopic, DbError>
  {
    if eventId in db.rows && db.rows[eventId].instanceId == instanceId && db.rows[eventId].stepId in db.steps
    then Success(RowWithTopic(db.rows[eventId], db.steps[db.rows[eventId].stepId].topic))
    else Failure(NoRows)
  }

  /** The checks both retries make, in order: the row exists, it is "error", it has a snapshot, the snapshot decodes. */
  function Source(db: Db, eventId: string, instanceId: string): Result<(string, Event), RetryError>
  {
    match Locate(db, eventId, instanceId)
    case Failure(e) => Failure(Lookup(e))
    case Success(found) =>
      if found.row.status != StepError then Failure(NotFailed)
      else if found.row.eventMessage.None? then Failure(InvalidMessage)
      else match FromJson(found.row.eventMessage.value)
        case Failure(reason) => Failure(Decode(reason))
        case Success(snap) => Success((found.topic, snap))
  }

  /**
   * The retried envelope: a "retry" / "success" envelope with code 200 that
   * takes the snapshot's ids, type and response, with `request` and `state`.
   */
  function RetriedEvent<R>(snap: Event, request: R, state: string, now: int): GlobalEvent<R, Json>
  {
    var e := Envelope("", "retry", "success", BasePayload(request, snap.payload.response), now);
    e.(state := state, statusCode := 200, eventType := snap.eventType, instanceId := snap.instanceId,
       eventId := snap.eventId)
  }

  /** The parameters of the retry's row update: every column it does not set becomes NULL. */
  function RetryUpdate(ev: Event, now: int): StepUpdate
  {
    StepUpdate(InProgress, Some(ToJson(ev)), None, None, Some(now), None, ev.eventId)
  }

  /**
   * The shared tail, once the envelope is built: update the row of `ev`'s
   * event id, draw the message key, and publish to `topic`; a failed
   * update returns its error before anything is drawn or published, a
   * rejected send the send error.
   */
  function Redrive(env: Env, s: RetryState, topic: string, ev: Event, now: int): (RetryState, Result<(), RetryError>)
  {
    if RowUpdate(ev.eventId) in env.down then (s, Failure(Update(Unavailable)))
    else
      var s' := s.(db := s.db.(rows := UpdateRows(s.db.rows, RetryUpdate(ev, now))), drawn := s.drawn + 1);
      if topic in env.unavailable then (s', Failure(SendFailed(topic)))
      else (s'.(sent := s.sent + [Message(topic, env.gen(s.drawn), ToJson(ev))]), Success(()))
  }

  /** The state once `NewGlobalEvent` has drawn the id it then discards. */
  function Drawn(s: RetryState): RetryState
  {
    s.(drawn := s.drawn + 1)
  }

  /** One `RetryFailedInstanceStep`. */
  function RetrySpec(env: Env, s: RetryState, req: RetryRequest, now: int): (RetryState, Result<Event, RetryError>)
  {
    match Source(s.db, req.eventId, req.instanceId)
    case Failure(e) => (s, Failure(e))
    case Success((topic, snap)) =>
      var ev := RetriedEvent(snap, snap.payload.request, snap.state, now);
      var (s', out) := Redrive(env, Drawn(s), topic, ev, now);
      (s', if out.Success? then Success(ev) else Failure(out.error))
  }

  /** A JSON member decoded into a Go `string` field: absent or null leaves "". */
  function StringMember(fields: map<string, Json>, key: string): Result<string, string>
  {
    if key !in fields then Success("")
    else match fields[key]
      case JNull => Success("")
      case JString(s) => Success(s)
      case _ => Failure("json: cannot unmarshal into Go struct field " + key + " of type string")
  }

  /** A JSON member decoded into a Go `int` field: absent or null leaves 0, an out-of-range number fails. */
  function IntMember(fields: map<string, Json>, key: string): (r: Result<int, string>)
    ensures r.Success? ==> -0x8000_0000_0000_0000 <= r.value < 0x8000_0000_0000_0000
    ensures key !in fields || fields[key].JNull? ==> r == Success(0)
    ensures key in fields && fields[key].JNumber? ==>
      (r.Success? <==> -0x8000_0000_0000_0000 <= fields[key].n < 0x8000_0000_0000_0000)
      && (r.Success? ==> r.value == fields[key].n)
    ensures key in fields && !fields[key].JNull? && !fields[key].JNumber? ==> r.Failure?
  {
    if key !in fields then Success(0)
    else match fields[key]
      case JNull => Success(0)
      case JNumber(n) =>
        if -0x8000_0000_0000_0000 <= n < 0x8000_0000_0000_0000 then Success(n)
        else Failure("json: cannot unmarshal number into Go struct field " + key + " of type int")
      case _ => Failure("json: cannot unmarshal into Go struct field " + key + " of type int")
  }

  /** Decoding a request into `ProductReserveRequest`: members other than the two fields are dropped. */
  function DecodeReserve(j: Json): Result<ProductReserveRequest, string>
  {
    match j
    case JNull => Success(ProductReserveRequest("", 0))
    case JObject(fields) =>
      var id :- StringMember(fields, "product_id");
      var quantity :- IntMember(fields, "quantity");
      Success(ProductReserveRequest(id, quantity))
    case _ => Failure("json: cannot unmarshal into Go value of type dto.ProductReserveRequest")
  }

  /** Encoding a `ProductReserveRequest` as its two JSON members. */
  function EncodeReserve(r: ProductReserveRequest): Json
  {
    JObject(map["product_id" := JString(r.productId), "quantity" := JNumber(r.quantity)])
  }

  /** A typed product envelope as the untyped envelope its encoding decodes to. */
  function Untyped(e: ProductEvent): Event
  {
    GlobalEvent(e.eventId, e.instanceId, e.eventType, e.state, e.timestamp, e.source, e.action, e.status,
                e.statusCode, BasePayload(EncodeReserve(e.payload.request), e.payload.response))
  }

  /** One `ProductQuantityRetry`. */
  function ProductRetrySpec(env: Env, s: RetryState, req: ProductQuantityRetryRequest, now: int)
    : (RetryState, Result<ProductEvent, RetryError>)
  {
    match Source(s.db, req.eventId, req.instanceId)
    case Failure(e) => (s, Failure(e))
    case Success((topic, snap)) =>
      match DecodeReserve(snap.payload.request)
      case Failure(reason) => (s, Failure(Decode(reason)))
      case Success(r) =>
        var ev := RetriedEvent(snap, r.(quantity := req.quantity), "product_retry", now);
        var (s', out) := Redrive(env, Drawn(s), topic, Untyped(ev), now);
        (s', if out.Success? then Success(ev) else Failure(out.error))
  }
}
