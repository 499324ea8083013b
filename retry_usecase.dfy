/**
 * `RetryUsecase` (orchestra-svc/internal/usecase/retry_usecase.go) as a
 * class over the tables, the producer and the id supply, proved to do what
 * `RetryModel` says.
 */
module Retry {
  import opened Wrappers
  import opened Json
  import opened Events
  import opened Messaging
  import opened Store
  import opened OrchestraEvent
  import opened OrchestraSpec
  import opened RetryModel

  class RetryUsecase {
    const store: Store
    const producer: Producer<Snapshot>
    /** Stands for `uuid.New()`. */
    const uuids: Supply

    /** `NewRetryUsecase`. */
    constructor (store: Store, producer: Producer<Snapshot>, uuids: Supply)
      ensures this.store == store && this.producer == producer && this.uuids == uuids
    {
      this.store := store;
      this.producer := producer;
      this.uuids := uuids;
    }

    ghost function State(): RetryState
      reads store, producer, uuids
    {
      RetryState(store.db, producer.sent, uuids.drawn)
    }

    ghost function Environment(): Env
      reads store, producer
    {
      Env(store.logDown, store.down, producer.unavailable, uuids.gen)
    }

    /** The lookup and the three checks both retries make before touching anything. */
    method LoadSource(eventId: string, instanceId: string) returns (src: Result<(string, Event), RetryError>)
      ensures src == Source(store.db, eventId, instanceId)
    {
      var found := store.FindWorkflowInstanceStepsByEventIDAndInsID(eventId, instanceId);
      if found.Failure? {
        return Failure(Lookup(found.error));
      }
      var row := found.value.row;
      if row.status != StepError {
        return Failure(NotFailed);
      }
      if row.eventMessage.None? {
        return Failure(InvalidMessage);
      }
      var snap := FromJson(row.eventMessage.value);
      if snap.Failure? {
        return Failure(Decode(snap.error));
      }
      src := Success((found.value.topic, snap.value));
    }

    /** The update of the row, then, unless it failed, the publish to the step's topic. */
    method Redispatch(topic: string, ev: Event, now: int) returns (r: Result<(), RetryError>)
      modifies store`db, producer`sent, uuids
      ensures (State(), r) == Redrive(old(Environment()), old(State()), topic, ev, now)
    {
      var bytes := ToJson(ev);
      var updated := store.UpdateWorkflowInstanceStep(RetryUpdate(ev, now));
      if updated.Failure? {
        return Failure(Update(updated.error));
      }
      var key := uuids.Next();
      var ok := producer.SendTo(topic, key, bytes);
      r := if ok then Success(()) else Failure(SendFailed(topic));
    }

    /** `RetryFailedInstanceStep`. */
    method RetryFailedInstanceStep(req: RetryRequest, now: int) returns (r: Result<Event, RetryError>)
      modifies store`db, producer`sent, uuids
      ensures (State(), r) == RetrySpec(old(Environment()), old(State()), req, now)
    {
      var src := LoadSource(req.eventId, req.instanceId);
      if src.Failure? {
        return Failure(src.error);
      }
      var (topic, snap) := src.value;
      var ev := NewGlobalEvent(uuids, "retry", "success", snap.payload, now);
      ev := ev.(payload := ev.payload.(request := snap.payload.request), state := snap.state,
                eventType := snap.eventType, instanceId := snap.instanceId, eventId := snap.eventId,
                statusCode := 200);
      assert ev == RetriedEvent(snap, snap.payload.request, snap.state, now);
      var sent := Redispatch(topic, ev, now);
      if sent.Failure? {
        return Failure(sent.error);
      }
      r := Success(ev);
    }

    /** `ProductQuantityRetry`. */
    method ProductQuantityRetry(req: ProductQuantityRetryRequest, now: int) returns (r: Result<ProductEvent, RetryError>)
      modifies store`db, producer`sent, uuids
      ensures (State(), r) == ProductRetrySpec(old(Environment()), old(State()), req, now)
    {
      var src := LoadSource(req.eventId, req.instanceId);
      if src.Failure? {
        return Failure(src.error);
      }
      var (topic, snap) := src.value;
      var request := DecodeReserve(snap.payload.request);
      if request.Failure? {
        return Failure(Decode(request.error));
      }
      var ev := NewGlobalEvent(uuids, "retry", "success", BasePayload(request.value, snap.payload.response), now);
      ev := ev.(state := "product_retry", statusCode := 200);
      ev := ev.(payload := ev.payload.(request := ev.payload.request.(quantity := req.quantity)));
      ev := ev.(eventType := snap.eventType, instanceId := snap.instanceId, eventId := snap.eventId);
      assert ev == RetriedEvent(snap, request.value.(quantity := req.quantity), "product_retry", now);
      var sent := Redispatch(topic, Untyped(ev), now);
      if sent.Failure? {
        return Failure(sent.error);
      }
      r := Success(ev);
    }
  }
}
