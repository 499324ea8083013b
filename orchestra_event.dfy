/**
 * The orchestrator's envelope constructor `NewGlobalEvent`
 * (orchestra-svc/internal/dto/event/global_event.go): a fresh event id, the
 * clock reading, source "orchestra-svc", the given action, status and
 * payload, and Go's zero value in every other field.
 */
module OrchestraEvent {
  import opened Events

  /** The `source` of every envelope the orchestrator builds. */
  const OrchestraSource := "orchestra-svc"

  function Envelope<R, S>(id: string, action: string, status: string, payload: BasePayload<R, S>, now: int): GlobalEvent<R, S>
  {
    GlobalEvent(id, "", "", "", now, OrchestraSource, action, status, 0, payload)
  }

  /** Draws the event id from `uuids`. */
  method NewGlobalEvent<R, S>(uuids: Supply, action: string, status: string, payload: BasePayload<R, S>, now: int)
    returns (e: GlobalEvent<R, S>)
    modifies uuids
    ensures uuids.drawn == old(uuids.drawn) + 1
    ensures e == Envelope(uuids.gen(old(uuids.drawn)), action, status, payload, now)
    ensures e.eventId == uuids.gen(old(uuids.drawn)) && e.source == OrchestraSource
    ensures e.action == action && e.status == status && e.payload == payload
  {
    var id := uuids.Next();
    e := Envelope(id, action, status, payload, now);
  }
}
