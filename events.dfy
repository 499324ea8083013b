/**
 * The event envelope every service exchanges (`GlobalEvent` and `BasePayload`
 * of each service's `internal/dto/event/global_event.go`), the serialised form
 * the orchestrator stores and publishes, and the fresh-value supplies that
 * stand for `uuid.New()` and the order service's random instance ids.
 */
module Events {
  import opened Wrappers
  import opened Json

  datatype BasePayload<R, S> = BasePayload(request: R, response: S)

  /** Timestamps are abstract clock readings. */
  datatype GlobalEvent<R, S> = GlobalEvent(
    eventId: string,
    instanceId: string,
    eventType: string,
    state: string,
    timestamp: int,
    source: string,
    action: string,
    status: string,
    statusCode: int,
    payload: BasePayload<R, S>)

  /** The untyped envelope the orchestrator reads and writes. */
  type Event = GlobalEvent<Json, Json>

  /**
   * The bytes `ToJSON` produces, kept abstract: either the encoding of an
   * envelope, or a stored text that does not decode as one.
   */
  datatype Snapshot = Encoded(event: Event) | Corrupt(raw: string)

  /** `ToJSON` of an untyped envelope. */
  function ToJson(e: Event): Snapshot
  {
    Encoded(e)
  }

  /** `FromJSON` into an untyped envelope. */
  function FromJson(s: Snapshot): Result<Event, string>
  {
    match s
    case Encoded(e) => Success(e)
    case Corrupt(raw) => Failure("invalid character in " + raw)
  }

  /** `int32(x)`: the two's-complement truncation Go applies before storing a status code. */
  function Int32(x: int): (r: int)
    ensures -0x8000_0000 <= r < 0x8000_0000
    ensures -0x8000_0000 <= x < 0x8000_0000 ==> r == x
    ensures (r - x) % 0x1_0000_0000 == 0
  {
    (x + 0x8000_0000) % 0x1_0000_0000 - 0x8000_0000
  }

  /**
   * A source of fresh strings, standing for `uuid.New()` or for
   * `GenerateRandom6Char`: the `n`-th value drawn is `gen(n)`.
   */
  class Supply {
    const gen: nat -> string
    var drawn: nat

    constructor (gen: nat -> string)
      ensures this.gen == gen && drawn == 0
    {
      this.gen := gen;
      drawn := 0;
    }

    method Next() returns (v: string)
      modifies this
      ensures v == gen(old(drawn)) && drawn == old(drawn) + 1
    {
      v := gen(drawn);
      drawn := drawn + 1;
    }
  }
}

/** The producers: each send appends one record to the log of a broker. */
module Messaging {
  /** One record as handed to the broker: topic, message key and value. */
  datatype Message<M> = Message(topic: string, key: string, value: M)

  /**
   * `KafkaProducer`: `topic` is the topic a service producer is bound to;
   * sends to a topic in `unavailable` fail and append nothing.
   */
  class Producer<M> {
    const topic: string
    var sent: seq<Message<M>>
    var unavailable: set<string>

    constructor (topic: string, unavailable: set<string>)
      ensures this.topic == topic && sent == [] && this.unavailable == unavailable
    {
      this.topic := topic;
      sent := [];
      this.unavailable := unavailable;
    }

    /** `SendMessage(topic, key, value)` of the orchestrator's producer. */
    method SendTo(t: string, key: string, value: M) returns (ok: bool)
      modifies this`sent
      ensures ok <==> t !in unavailable
      ensures sent == if ok then old(sent) + [Message(t, key, value)] else old(sent)
    {
      ok := t !in unavailable;
      if ok {
        sent := sent + [Message(t, key, value)];
      }
    }

    /** `SendMessage(key, value)` of a service producer bound to `topic`. */
    method Send(key: string, value: M) returns (ok: bool)
      modifies this`sent
      ensures ok <==> topic !in unavailable
      ensures sent == if ok then old(sent) + [Message(topic, key, value)] else old(sent)
    {
      ok := SendTo(topic, key, value);
    }
  }
}
