/**
 * `PayloadCache` (orchestra-svc/internal/repository/cache/payload.go): for
 * every saga instance id, a bag mapping a source service's name to the last
 * response that service reported.
 */
module PayloadCache {
  import opened Json

  /** One instance's bag: source service name to its last response. */
  type Bag = map<string, Json>

  class PayloadCache {
    var data: map<string, Bag>

    /** `NewPayloadCache`: an empty cache. */
    constructor ()
      ensures data == map[]
    {
      data := map[];
    }

    /** Stores `value` under `key`; every other key keeps its bag. */
    method Set(key: string, value: Bag)
      modifies this
      ensures data == old(data)[key := value]
      ensures forall k :: k in old(data) && k != key ==> k in data && data[k] == old(data)[k]
    {
      data := data[key := value];
    }

    /** The bag under `key` and whether there is one; a miss reads as the empty bag. */
    method Get(key: string) returns (value: Bag, ok: bool)
      ensures ok <==> key in data
      ensures ok ==> value == data[key]
      ensures !ok ==> value == map[]
    {
      ok := key in data;
      value := if ok then data[key] else map[];
    }

    /** Removes `key`; removing an absent key changes nothing. */
    method Delete(key: string)
      modifies this
      ensures data == old(data) - {key}
      ensures key !in data
      ensures key !in old(data) ==> data == old(data)
    {
      data := data - {key};
    }

    /** The whole key-to-bag mapping. */
    method GetAll() returns (all: map<string, Bag>)
      ensures all == data
    {
      all := data;
    }

    /** Drops every entry: afterwards every `Get` misses. */
    method Clear()
      modifies this
      ensures data == map[]
    {
      data := map[];
    }
  }
}
