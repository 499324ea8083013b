/** The properties of the two retries, proved about `RetrySpec` and `ProductRetrySpec`. */
module RetryLemmas {
  import opened Wrappers
  import opened Json
  import opened Events
  import opened Messaging
  import opened Store
  import opened OrchestraEvent
  import opened OrchestraSpec
  import opened RetryModel

  /**
   * Which check rejects a retry: the lookup, then the "error" status, then
   * the presence of a snapshot, then its decoding, each exactly when the
   * earlier ones pass and its own fails.
   */
  lemma SourceRejections(db: Db, eventId: string, instanceId: string)
    ensures var src := Source(db, eventId, instanceId);
      var found := Locate(db, eventId, instanceId);
      (src == Failure(Lookup(NoRows)) <==> found.Failure?)
      && (src == Failure(NotFailed) <==> found.Success? && found.value.row.status != StepError)
      && (src == Failure(InvalidMessage) <==>
            found.Success? && found.value.row.status == StepError && found.value.row.eventMessage.None?)
      && ((src.Failure? && src.error.Decode?) <==>
            found.Success? && found.value.row.status == StepError
            && found.value.row.eventMessage.Some? && found.value.row.eventMessage.value.Corrupt?)
      && (src.Success? <==>
            found.Success? && found.value.row.status == StepError
            && found.value.row.eventMessage.Some? && found.value.row.eventMessage.value.Encoded?)
  {
  }

  /** A retry that is turned away by one of its checks changes nothing: no row update, no publish, no id drawn. */
  lemma RetryRejectionHasNoEffect(env: Env, s: RetryState, req: RetryRequest, now: int)
    requires Source(s.db, req.eventId, req.instanceId).Failure?
    ensures RetrySpec(env, s, req, now) == (s, Failure(Source(s.db, req.eventId, req.instanceId).error))
  {
  }

  /** The same holds for the product retry, where a request that does not decode is turned away as well. */
  lemma ProductRetryRejectionHasNoEffect(env: Env, s: RetryState, req: ProductQuantityRetryRequest, now: int)
    ensures var (s', r) := ProductRetrySpec(env, s, req, now);
      (Source(s.db, req.eventId, req.instanceId).Failure? ==>
         s' == s && r == Failure(Source(s.db, req.eventId, req.instanceId).error))
      && (r.Failure? && !r.error.SendFailed? && !r.error.Update? ==> s' == s)
      && (r.Failure? && r.error.Update? ==> s'.db == s.db && s'.sent == s.sent && s'.drawn == s.drawn + 1)
  {
  }

  /** The retried envelope keeps the snapshot's identity and is marked as a successful retry with code 200. */
  lemma RetriedEventShape<R>(snap: Event, request: R, state: string, now: int)
    ensures var e := RetriedEvent(snap, request, state, now);
      e.eventId == snap.eventId && e.instanceId == snap.instanceId && e.eventType == snap.eventType
      && e.action == "retry" && e.status == "success" && e.statusCode == 200 && e.source == OrchestraSource
      && e.state == state && e.payload == BasePayload(request, snap.payload.response)
  {
  }

  /**
   * The shared tail: when the row update fails, nothing changes, nothing is
   * published and the update's error is returned; otherwise it updates
   * exactly the row of the envelope's event id, to "in_progress" with the
   * envelope as its snapshot and `now` as its start, clearing the code,
   * response and completion, and it publishes the envelope to `topic`
   * exactly when the topic takes it.
   */
  lemma RedriveEffect(env: Env, s: RetryState, topic: string, ev: Event, now: int)
    requires ev.eventId in s.db.rows
    ensures var (s', out) := Redrive(env, s, topic, ev, now);
      (RowUpdate(ev.eventId) in env.down ==> s' == s && out == Failure(Update(Unavailable)))
      && (RowUpdate(ev.eventId) !in env.down ==>
            var row := s'.db.rows[ev.eventId];
            s'.db == s.db.(rows := s'.db.rows) && s'.db.rows.Keys == s.db.rows.Keys
            && (forall e :: e in s.db.rows && e != ev.eventId ==> s'.db.rows[e] == s.db.rows[e])
            && row == s.db.rows[ev.eventId].(status := InProgress, eventMessage := Some(ToJson(ev)),
                                              statusCode := None, response := None, startedAt := Some(now),
                                              completedAt := None)
            && s'.drawn == s.drawn + 1
            && (out.Success? <==> topic !in env.unavailable)
            && (out.Failure? ==> out.error == SendFailed(topic))
            && s'.sent == if out.Success? then s.sent + [Message(topic, env.gen(s.drawn), ToJson(ev))] else s.sent)
  {
  }

  /** Under `SnapshotsKeyed`, a retry that passes its checks re-drives the very row it was asked about. */
  lemma SourceIsKeyed(db: Db, eventId: string, instanceId: string)
    requires SnapshotsKeyed(db) && Source(db, eventId, instanceId).Success?
    ensures var (topic, snap) := Source(db, eventId, instanceId).value;
      snap.eventId == eventId && eventId in db.rows && db.rows[eventId].instanceId == instanceId
      && db.rows[eventId].stepId in db.steps && topic == db.steps[db.rows[eventId].stepId].topic
  {
    var found := Locate(db, eventId, instanceId).value;
    assert found.row == db.rows[eventId];
  }

  /**
   * `RetryFailedInstanceStep` on a row in status "error" with a decodable
   * snapshot: when the row update fails the call returns that error with
   * the row unchanged and nothing published; otherwise the row is back
   * "in_progress" with the retried envelope as its snapshot, the envelope
   * goes to the step's topic, and the call succeeds exactly when the send
   * does, returning what was published.
   */
  lemma RetryRedrivesFailedStep(env: Env, s: RetryState, req: RetryRequest, now: int)
    requires SnapshotsKeyed(s.db) && Source(s.db, req.eventId, req.instanceId).Success?
    ensures var (topic, snap) := Source(s.db, req.eventId, req.instanceId).value;
      var (s', r) := RetrySpec(env, s, req, now);
      var ev := RetriedEvent(snap, snap.payload.request, snap.state, now);
      (RowUpdate(req.eventId) in env.down ==>
         r == Failure(Update(Unavailable)) && s'.db == s.db && s'.sent == s.sent && s'.drawn == s.drawn + 1)
      && (RowUpdate(req.eventId) !in env.down ==>
            s'.db.rows[req.eventId].status == InProgress && s'.db.rows[req.eventId].eventMessage == Some(ToJson(ev))
            && (forall e :: e in s.db.rows && e != req.eventId ==> s'.db.rows[e] == s.db.rows[e])
            && (r.Success? <==> topic !in env.unavailable)
            && (r.Success? ==> r.value == ev && s'.sent == s.sent + [Message(topic, env.gen(s.drawn + 1), ToJson(r.value))])
            && (r.Failure? ==> r.error == SendFailed(topic) && s'.sent == s.sent))
  {
    SourceIsKeyed(s.db, req.eventId, req.instanceId);
    var (topic, snap) := Source(s.db, req.eventId, req.instanceId).value;
    RedriveEffect(env, Drawn(s), topic, RetriedEvent(snap, snap.payload.request, snap.state, now), now);
  }

  /** Decoding the encoding of a `ProductReserveRequest` gives it back. */
  lemma ReserveRoundTrip(r: ProductReserveRequest)
    ensures DecodeReserve(EncodeReserve(r)) == Success(r)
  {
  }

  /**
   * A product request decodes exactly when it is null or an object whose
   * "product_id" is absent, null or a string and whose "quantity" is absent,
   * null or a 64-bit integer; every other member is dropped.
   */
  lemma DecodeReserveSucceedsIff(j: Json)
    ensures DecodeReserve(j).Success? <==>
      j.JNull? || (j.JObject? && StringMember(j.fields, "product_id").Success?
                   && IntMember(j.fields, "quantity").Success?)
    ensures DecodeReserve(j).Success? && j.JObject? ==>
      DecodeReserve(j).value == ProductReserveRequest(StringMember(j.fields, "product_id").value,
                                                      IntMember(j.fields, "quantity").value)
    ensures (j.JObject? && "product_id" in j.fields && j.fields["product_id"].JString? && DecodeReserve(j).Success?)
            ==> DecodeReserve(j).value.productId == j.fields["product_id"].s
  {
  }

  /**
   * `ProductQuantityRetry` on a row in status "error" whose snapshot and
   * request decode: when the row update fails the call returns that error
   * with the row unchanged and nothing published; otherwise the row is back
   * "in_progress" with the retried envelope, whose state is "product_retry"
   * and whose request keeps the product id and takes the caller's quantity;
   * the call succeeds exactly when the send does, and what it returns is
   * what was published.
   */
  lemma ProductRetryRedrivesFailedStep(env: Env, s: RetryState, req: ProductQuantityRetryRequest, now: int)
    requires SnapshotsKeyed(s.db) && Source(s.db, req.eventId, req.instanceId).Success?
    requires DecodeReserve(Source(s.db, req.eventId, req.instanceId).value.1.payload.request).Success?
    ensures var (topic, snap) := Source(s.db, req.eventId, req.instanceId).value;
      var old_ := DecodeReserve(snap.payload.request).value;
      var (s', r) := ProductRetrySpec(env, s, req, now);
      var ev := RetriedEvent(snap, ProductReserveRequest(old_.productId, req.quantity), "product_retry", now);
      (RowUpdate(req.eventId) in env.down ==>
         r == Failure(Update(Unavailable)) && s'.db == s.db && s'.sent == s.sent && s'.drawn == s.drawn + 1)
      && (RowUpdate(req.eventId) !in env.down ==>
            s'.db.rows[req.eventId].status == InProgress
            && s'.db.rows[req.eventId].eventMessage == Some(ToJson(Untyped(ev)))
            && (forall e :: e in s.db.rows && e != req.eventId ==> s'.db.rows[e] == s.db.rows[e])
            && (r.Success? <==> topic !in env.unavailable)
            && (r.Success? ==> r.value == ev
                               && s'.sent == s.sent + [Message(topic, env.gen(s.drawn + 1), ToJson(Untyped(r.value)))])
            && (r.Failure? ==> r.error == SendFailed(topic) && s'.sent == s.sent))
  {
    SourceIsKeyed(s.db, req.eventId, req.instanceId);
    var (topic, snap) := Source(s.db, req.eventId, req.instanceId).value;
    var r := DecodeReserve(snap.payload.request).value;
    RedriveEffect(env, Drawn(s), topic, Untyped(RetriedEvent(snap, r.(quantity := req.quantity), "product_retry", now)), now);
  }

  /** What the product retry publishes decodes back to the typed envelope it returns. */
  lemma ProductRetryPublishesWhatItReturns(env: Env, s: RetryState, req: ProductQuantityRetryRequest, now: int)
    ensures var (s', r) := ProductRetrySpec(env, s, req, now);
      r.Success? ==> |s'.sent| == |s.sent| + 1 && s'.sent[|s.sent|].value.Encoded?
                     && DecodeReserve(s'.sent[|s.sent|].value.event.payload.request) == Success(r.value.payload.request)
  {
    var (s', r) := ProductRetrySpec(env, s, req, now);
    if r.Success? {
      ReserveRoundTrip(r.value.payload.request);
    }
  }

  /** The shared tail stores only a snapshot under its own event id. */
  lemma RedriveKeepsSnapshotsKeyed(env: Env, s: RetryState, topic: string, ev: Event, now: int)
    requires SnapshotsKeyed(s.db)
    ensures SnapshotsKeyed(Redrive(env, s, topic, ev, now).0.db)
  {
    var rows' := Redrive(env, s, topic, ev, now).0.db.rows;
    forall e | e in rows' && rows'[e].eventMessage.Some? && rows'[e].eventMessage.value.Encoded?
      ensures rows'[e].eventMessage.value.event.eventId == e
    {
      if e != ev.eventId {
        assert rows'[e] == s.db.rows[e];
      }
    }
  }

  /** `RetryFailedInstanceStep` keeps every stored snapshot keyed by its row. */
  lemma RetryKeepsSnapshotsKeyed(env: Env, s: RetryState, req: RetryRequest, now: int)
    requires SnapshotsKeyed(s.db)
    ensures SnapshotsKeyed(RetrySpec(env, s, req, now).0.db)
  {
    match Source(s.db, req.eventId, req.instanceId)
    case Failure(_) =>
    case Success((topic, snap)) =>
      RedriveKeepsSnapshotsKeyed(env, Drawn(s), topic, RetriedEvent(snap, snap.payload.request, snap.state, now), now);
  }

  /** `ProductQuantityRetry` keeps every stored snapshot keyed by its row. */
  lemma ProductRetryKeepsSnapshotsKeyed(env: Env, s: RetryState, req: ProductQuantityRetryRequest, now: int)
    requires SnapshotsKeyed(s.db)
    ensures SnapshotsKeyed(ProductRetrySpec(env, s, req, now).0.db)
  {
    match Source(s.db, req.eventId, req.instanceId)
    case Failure(_) =>
    case Success((topic, snap)) =>
      match DecodeReserve(snap.payload.request)
      case Failure(_) =>
      case Success(r) =>
        var ev := RetriedEvent(snap, r.(quantity := req.quantity), "product_retry", now);
        RedriveKeepsSnapshotsKeyed(env, Drawn(s), topic, Untyped(ev), now);
  }
}
