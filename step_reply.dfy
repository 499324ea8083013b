/**
 * What the step services of payment-svc and product-svc share: the shape of
 * a provider's answer, the envelope their `NewGlobalEvent` builds, and the
 * tail every handler ends with: publish the reply, then report.
 */
module StepReply {
  import opened Wrappers
  import opened Json
  import opened Events
  import opened Messaging

  /** `dto.BaseResponse[T]`: the HTTP status, the error text ("" for none) and the data. */
  datatype BaseResponse<T> = BaseResponse(statusCode: int, error: string, data: T)

  /** `dto.ErrorResponse`. */
  datatype ErrorResponse = ErrorResponse(error: string)

  /**
   * A provider's two results: the response (`None` for a nil response) and the
   * error (`None` for a nil error).
   */
  datatype ProviderAnswer<T> = ProviderAnswer(response: Option<BaseResponse<T>>, err: Option<ErrorResponse>)

  /** What a reply carries as its response: the provider's error, its whole response, or its data. */
  datatype ReplyPayload<T> = Failed(cause: ErrorResponse) | Rejected(whole: BaseResponse<T>) | Data(data: T)

  /** How a handler ends when it does not end with `nil`. */
  datatype CallError =
    | SendFailed                                                // "failed to send message: …"
    | ProcessingFailed(operation: string, cause: ErrorResponse)  // "<operation> failed: …"
    | Panicked                                                  // a nil response is dereferenced

  /** The provider's answers, the producer's topic and the topics that reject sends, and `uuid.New()`. */
  datatype StepEnv<P> = StepEnv(provider: P, topic: string, unavailable: set<string>, gen: nat -> string)

  /** The published records and the uuids used up. */
  datatype StepState<M> = StepState(sent: seq<Message<M>>, drawn: nat)

  /** The envelope a step service's `NewGlobalEvent` builds; ids, type and code are set afterwards. */
  function StepEnvelope<R, S>(id: string, source: string, action: string, status: string, state: string,
                              payload: BasePayload<R, S>, now: int): GlobalEvent<R, S>
  {
    GlobalEvent(id, "", "", state, now, source, action, status, 0, payload)
  }

  /**
   * The state a handler leaves when it dereferences a nil response: a
   * handler that builds its failure envelope before reading the response
   * has drawn that envelope's uuid by then.
   */
  function AbortState<M, T>(s: StepState<M>, a: ProviderAnswer<T>): StepState<M>
  {
    if a.err.Some? then s.(drawn := s.drawn + 1) else s
  }

  /** The reply keeps the incoming event's id, instance id and type. */
  function Correlated<R, S, Q>(ev: GlobalEvent<R, S>, ge: GlobalEvent<R, Q>): GlobalEvent<R, S>
  {
    ev.(eventId := ge.eventId, instanceId := ge.instanceId, eventType := ge.eventType)
  }

  /** The status code of a failure reply: the provider's own when its response has error text, else 500. */
  function FailureCode<T>(resp: BaseResponse<T>): int
  {
    if resp.error != "" then resp.statusCode else 500
  }

  /**
   * The reply a handler that branches on the provider's error builds: "error" and
   * `failedState` with the error when there is one, else "success" and
   * `successState` with the data; the incoming request is echoed and the
   * incoming ids and type kept. `None` where the handler dereferences a nil
   * response.
   */
  function ProviderReply<R, T>(source: string, ge: GlobalEvent<R, Json>, a: ProviderAnswer<T>, id: string, action: string,
                               failedState: string, successState: string, now: int): Option<GlobalEvent<R, ReplyPayload<T>>>
  {
    if a.response.None? then None
    else
      var resp := a.response.value;
      var ev :=
        if a.err.Some? then
          StepEnvelope(id, source, action, "error", failedState, BasePayload(ge.payload.request, Failed(a.err.value)), now)
            .(statusCode := FailureCode(resp))
        else
          StepEnvelope(id, source, action, "success", successState, BasePayload(ge.payload.request, Data(resp.data)), now)
            .(statusCode := resp.statusCode);
      Some(Correlated(ev, ge))
  }

  /**
   * The reply rule: a provider error gives status "error", the failed state,
   * the error as response and the fallback code; no error gives "success",
   * the success state, the data and the provider's code. Either way the
   * incoming request is echoed, the incoming ids and type are kept, and the
   * source is `source`.
   */
  lemma ProviderReplyRule<R, T>(source: string, ge: GlobalEvent<R, Json>, a: ProviderAnswer<T>, id: string, action: string,
                                failedState: string, successState: string, now: int)
    requires a.response.Some?
    ensures var reply := ProviderReply(source, ge, a, id, action, failedState, successState, now);
      var resp := a.response.value;
      reply.Some? && var e := reply.value;
      e.eventId == ge.eventId && e.instanceId == ge.instanceId && e.eventType == ge.eventType
      && e.source == source && e.action == action && e.payload.request == ge.payload.request
      && (a.err.Some? ==> e.status == "error" && e.state == failedState && e.payload.response == Failed(a.err.value)
                          && e.statusCode == (if resp.error != "" then resp.statusCode else 500))
      && (a.err.None? ==> e.status == "success" && e.state == successState && e.payload.response == Data(resp.data)
                          && e.statusCode == resp.statusCode)
  {
  }

  /**
   * The tail of every handler: draw a key and publish `msg`; a send error is
   * reported first, then the provider's error, if any.
   */
  function Deliver<P, M>(env: StepEnv<P>, s: StepState<M>, msg: M, providerErr: Option<ErrorResponse>,
                         operation: string): (StepState<M>, Result<(), CallError>)
  {
    var s' := s.(drawn := s.drawn + 1);
    if env.topic in env.unavailable then (s', Failure(SendFailed))
    else
      (s'.(sent := s.sent + [Message(env.topic, env.gen(s.drawn), msg)]),
       if providerErr.Some? then Failure(ProcessingFailed(operation, providerErr.value)) else Success(()))
  }

  /**
   * `Deliver` publishes exactly when the topic takes the record, whatever
   * the provider said; it reports a send failure in preference to the
   * provider's error, and succeeds exactly when both went well.
   */
  lemma DeliverReports<P, M>(env: StepEnv<P>, s: StepState<M>, msg: M, providerErr: Option<ErrorResponse>,
                             operation: string)
    ensures var (s', r) := Deliver(env, s, msg, providerErr, operation);
      s'.drawn == s.drawn + 1
      && (env.topic !in env.unavailable ==> s'.sent == s.sent + [Message(env.topic, env.gen(s.drawn), msg)])
      && (env.topic in env.unavailable ==> s'.sent == s.sent && r == Failure(SendFailed))
      && (r == Failure(SendFailed) <==> env.topic in env.unavailable)
      && (r.Failure? && r.error.ProcessingFailed? <==> env.topic !in env.unavailable && providerErr.Some?)
      && (r.Success? <==> env.topic !in env.unavailable && providerErr.None?)
  {
  }
}
