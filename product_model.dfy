/**
 * What the product step service (product-svc/internal/usecase/usecase.go)
 * replies to the orchestrator for each provider answer, and the properties
 * of it.
 */
module ProductModel {
  import opened Wrappers
  import opened Json
  import opened Events
  import opened Messaging
  import opened StepReply

  /** The `source` of every reply product-svc builds. */
  const ProductSource := "product-svc"

  datatype ProductRequest = ProductRequest(productId: string, quantity: int)

  /** `dto.ProductResponse`; price and amount, `float64` in the source, are integers here. */
  datatype ProductResponse = ProductResponse(id: string, name: string, quantity: int, price: int, amount: int)

  /** The provider's answer to each request, standing for `provider.ProductProvider`. */
  datatype ProductAnswers = ProductAnswers(
    reserve: ProductRequest -> ProviderAnswer<ProductResponse>,
    release: ProductRequest -> ProviderAnswer<ProductResponse>)

  type ProductReply = GlobalEvent<ProductRequest, ReplyPayload<ProductResponse>>
  type ProductEnv = StepEnv<ProductAnswers>
  type ProductState = StepState<ProductReply>

  /** A reservation failed: the provider erred, or its response carries error text. */
  predicate ReservationFailed(a: ProviderAnswer<ProductResponse>)
    requires a.err.Some? || a.response.Some?
  {
    a.err.Some? || a.response.value.error != ""
  }

  /**
   * The reply `ReserveProductMessaging` builds: failed with the provider's
   * error, or else its whole response, when `ReservationFailed`, else a
   * success with the data; the code is the response's when there is one,
   * else 500. `None` when there is neither an error nor a response, where
   * the handler dereferences the nil response.
   */
  function ReserveReply(ge: GlobalEvent<ProductRequest, Json>, a: ProviderAnswer<ProductResponse>, id: string, now: int)
    : Option<ProductReply>
  {
    if a.err.None? && a.response.None? then None
    else
      var request := ge.payload.request;
      var ev :=
        if ReservationFailed(a) then
          StepEnvelope(id, ProductSource, "update", "error", "product_reservation_failed",
                       BasePayload(request, if a.err.Some? then Failed(a.err.value) else Rejected(a.response.value)), now)
        else
          StepEnvelope(id, ProductSource, "update", "success", "product_reservation_success",
                       BasePayload(request, Data(a.response.value.data)), now);
      Some(Correlated(ev, ge).(statusCode := if a.response.Some? then a.response.value.statusCode else 500))
  }

  /** The request both handlers hand the provider: the incoming product id and quantity. */
  function Forwarded(ge: GlobalEvent<ProductRequest, Json>): ProductRequest
  {
    ProductRequest(ge.payload.request.productId, ge.payload.request.quantity)
  }

  /** One `ReserveProductMessaging`; only a provider error is reported, not error text in the response. */
  function ReserveSpec(env: ProductEnv, s: ProductState, ge: GlobalEvent<ProductRequest, Json>, now: int)
    : (ProductState, Result<(), CallError>)
  {
    var a := env.provider.reserve(Forwarded(ge));
    match ReserveReply(ge, a, env.gen(s.drawn), now)
    case None => (s, Failure(Panicked))
    case Some(ev) => Deliver(env, s.(drawn := s.drawn + 1), ev, a.err, "product reservation")
  }

  /** One `ReleaseProductMessaging`, which branches on the provider's error alone. */
  function ReleaseSpec(env: ProductEnv, s: ProductState, ge: GlobalEvent<ProductRequest, Json>, now: int)
    : (ProductState, Result<(), CallError>)
  {
    var a := env.provider.release(Forwarded(ge));
    match ProviderReply(ProductSource, ge, a, env.gen(s.drawn), "update", "product_release_failed",
                        "product_release_success", now)
    case None => (AbortState(s, a), Failure(Panicked))
    case Some(ev) => Deliver(env, s.(drawn := s.drawn + 1), ev, a.err, "product release")
  }

  /**
   * The reservation reply: "product_reservation_failed" and "error" exactly
   * when the provider erred or its response has error text, otherwise
   * "product_reservation_success" and "success" with the data; the code is
   * the response's whenever there is a response and 500 otherwise; the
   * incoming ids, type and request are kept.
   */
  lemma ReserveReplyRule(ge: GlobalEvent<ProductRequest, Json>, a: ProviderAnswer<ProductResponse>, id: string, now: int)
    requires a.err.Some? || a.response.Some?
    ensures var reply := ReserveReply(ge, a, id, now);
      reply.Some? && var e := reply.value;
      e.eventId == ge.eventId && e.instanceId == ge.instanceId && e.eventType == ge.eventType
      && e.source == "product-svc" && e.action == "update" && e.payload.request == ge.payload.request
      && (e.state == "product_reservation_failed" <==> a.err.Some? || a.response.value.error != "")
      && (e.state == "product_reservation_success" <==> a.err.None? && a.response.value.error == "")
      && (e.status == "error" <==> e.state == "product_reservation_failed")
      && (e.status == "success" <==> e.state == "product_reservation_success")
      && (a.response.Some? ==> e.statusCode == a.response.value.statusCode)
      && (a.response.None? ==> e.statusCode == 500)
      && (a.err.Some? ==> e.payload.response == Failed(a.err.value))
      && (a.err.None? && a.response.value.error != "" ==> e.payload.response == Rejected(a.response.value))
      && (e.status == "success" ==> e.payload.response == Data(a.response.value.data))
  {
  }

  /**
   * A reservation the provider answers without error but with error text
   * publishes a failure reply and still returns success once the reply is
   * out; a provider error is returned only after the reply went out, and a
   * send error takes precedence over it.
   */
  lemma ReserveErrorOrdering(env: ProductEnv, s: ProductState, ge: GlobalEvent<ProductRequest, Json>, now: int)
    requires env.provider.reserve(ge.payload.request).err.Some? || env.provider.reserve(ge.payload.request).response.Some?
    ensures var a := env.provider.reserve(ge.payload.request);
      var (s', r) := ReserveSpec(env, s, ge, now);
      (env.topic in env.unavailable ==> r == Failure(SendFailed) && s'.sent == s.sent)
      && (env.topic !in env.unavailable ==>
            |s'.sent| == |s.sent| + 1
            && (a.err.Some? ==> r == Failure(ProcessingFailed("product reservation", a.err.value)))
            && (a.err.None? ==> r == Success(()))
            && (a.err.None? && a.response.value.error != "" ==>
                  s'.sent[|s.sent|].value.state == "product_reservation_failed"))
  {
    var a := env.provider.reserve(ge.payload.request);
    assert Forwarded(ge) == ge.payload.request;
    ReserveReplyRule(ge, a, env.gen(s.drawn), now);
  }

  /**
   * The release reply: "product_release_failed" and "error" exactly when the
   * provider erred, with the response's code when it has error text and
   * 500 otherwise; else "product_release_success" with the response's code.
   */
  lemma ReleaseReplies(env: ProductEnv, s: ProductState, ge: GlobalEvent<ProductRequest, Json>, now: int)
    requires env.provider.release(ge.payload.request).response.Some?
    requires env.topic !in env.unavailable
    ensures var a := env.provider.release(ge.payload.request);
      var resp := a.response.value;
      var (s', r) := ReleaseSpec(env, s, ge, now);
      |s'.sent| == |s.sent| + 1 && var e := s'.sent[|s.sent|].value;
      e.eventId == ge.eventId && e.instanceId == ge.instanceId && e.eventType == ge.eventType
      && (e.state == "product_release_failed" <==> a.err.Some?)
      && (a.err.Some? ==> e.status == "error" && e.statusCode == (if resp.error != "" then resp.statusCode else 500)
                          && r == Failure(ProcessingFailed("product release", a.err.value)))
      && (a.err.None? ==> e.state == "product_release_success" && e.status == "success"
                          && e.statusCode == resp.statusCode && r == Success(()))
  {
    var a := env.provider.release(ge.payload.request);
    assert Forwarded(ge) == ge.payload.request;
    ProviderReplyRule(ProductSource, ge, a, env.gen(s.drawn), "update", "product_release_failed",
                      "product_release_success", now);
  }
}
