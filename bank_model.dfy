/**
 * What `BankRegistrationUsecase`
 * (order-svc/internal/usecase/bank_registration_usecase.go) does, given the
 * store's answers, and the properties of it.
 */
module BankModel {
  import opened Wrappers
  import opened Json
  import opened Events
  import opened Messaging
  import opened OrderSvc

  datatype CreateRegistrationParams = CreateRegistrationParams(customerId: string, username: string, email: string,
                                                               status: string, deposit: int)

  datatype UpdateRegistrationParams = UpdateRegistrationParams(customerId: string, username: string, email: string,
                                                               status: string)

  /** A write issued to the registrations table. */
  datatype BankWrite =
    | CreateRegistrationCall(create: CreateRegistrationParams)
    | UpdateRegistrationCall(update: UpdateRegistrationParams)

  /** The store's answer to each query, standing for the database behind `sqlc.Store`. */
  datatype BankAnswers = BankAnswers(
    createRegistration: CreateRegistrationParams -> Result<BankAccount, string>,
    updateRegistration: UpdateRegistrationParams -> Result<BankAccount, string>)

  datatype BankError = BankStoreError(message: string) | BankSendError

  type BankEnv = SvcEnv<BankAnswers>
  type BankState = SvcState<BankWrite>

  /** The row `RegisterBankAccount` asks for: a fresh customer id, status "PROCESSING". */
  function RegistrationParams(req: BankRegistrationRequest, customerId: string): CreateRegistrationParams
  {
    CreateRegistrationParams(customerId, req.username, req.email, Processing, req.deposit)
  }

  /** The update `UpdateBankRegistrationMessaging` asks for: the event's request, field for field. */
  function RegistrationUpdate(u: BankRegistrationUpdate): UpdateRegistrationParams
  {
    UpdateRegistrationParams(u.customerId, u.username, u.email, u.status)
  }

  /** The publish that ends a successful call. */
  function BankFinish<T>(env: BankEnv, s: BankState, ev: OutboundEvent, value: T): (BankState, Result<T, BankError>)
  {
    var (s', ok) := Publish(env, s, ev);
    (s', if ok then Success(value) else Failure(BankSendError))
  }

  /** One `RegisterBankAccount`. */
  function RegisterSpec(env: BankEnv, s: BankState, req: BankRegistrationRequest, now: int)
    : (BankState, Result<BankAccount, BankError>)
  {
    var p := RegistrationParams(req, env.gen(s.drawn));
    var s1 := s.(writes := s.writes + [CreateRegistrationCall(p)], drawn := s.drawn + 1);
    match env.answers.createRegistration(p)
    case Failure(e) => (s1, Failure(BankStoreError(e)))
    case Success(account) =>
      var ev := Envelope(env.gen(s1.drawn), env.random(s1.randomDrawn), "create", "success", "bank_regis_created",
                         BankAccountRegistration, BasePayload(req, account), now).(statusCode := 201);
      BankFinish(env, Drew(s1), BankRegistered(ev), account)
  }

  /** The reply to a registration update: "bank_regis_updated", code 200, with the event's ids and type. */
  function RegistrationReply(env: BankEnv, s: BankState, req: GlobalEvent<BankRegistrationUpdate, Json>,
                             account: BankAccount, now: int): GlobalEvent<BankRegistrationUpdate, BankAccount>
  {
    Envelope(env.gen(s.drawn), env.random(s.randomDrawn), "update", "success", "bank_regis_updated",
             BankAccountRegistration, BasePayload(req.payload.request, account), now)
      .(eventId := req.eventId, instanceId := req.instanceId, eventType := req.eventType, statusCode := 200)
  }

  /** One `UpdateBankRegistrationMessaging`. */
  function UpdateRegistrationSpec(env: BankEnv, s: BankState, req: GlobalEvent<BankRegistrationUpdate, Json>, now: int)
    : (BankState, Result<(), BankError>)
  {
    var p := RegistrationUpdate(req.payload.request);
    var s1 := s.(writes := s.writes + [UpdateRegistrationCall(p)]);
    match env.answers.updateRegistration(p)
    case Failure(e) => (s1, Failure(BankStoreError(e)))
    case Success(account) => BankFinish(env, Drew(s1), BankUpdated(RegistrationReply(env, s1, req, account, now)), ())
  }

  /**
   * `RegisterBankAccount` inserts one registration, in status "PROCESSING",
   * under the first uuid it draws as customer id, with the caller's user,
   * e-mail and deposit; an insert that fails returns its error and
   * publishes nothing.
   */
  lemma RegisterInsertsProcessing(env: BankEnv, s: BankState, req: BankRegistrationRequest, now: int)
    ensures var (s', r) := RegisterSpec(env, s, req, now);
      var p := CreateRegistrationParams(env.gen(s.drawn), req.username, req.email, "PROCESSING", req.deposit);
      s'.writes == s.writes + [CreateRegistrationCall(p)]
      && (env.answers.createRegistration(p).Failure? ==>
            r == Failure(BankStoreError(env.answers.createRegistration(p).error)) && s'.sent == s.sent)
  {
  }

  /**
   * After a successful insert the initiating event goes out: state
   * "bank_regis_created", type "bank_account_registration", status "success",
   * code 201, carrying the request and the stored row; the call returns that
   * row exactly when the record goes out, and publishes nothing otherwise.
   */
  lemma RegisterPublishesInitiatingEvent(env: BankEnv, s: BankState, req: BankRegistrationRequest, now: int)
    requires env.answers.createRegistration(RegistrationParams(req, env.gen(s.drawn))).Success?
    ensures var account := env.answers.createRegistration(RegistrationParams(req, env.gen(s.drawn))).value;
      var (s', r) := RegisterSpec(env, s, req, now);
      (r.Success? <==> env.topic !in env.unavailable)
      && (r.Success? ==>
            r.value == account && |s'.sent| == |s.sent| + 1 && s'.sent[..|s.sent|] == s.sent
            && var m := s'.sent[|s.sent|];
               m.topic == env.topic && m.key == env.gen(s.drawn + 2) && m.value.BankRegistered?
               && var e := m.value.registered;
                  e.state == "bank_regis_created" && e.eventType == "bank_account_registration"
                  && e.action == "create" && e.status == "success" && e.statusCode == 201
                  && e.source == "order-svc" && e.eventId == env.gen(s.drawn + 1)
                  && e.instanceId == "I-" + env.random(s.randomDrawn) && e.payload == BasePayload(req, account))
      && (r.Failure? ==> r == Failure(BankSendError) && s'.sent == s.sent)
  {
  }

  /**
   * `UpdateBankRegistrationMessaging` issues the event's update field for
   * field; a failed update returns its error and sends no reply; otherwise
   * the reply copies the event's id, instance id and type, with state
   * "bank_regis_updated", code 200, the event's request and the updated row.
   */
  lemma UpdateRegistrationReplies(env: BankEnv, s: BankState, req: GlobalEvent<BankRegistrationUpdate, Json>, now: int)
    ensures var u := req.payload.request;
      var p := UpdateRegistrationParams(u.customerId, u.username, u.email, u.status);
      var updated := env.answers.updateRegistration(p);
      var (s', r) := UpdateRegistrationSpec(env, s, req, now);
      s'.writes == s.writes + [UpdateRegistrationCall(p)]
      && (updated.Failure? ==> r == Failure(BankStoreError(updated.error)) && s'.sent == s.sent)
      && (updated.Success? ==>
            (r.Success? <==> env.topic !in env.unavailable)
            && (r.Success? ==>
                  |s'.sent| == |s.sent| + 1 && s'.sent[|s.sent|].value.BankUpdated?
                  && var e := s'.sent[|s.sent|].value.changed;
                     e.eventId == req.eventId && e.instanceId == req.instanceId && e.eventType == req.eventType
                     && e.state == "bank_regis_updated" && e.action == "update" && e.status == "success"
                     && e.statusCode == 200 && e.payload == BasePayload(u, updated.value)))
  {
  }
}
