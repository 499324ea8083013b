/**
 * `BankRegistrationUsecase`
 * (order-svc/internal/usecase/bank_registration_usecase.go) as a class over
 * the registration queries, the shared producer and the two sources of fresh
 * values, proved to do what `BankModel` says.
 */
module BankRegistration {
  import opened Wrappers
  import opened Json
  import opened Events
  import opened Messaging
  import opened OrderSvc
  import opened BankModel

  /** The registration queries of `sqlc.Store`: each is answered by `answers`, each write is logged. */
  class BankQueries {
    const answers: BankAnswers
    var writes: seq<BankWrite>

    constructor (answers: BankAnswers)
      ensures this.answers == answers && writes == []
    {
      this.answers := answers;
      writes := [];
    }

    method CreateBankAccountRegistration(p: CreateRegistrationParams) returns (r: Result<BankAccount, string>)
      modifies this`writes
      ensures writes == old(writes) + [CreateRegistrationCall(p)] && r == answers.createRegistration(p)
    {
      writes := writes + [CreateRegistrationCall(p)];
      r := answers.createRegistration(p);
    }

    method UpdateBankAccountRegistration(p: UpdateRegistrationParams) returns (r: Result<BankAccount, string>)
      modifies this`writes
      ensures writes == old(writes) + [UpdateRegistrationCall(p)] && r == answers.updateRegistration(p)
    {
      writes := writes + [UpdateRegistrationCall(p)];
      r := answers.updateRegistration(p);
    }
  }

  class BankRegistrationUsecase {
    const queries: BankQueries
    const producer: Producer<OutboundEvent>
    /** Stands for `uuid.New()`. */
    const uuids: Supply
    /** Stands for `pkg.GenerateRandom6Char()`. */
    const randoms: Supply

    /** `NewBankRegistrationUsecase`. */
    constructor (queries: BankQueries, producer: Producer<OutboundEvent>, uuids: Supply, randoms: Supply)
      ensures this.queries == queries && this.producer == producer && this.uuids == uuids && this.randoms == randoms
    {
      this.queries := queries;
      this.producer := producer;
      this.uuids := uuids;
      this.randoms := randoms;
    }

    ghost function State(): BankState
      reads queries, producer, uuids, randoms
    {
      SvcState(queries.writes, producer.sent, uuids.drawn, randoms.drawn)
    }

    ghost function Environment(): BankEnv
      reads producer
    {
      SvcEnv(queries.answers, producer.topic, producer.unavailable, uuids.gen, randoms.gen)
    }

    /** `orchestraProducer.SendMessage(uuid.New().String(), bytes)`. */
    method Send(ev: OutboundEvent) returns (ok: bool)
      requires uuids != randoms
      modifies producer`sent, uuids
      ensures (State(), ok) == Publish(old(Environment()), old(State()), ev)
    {
      var key := uuids.Next();
      ok := producer.Send(key, ev);
    }

    /** `RegisterBankAccount`. */
    method RegisterBankAccount(req: BankRegistrationRequest, now: int) returns (r: Result<BankAccount, BankError>)
      requires uuids != randoms
      modifies queries`writes, producer`sent, uuids, randoms
      ensures (State(), r) == RegisterSpec(old(Environment()), old(State()), req, now)
    {
      var customerId := uuids.Next();
      var created := queries.CreateBankAccountRegistration(RegistrationParams(req, customerId));
      if created.Failure? {
        return Failure(BankStoreError(created.error));
      }
      var ev := NewGlobalEvent(uuids, randoms, "create", "success", "bank_regis_created", BankAccountRegistration,
                               BasePayload(req, created.value), now);
      ev := ev.(statusCode := 201);
      var ok := Send(BankRegistered(ev));
      if !ok {
        return Failure(BankSendError);
      }
      r := Success(created.value);
    }

    /** `UpdateBankRegistrationMessaging`: applies an update event and replies to the orchestrator. */
    method UpdateBankRegistrationMessaging(req: GlobalEvent<BankRegistrationUpdate, Json>, now: int)
      returns (r: Result<(), BankError>)
      requires uuids != randoms
      modifies queries`writes, producer`sent, uuids, randoms
      ensures (State(), r) == UpdateRegistrationSpec(old(Environment()), old(State()), req, now)
    {
      var u := req.payload.request;
      var updated := queries.UpdateBankAccountRegistration(UpdateRegistrationParams(u.customerId, u.username,
                                                                                    u.email, u.status));
      if updated.Failure? {
        return Failure(BankStoreError(updated.error));
      }
      var ev := NewGlobalEvent(uuids, randoms, "update", "success", "bank_regis_updated", BankAccountRegistration,
                               BasePayload(u, updated.value), now);
      ev := ev.(eventId := req.eventId, instanceId := req.instanceId, eventType := req.eventType);
      ev := ev.(statusCode := 200);
      var ok := Send(BankUpdated(ev));
      if !ok {
        return Failure(BankSendError);
      }
      r := Success(());
    }
  }
}
