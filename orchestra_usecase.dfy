/**
 * `OrchestraUsecase` (orchestra-svc/internal/usecase/orchestra_usecase.go):
 * the saga driver, as a class over the tables, the payload cache, the
 * producer and the id supply, each of whose methods is proved to do what the
 * functions of `OrchestraSpec` say.
 */
module Orchestra {
  import opened Wrappers
  import opened Json
  import opened Helper
  import opened Events
  import opened Messaging
  import opened PayloadCache
  import opened Store
  import opened OrchestraEvent
  import opened OrchestraSpec
  import opened OrchestraLemmas

  class OrchestraUsecase {
    const store: Store
    const cache: PayloadCache
    const producer: Producer<Snapshot>
    /** Stands for `uuid.New()`. */
    const uuids: Supply

    /** `NewOrchestraUsecase`. */
    constructor (store: Store, cache: PayloadCache, producer: Producer<Snapshot>, uuids: Supply)
      ensures this.store == store && this.cache == cache && this.producer == producer && this.uuids == uuids
    {
      this.store := store;
      this.cache := cache;
      this.producer := producer;
      this.uuids := uuids;
    }

    /** The orchestrator's state as the specification sees it. */
    ghost function State(): World
      reads store, cache, producer, uuids
    {
      World(store.db, cache.data, producer.sent, uuids.drawn)
    }

    /** What the environment decides. */
    ghost function Environment(): Env
      reads store, producer
    {
      Env(store.logDown, store.down, producer.unavailable, uuids.gen)
    }

    /**
     * One trigger event: the call ends in the state and with the outcome
     * `ProcessSpec` gives, whose saga properties `OrchestraLemmas` proves.
     */
    method ProcessWorkflow(ev: Event, now: int) returns (out: Outcome)
      modifies store`db, cache, producer`sent, uuids
      ensures (State(), out) == ProcessSpec(old(Environment()), old(State()), ev, now)
    {
      ghost var env := Environment();
      ghost var w := State();
      var logged := LogDb(ev);
      var bag := CachePayload(ev.instanceId, ev.source, ev.payload.response);
      assert State() == Intake(env, w, ev);
      var wf := store.FindWorkflowByType(ev.eventType);
      if wf.Failure? {
        out := Err(FindWorkflow(wf.error));
        return;
      }
      var closed := HandleInstanceStep(ev, now);
      assert State() == AfterClose(env, w, ev, now);
      var inst := GetOrCreateWorkflowInstance(ev, wf.value);
      ProcessReachesWave(env, w, ev, now);
      if inst.Failure? {
        out := Err(Instance(inst.error));
        return;
      }
      assert State() == BeforeWave(env, Intake(env, w, ev), ev, inst.value, now);
      out := ProcessSteps(ev, inst.value, bag, now);
    }

    /** `logDB`: appends the trigger to the process log unless the log is down. */
    method LogDb(ev: Event) returns (ok: bool)
      modifies store`db
      ensures ok <==> !store.logDown
      ensures State() == Logged(Environment(), old(State()), ev)
    {
      ok := store.CreateProcessLog(LogEntryOf(ev));
    }

    /** `getCachePayload`: records `resp` as `src`'s response in the bag of `inst` and returns that bag. */
    method CachePayload(inst: string, src: string, resp: Json) returns (bag: Bag)
      modifies cache
      ensures cache.data == Upserted(old(cache.data), inst, src, resp)
      ensures inst in cache.data && bag == cache.data[inst]
      ensures src in bag && bag[src] == resp
    {
      var cached, ok := cache.Get(inst);
      bag := cached[src := resp];
      cache.Set(inst, bag);
    }

    /**
     * `handleInstanceStep`: closes the step row the trigger answers, keeping
     * its start time; fails, changing nothing, when no row has the trigger's
     * id or the update fails.
     */
    method HandleInstanceStep(ev: Event, now: int) returns (ok: bool)
      modifies store`db
      ensures ok <==> ev.eventId in old(store.db.rows) && RowUpdate(ev.eventId) !in store.down
      ensures store.db == old(store.db).(rows := ClosedRows(store.down, old(store.db.rows), ev, now))
    {
      var row := store.FindInstanceStepByEventID(ev.eventId);
      if row.Failure? {
        return false;
      }
      var updated := store.UpdateWorkflowInstanceStep(CloseUpdate(ev, row.value, now));
      ok := updated.Success?;
    }

    /** `getOrCreateWorkflowInstance`: creates the instance for an initiating state, fetches it otherwise. */
    method GetOrCreateWorkflowInstance(ev: Event, wf: Workflow) returns (r: Result<WorkflowInstance, DbError>)
      modifies store`db
      ensures r == Resolve(old(store.db), ev, wf)
      ensures store.db == if r.Success? then Resolved(old(store.db), ev, r.value) else old(store.db)
    {
      if IsInitiating(ev.state) {
        r := store.CreateWorkflowInstance(WorkflowInstance(ev.instanceId, wf.id, InProgress));
      } else {
        r := store.FindWorkflowInstanceByID(ev.instanceId);
      }
    }

    /**
     * `processSteps`: dispatches every catalog step for (type, state) in
     * order, carrying on past a step that fails; with no steps, `processDone`;
     * a failed step lookup is the "find steps" error.
     */
    method ProcessSteps(ev: Event, inst: WorkflowInstance, bag: Bag, now: int) returns (out: Outcome)
      requires bag == BagOf(cache.data, ev.instanceId)
      modifies store`db, producer`sent, uuids
      ensures (State(), out) == Wave(old(Environment()), old(State()), ev, inst, now)
    {
      var found := store.FindStepsByTypeAndState(ev.eventType, ev.state);
      if found.Failure? {
        return Err(FindSteps(found.error));
      }
      var steps := found.value;
      if |steps| == 0 {
        out := ProcessDone(ev.eventType, inst.id);
        return;
      }
      out := Ok;
      DispatchSteps(ev, inst, steps, bag, now);
    }

    /** The loop of `processSteps`: `processStep` for every step in order, whatever each one's outcome. */
    method DispatchSteps(ev: Event, inst: WorkflowInstance, steps: seq<Step>, bag: Bag, now: int)
      modifies store`db, producer`sent, uuids
      ensures State() == FanOut(old(Environment()), old(State()), ev, inst, steps,
                                Requests(old(store.db), steps, bag), now)
    {
      ghost var env := Environment();
      ghost var w0 := State();
      ghost var reqs := Requests(w0.db, steps, bag);
      var i := 0;
      while i < |steps|
        invariant 0 <= i <= |steps|
        invariant Environment() == env
        invariant State() == FanOut(env, w0, ev, inst, steps[..i], reqs[..i], now)
      {
        DispatchNext(ev, inst, steps, bag, now, env, w0, reqs, i);
        i := i + 1;
      }
      assert steps[..|steps|] == steps && reqs[..|steps|] == reqs;
    }

    /** One turn of the loop of `processSteps`: the `i`-th step is dispatched on top of the first `i`. */
    method DispatchNext(ev: Event, inst: WorkflowInstance, steps: seq<Step>, bag: Bag, now: int,
                        ghost env: Env, ghost w0: World, ghost reqs: seq<Result<Json, MergeError>>, i: nat)
      requires i < |steps| && reqs == Requests(w0.db, steps, bag)
      requires Environment() == env && State() == FanOut(env, w0, ev, inst, steps[..i], reqs[..i], now)
      modifies store`db, producer`sent, uuids
      ensures Environment() == env && State() == FanOut(env, w0, ev, inst, steps[..i + 1], reqs[..i + 1], now)
    {
      FanOutFrame(env, w0, ev, inst, steps[..i], reqs[..i], now);
      RequestsAt(w0.db, steps, bag, i);
      ghost var before := State();
      assert StepRequest(before.db, steps[i], bag) == reqs[i] by {
        assert KeysFor(before.db, steps[i].id) == KeysFor(w0.db, steps[i].id);
      }
      var ok := ProcessStep(ev, inst, steps[i], bag, now);
      FanOutSnoc(env, w0, ev, inst, steps, reqs, now, i);
    }

    /**
     * `processDone`: marks the instance "failed" when one of its step rows is
     * not "success" and "completed" otherwise; with no step row at all the
     * lookup of the first row panics; a failing lookup or update is the
     * "process done" error.
     */
    method ProcessDone(eventType: string, id: string) returns (out: Outcome)
      modifies store`db
      ensures (State(), out) == Done(old(Environment()), old(State()), eventType, id)
    {
      var found := store.FindWorkflowInstanceByTypeAndID(eventType, id);
      if found.Failure? {
        return Err(Finish(found.error));
      }
      var views := found.value;
      var hasFailed := false;
      var i := 0;
      while i < |views|
        invariant 0 <= i <= |views|
        invariant hasFailed <==> exists j :: 0 <= j < i && views[j].instanceStepStatus != "success"
      {
        if views[i].instanceStepStatus != "success" {
          hasFailed := true;
        }
        i := i + 1;
      }
      if |views| == 0 {
        return Panicked;
      }
      assert hasFailed <==> HasFailedStep(store.db, eventType, id) by {
        if hasFailed {
          var j :| 0 <= j < |views| && views[j].instanceStepStatus != "success";
          assert views[j] in views;
        }
        if HasFailedStep(store.db, eventType, id) {
          var e :| e in Matching(store.db, eventType, id) && store.db.rows[e].status != StepSuccess;
          var v := ViewOf(store.db, eventType, id, e);
          assert v in views;
          var j :| 0 <= j < |views| && views[j] == v;
        }
      }
      assert views[0] in views;
      var updated;
      if hasFailed {
        updated := store.UpdateWorkflowInstance(InstanceFailed, views[0].instanceId);
      } else {
        updated := store.UpdateWorkflowInstance(InstanceCompleted, views[0].instanceId);
      }
      if updated.Failure? {
        return Err(Finish(updated.error));
      }
      out := Ok;
    }

    /**
     * `processStep`: looks up the step's payload keys, merges their cached
     * values, builds and stores its command, and publishes it to the step's
     * topic; `ok` says whether the command went out.
     */
    method ProcessStep(ev: Event, inst: WorkflowInstance, step: Step, bag: Bag, now: int) returns (ok: bool)
      modifies store`db, producer`sent, uuids
      ensures State() == DispatchStep(old(Environment()), old(State()), ev, inst, step,
                                      StepRequest(old(store.db), step, bag), now)
      ensures ok <==> |producer.sent| == |old(producer.sent)| + 1
    {
      ghost var env := Environment();
      ghost var w := State();
      DispatchCases(env, w, ev, inst, step, StepRequest(w.db, step, bag), now);
      var keys := store.FindPayloadKeysByStepID(step.id);
      if keys.Failure? {
        return false;
      }
      var request := MergePayloads(keys.value, bag);
      if request.Failure? {
        return false;
      }
      var cmd := CreateGlobalEvent(ev, request.value, inst.id, now);
      assert cmd == Command(ev, request.value, inst.id, env.gen(w.drawn), now);
      var bytes := ToJson(cmd);
      var stored := CreateWorkflowInstanceStep(cmd, step, bytes, now);
      if !stored {
        return false;
      }
      ghost var w' := w.(db := w.db.(rows := w.db.rows[cmd.eventId := PendingRow(cmd, step.id, now)]),
                         drawn := w.drawn + 2);
      var key := uuids.Next();
      assert State() == w' && key == env.gen(w.drawn + 1);
      ok := producer.SendTo(step.topic, key, bytes);
    }

    /** `mergePayloads`: the cached response of every key, null when absent, merged in key order. */
    method MergePayloads(keys: seq<string>, bag: Bag) returns (r: Result<Json, MergeError>)
      ensures r == Merged(CachedValues(keys, bag))
    {
      var values: seq<Json> := [];
      var i := 0;
      while i < |keys|
        invariant 0 <= i <= |keys|
        invariant values == CachedValues(keys[..i], bag)
      {
        values := values + [Lookup(bag, keys[i])];
        assert keys[..i + 1][..i] == keys[..i];
        i := i + 1;
      }
      assert keys[..|keys|] == keys;
      r := MergeJson(values);
    }

    /** `createGlobalEvent`: the "redirect" command of a step, carrying the trigger's type, state, status and code. */
    method CreateGlobalEvent(ev: Event, request: Json, instanceId: string, now: int) returns (cmd: Event)
      modifies uuids
      ensures uuids.drawn == old(uuids.drawn) + 1
      ensures cmd == Command(ev, request, instanceId, uuids.gen(old(uuids.drawn)), now)
    {
      cmd := NewGlobalEvent(uuids, "redirect", ev.status, BasePayload(request, JNull), now);
      cmd := cmd.(state := ev.state, eventType := ev.eventType, statusCode := ev.statusCode, instanceId := instanceId);
    }

    /** `createWorkflowInstanceStep`: inserts the command's `in_progress` row; a reused event id fails. */
    method CreateWorkflowInstanceStep(cmd: Event, step: Step, eventMessage: Snapshot, now: int) returns (ok: bool)
      modifies store`db
      ensures ok <==> cmd.eventId !in old(store.db).rows
      ensures store.db == if ok
                          then old(store.db).(rows := old(store.db).rows[cmd.eventId :=
                                 StepRow(cmd.eventId, cmd.instanceId, step.id, InProgress, Some(eventMessage),
                                         None, None, Some(now), None)])
                          else old(store.db)
    {
      var r := store.CreateWorkflowInstanceStep(
        StepRow(cmd.eventId, cmd.instanceId, step.id, InProgress, Some(eventMessage), None, None, Some(now), None));
      ok := r.Success?;
    }
  }
}
