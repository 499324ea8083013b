/**
 * What one call of `OrchestraUsecase.ProcessWorkflow`
 * (orchestra-svc/internal/usecase/orchestra_usecase.go) does to the
 * orchestrator's world, stated as pure functions, with the saga properties
 * proved about them.
 */
module OrchestraSpec {
  import opened Wrappers
  import opened Json
  import opened Helper
  import opened Events
  import opened Store
  import opened Messaging
  import opened PayloadCache
  import opened OrchestraEvent

  /** Step-row and instance statuses of orchestra-svc/internal/dto/workflow_status.go. */
  const InProgress := "in_progress"
  const StepSuccess := "success"
  const StepError := "error"
  /** The terminal instance statuses `processDone` writes. */
  const InstanceFailed := "failed"
  const InstanceCompleted := "completed"

  /**
   * What the environment decides: whether the process log is writable, which
   * queries fail, which topics reject sends, and the sequence of ids
   * `uuid.New()` hands out.
   */
  datatype Env = Env(logDown: bool, down: set<Query>, unavailable: set<string>, gen: nat -> string)

  /** The orchestrator's state: tables, payload cache, published records and ids used up. */
  datatype World = World(db: Db, cache: map<string, Bag>, sent: seq<Message<Snapshot>>, drawn: nat)

  datatype OrchestraError =
    | FindWorkflow(cause: DbError)   // "find workflow: …"
    | Instance(cause: DbError)       // the create or fetch of the instance failed
    | FindSteps(cause: DbError)      // "find steps: …"
    | Finish(cause: DbError)         // "process done: …"

  /** How `ProcessWorkflow` ends; `Panicked` is the index-out-of-range in `processDone`. */
  datatype Outcome = Ok | Err(error: OrchestraError) | Panicked

  /** The states that start a saga, matched by exact, case-sensitive comparison. */
  predicate IsInitiating(state: string)
  {
    state == "order_created" || state == "order_cancel" || state == "bank_regis_created"
  }

  /** The row `logDB` inserts. */
  function LogEntryOf(ev: Event): LogEntry
  {
    LogEntry(ev.eventId, ev.instanceId, ev.state, Int32(ev.statusCode), ev.status, ToJson(ev))
  }

  function Logged(env: Env, w: World, ev: Event): World
  {
    if env.logDown then w else w.(db := w.db.(processLog := w.db.processLog + [LogEntryOf(ev)]))
  }

  /** The bag cached for an instance; a missing entry reads as empty. */
  function BagOf(cache: map<string, Bag>, inst: string): Bag
  {
    if inst in cache then cache[inst] else map[]
  }

  /** The cache after `getCachePayload(inst, src, resp)`. */
  function Upserted(cache: map<string, Bag>, inst: string, src: string, resp: Json): map<string, Bag>
  {
    cache[inst := BagOf(cache, inst)[src := resp]]
  }

  /** The parameters with which `handleInstanceStep` closes the step row `row`. */
  function CloseUpdate(ev: Event, row: StepRow, now: int): StepUpdate
  {
    StepUpdate(ev.status, Some(ToJson(ev)), Some(Int32(ev.statusCode)), Some(ev.payload.response),
               row.startedAt, Some(now), ev.eventId)
  }

  /**
   * The step rows after `handleInstanceStep`; an unknown event id, or an
   * update the database fails, changes nothing.
   */
  function ClosedRows(down: set<Query>, rows: map<string, StepRow>, ev: Event, now: int): map<string, StepRow>
  {
    if ev.eventId in rows && RowUpdate(ev.eventId) !in down
    then UpdateRows(rows, CloseUpdate(ev, rows[ev.eventId], now))
    else rows
  }

  /** The instance `getOrCreateWorkflowInstance` returns, or the store's error. */
  function Resolve(db: Db, ev: Event, wf: Workflow): Result<WorkflowInstance, DbError>
  {
    if IsInitiating(ev.state) then
      if ev.instanceId in db.instances then Failure(DuplicateKey)
      else Success(WorkflowInstance(ev.instanceId, wf.id, InProgress))
    else if ev.instanceId in db.instances then Success(db.instances[ev.instanceId])
    else Failure(NoRows)
  }

  /** The tables after a successful `getOrCreateWorkflowInstance`. */
  function Resolved(db: Db, ev: Event, inst: WorkflowInstance): Db
  {
    if IsInitiating(ev.state) then db.(instances := db.instances[inst.id := inst]) else db
  }

  /** Some step row of the instance has a status other than "success". */
  predicate HasFailedStep(db: Db, eventType: string, id: string)
  {
    exists e :: e in Matching(db, eventType, id) && db.rows[e].status != StepSuccess
  }

  /** The status `processDone` writes. */
  function TerminalStatus(db: Db, eventType: string, id: string): string
  {
    if HasFailedStep(db, eventType, id) then InstanceFailed else InstanceCompleted
  }

  /** The tables after `processDone` found at least one step row. */
  function Finished(db: Db, eventType: string, id: string): Db
  {
    if id in db.instances
    then db.(instances := db.instances[id := db.instances[id].(status := TerminalStatus(db, eventType, id))])
    else db
  }

  /** The values `mergePayloads` collects: the cached response of each key, null when absent. */
  function CachedValues(keys: seq<string>, bag: Bag): (vs: seq<Json>)
    ensures |vs| == |keys|
    decreases |keys|
  {
    if keys == [] then [] else CachedValues(keys[..|keys| - 1], bag) + [Lookup(bag, keys[|keys| - 1])]
  }

  /** The command `createGlobalEvent` builds, given the id `NewGlobalEvent` draws. */
  function Command(ev: Event, request: Json, instanceId: string, id: string, now: int): Event
  {
    GlobalEvent(id, instanceId, ev.eventType, ev.state, now, OrchestraSource, "redirect",
                ev.status, ev.statusCode, BasePayload(request, JNull))
  }

  /** The row `createWorkflowInstanceStep` inserts for command `cmd` of step `stepId`. */
  function PendingRow(cmd: Event, stepId: int, now: int): StepRow
  {
    StepRow(cmd.eventId, cmd.instanceId, stepId, InProgress, Some(ToJson(cmd)), None, None, Some(now), None)
  }

  /** The request a step's command carries: the merged cached values of its payload keys. */
  function StepRequest(db: Db, step: Step, bag: Bag): Result<Json, MergeError>
  {
    Merged(CachedValues(KeysFor(db, step.id), bag))
  }

  /** The requests of a step list, one per step, as `processStep` merges them. */
  function Requests(db: Db, steps: seq<Step>, bag: Bag): (reqs: seq<Result<Json, MergeError>>)
    ensures |reqs| == |steps|
    decreases |steps|
  {
    if steps == [] then []
    else Requests(db, steps[..|steps| - 1], bag) + [StepRequest(db, steps[|steps| - 1], bag)]
  }

  /**
   * `processStep` for `step`, whose merged request is `req`: a failed key
   * lookup or a merge failure skips the step; otherwise draw the command's
   * id, insert its `in_progress` row (a duplicate skips the step), draw the
   * message key and publish to the step's topic.
   */
  function DispatchStep(env: Env, w: World, ev: Event, inst: WorkflowInstance, step: Step,
                        req: Result<Json, MergeError>, now: int): World
  {
    if KeysLookup(step.id) in env.down then w
    else match req
    case Failure(_) => w
    case Success(request) =>
      var cmd := Command(ev, request, inst.id, env.gen(w.drawn), now);
      if cmd.eventId in w.db.rows then w.(drawn := w.drawn + 1)
      else
        var w' := w.(db := w.db.(rows := w.db.rows[cmd.eventId := PendingRow(cmd, step.id, now)]),
                     drawn := w.drawn + 2);
        if step.topic in env.unavailable then w'
        else w'.(sent := w.sent + [Message(step.topic, env.gen(w.drawn + 1), ToJson(cmd))])
  }

  /** The message is a "redirect" command for instance `id` built from `ev`, carrying `step`'s request `req`. */
  predicate IsCommandFor(ev: Event, id: string, step: Step, req: Result<Json, MergeError>, m: Message<Snapshot>)
  {
    m.value.Encoded?
    && var c := m.value.event;
    m.topic == step.topic
    && req == Success(c.payload.request)
    && c.payload.response == JNull
    && c.action == "redirect" && c.source == OrchestraSource
    && c.status == ev.status && c.state == ev.state && c.eventType == ev.eventType
    && c.statusCode == ev.statusCode && c.instanceId == id
  }

  /** Before it was published, a command got an `in_progress` row carrying its id, instance and snapshot. */
  predicate PersistedBefore(rows: map<string, StepRow>, m: Message<Snapshot>)
  {
    m.value.Encoded?
    && var c := m.value.event;
    c.eventId in rows
    && rows[c.eventId].status == InProgress
    && rows[c.eventId].eventMessage == Some(m.value)
    && rows[c.eventId].instanceId == c.instanceId
  }

  /** `processSteps` over a non-empty step list: every step in order, ignoring a step's failure. */
  function FanOut(env: Env, w: World, ev: Event, inst: WorkflowInstance, steps: seq<Step>,
                  reqs: seq<Result<Json, MergeError>>, now: int): World
    requires |reqs| == |steps|
    decreases |steps|
  {
    if steps == [] then w
    else
      var n := |steps| - 1;
      DispatchStep(env, FanOut(env, w, ev, inst, steps[..n], reqs[..n], now), ev, inst, steps[n], reqs[n], now)
  }

  /** The log attempt and the cache upsert, which happen on every call. */
  function Intake(env: Env, w: World, ev: Event): World
  {
    Logged(env, w, ev).(cache := Upserted(w.cache, ev.instanceId, ev.source, ev.payload.response))
  }

  /**
   * `processDone`: the lookup of the instance's step rows, the panic when
   * there is none, and the status update; a failing lookup or update is the
   * "process done" error.
   */
  function Done(env: Env, w: World, eventType: string, id: string): (World, Outcome)
  {
    if InstanceRowsLookup(eventType, id) in env.down then (w, Err(Finish(Unavailable)))
    else if Matching(w.db, eventType, id) == {} then (w, Panicked)
    else if InstanceUpdate(id) in env.down then (w, Err(Finish(Unavailable)))
    else (w.(db := Finished(w.db, eventType, id)), Ok)
  }

  /**
   * `processSteps` once the instance is known: the "find steps" error when
   * the step lookup fails, the fan-out when the catalog has steps for
   * (event type, state), otherwise `processDone`.
   */
  function Wave(env: Env, w: World, ev: Event, inst: WorkflowInstance, now: int): (World, Outcome)
  {
    if StepsLookup(ev.eventType, ev.state) in env.down then (w, Err(FindSteps(Unavailable)))
    else
      var steps := StepsFor(w.db, ev.eventType, ev.state);
      if steps != [] then (FanOut(env, w, ev, inst, steps, Requests(w.db, steps, BagOf(w.cache, ev.instanceId)), now), Ok)
      else Done(env, w, ev.eventType, inst.id)
  }

  /** Everything after a successful workflow lookup. */
  function AfterLookup(env: Env, w: World, ev: Event, wf: Workflow, now: int): (World, Outcome)
  {
    var w3 := w.(db := w.db.(rows := ClosedRows(env.down, w.db.rows, ev, now)));
    match Resolve(w3.db, ev, wf)
    case Failure(e) => (w3, Err(Instance(e)))
    case Success(inst) => Wave(env, w3.(db := Resolved(w3.db, ev, inst)), ev, inst, now)
  }

  /**
   * One call of `ProcessWorkflow` on trigger `ev`, with `now` the clock
   * reading: the log attempt, the cache upsert, the workflow lookup, the
   * best-effort close of the originating step row (whose failure is only
   * logged), the instance resolution,
   * and then either the terminal wave or the fan-out.
   */
  function ProcessSpec(env: Env, w: World, ev: Event, now: int): (World, Outcome)
  {
    var w2 := Intake(env, w, ev);
    if ev.eventType !in w2.db.workflows then (w2, Err(FindWorkflow(NoRows)))
    else AfterLookup(env, w2, ev, w2.db.workflows[ev.eventType], now)
  }
}
