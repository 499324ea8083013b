/**
 * The orchestrator's tables and the queries its usecases issue
 * (`sqlc.Store`). Each query is given the meaning of its SQL text in
 * orchestra-svc/internal/repository/sqlc: a single-row lookup fails when no
 * row matches, an insert fails on a duplicate key, and an UPDATE whose WHERE
 * matches nothing succeeds and changes nothing. Besides, the queries whose
 * failure the usecases handle fail whenever the environment puts them in
 * `down` (a lost connection, a timeout, a cancelled context).
 */
module Store {
  import opened Wrappers
  import opened Json
  import opened Events

  datatype Workflow = Workflow(id: int, wfType: string, description: string)

  datatype WorkflowInstance = WorkflowInstance(id: string, workflowId: int, status: string)

  /** A step of the catalog with the topic its commands are published to. */
  datatype Step = Step(id: int, service: string, name: string, description: string, topic: string)

  /** A `workflow_instance_steps` row: one dispatched command and its outcome. */
  datatype StepRow = StepRow(
    eventId: string,
    instanceId: string,
    stepId: int,
    status: string,
    eventMessage: Option<Snapshot>,
    statusCode: Option<int>,
    response: Option<Json>,
    startedAt: Option<int>,
    completedAt: Option<int>)

  /** A `process_logs` row. */
  datatype LogEntry = LogEntry(
    eventId: string,
    instanceId: string,
    state: string,
    statusCode: int,
    status: string,
    eventMessage: Snapshot)

  /**
   * The tables: workflows by type, instances by id, steps by id, the
   * `state_actions` catalog from (type, state) to step ids, payload keys by
   * step id, step rows by event id, and the process log in insertion order.
   */
  datatype Db = Db(
    workflows: map<string, Workflow>,
    instances: map<string, WorkflowInstance>,
    steps: map<int, Step>,
    stateActions: map<(string, string), seq<int>>,
    payloadKeys: map<int, seq<string>>,
    rows: map<string, StepRow>,
    processLog: seq<LogEntry>)

  /** `Unavailable` is any error of the database itself, as opposed to an answer about the rows. */
  datatype DbError = NoRows | DuplicateKey | Unavailable

  /** A query with its arguments, as the environment sees it when it decides which queries fail. */
  datatype Query =
    | StepsLookup(eventType: string, state: string)           // FindStepsByTypeAndState
    | KeysLookup(stepId: int)                                // FindPayloadKeysByStepID
    | InstanceRowsLookup(eventType: string, instanceId: string)  // FindWorkflowInstanceByTypeAndID
    | InstanceUpdate(instanceId: string)                     // UpdateWorkflowInstance
    | RowUpdate(eventId: string)                             // UpdateWorkflowInstanceStep

  /** The parameters of `UpdateWorkflowInstanceStep`; the row is chosen by `eventId`. */
  datatype StepUpdate = StepUpdate(
    status: string,
    eventMessage: Option<Snapshot>,
    statusCode: Option<int>,
    response: Option<Json>,
    startedAt: Option<int>,
    completedAt: Option<int>,
    eventId: string)

  /** A row of `FindWorkflowInstanceByTypeAndID`: one step row of the instance. */
  datatype InstanceStepView = InstanceStepView(
    workflowId: int,
    workflowType: string,
    instanceId: string,
    instanceStatus: string,
    instanceStepStatus: string,
    stepId: int)

  /** The row of `FindWorkflowInstanceStepsByEventIDAndInsID`: a step row and its step's topic. */
  datatype RowWithTopic = RowWithTopic(row: StepRow, topic: string)

  /** Every table is keyed by the identifier stored in its rows. */
  predicate WellFormed(db: Db)
  {
    (forall t :: t in db.workflows ==> db.workflows[t].wfType == t)
    && (forall i :: i in db.instances ==> db.instances[i].id == i)
    && (forall i :: i in db.steps ==> db.steps[i].id == i)
    && (forall e :: e in db.rows ==> db.rows[e].eventId == e)
  }

  /** Every stored snapshot that decodes is an envelope carrying its own row's event id. */
  predicate SnapshotsKeyed(db: Db)
  {
    forall e :: e in db.rows && db.rows[e].eventMessage.Some? && db.rows[e].eventMessage.value.Encoded? ==>
      db.rows[e].eventMessage.value.event.eventId == e
  }

  /**
   * The join with `DISTINCT`: the steps named by `ids` that exist in `steps`,
   * each once, skipping the ids in `seen`. The SQL orders by a column that is
   * constant under its WHERE clause, so the database may return the rows in
   * any order; the model fixes the order of first mention.
   */
  function JoinFrom(ids: seq<int>, steps: map<int, Step>, seen: set<int>): seq<Step>
  {
    if ids == [] then []
    else if ids[0] in seen || ids[0] !in steps then JoinFrom(ids[1..], steps, seen)
    else [steps[ids[0]]] + JoinFrom(ids[1..], steps, seen + {ids[0]})
  }

  function Join(ids: seq<int>, steps: map<int, Step>): seq<Step>
  {
    JoinFrom(ids, steps, {})
  }

  /** What `FindStepsByTypeAndState` returns: the catalog's steps for (type, state). */
  function StepsFor(db: Db, eventType: string, state: string): seq<Step>
  {
    Join(if (eventType, state) in db.stateActions then db.stateActions[(eventType, state)] else [],
         db.steps)
  }

  /**
   * With the steps keyed by id, the join names every step at most once, and
   * names exactly the steps that `ids` mentions, that exist, and that are not
   * in `seen`.
   */
  lemma {:induction false} JoinFromFacts(ids: seq<int>, steps: map<int, Step>, seen: set<int>)
    requires forall i :: i in steps ==> steps[i].id == i
    ensures var r := JoinFrom(ids, steps, seen);
      (forall k :: 0 <= k < |r| ==> r[k].id !in seen)
      && (forall k, l :: 0 <= k < l < |r| ==> r[k].id != r[l].id)
      && (forall st :: st in r <==> st.id in ids && st.id !in seen && st.id in steps && steps[st.id] == st)
    decreases |ids|
  {
    if ids != [] {
      var seen' := if ids[0] in seen || ids[0] !in steps then seen else seen + {ids[0]};
      JoinFromFacts(ids[1..], steps, seen');
      var tail := JoinFrom(ids[1..], steps, seen');
      forall st
        ensures st in JoinFrom(ids, steps, seen) <==>
                st.id in ids && st.id !in seen && st.id in steps && steps[st.id] == st
      {
        if st.id in ids && st.id != ids[0] {
          assert st.id in ids[1..];
        }
        if st.id in ids[1..] {
          assert st.id in ids;
        }
      }
    }
  }

  /**
   * `FindStepsByTypeAndState` (a `SELECT DISTINCT`): every step appears at
   * most once, and a step appears exactly when the catalog lists its id for
   * (type, state) and the step exists.
   */
  lemma StepsForFacts(db: Db, eventType: string, state: string)
    requires WellFormed(db)
    ensures var r := StepsFor(db, eventType, state);
      var ids := if (eventType, state) in db.stateActions then db.stateActions[(eventType, state)] else [];
      (forall k, l :: 0 <= k < l < |r| ==> r[k].id != r[l].id)
      && (forall st :: st in r <==> st.id in ids && st.id in db.steps && db.steps[st.id] == st)
  {
    var ids := if (eventType, state) in db.stateActions then db.stateActions[(eventType, state)] else [];
    JoinFromFacts(ids, db.steps, {});
  }

  /** What `FindPayloadKeysByStepID` returns. */
  function KeysFor(db: Db, stepId: int): seq<string>
  {
    if stepId in db.payloadKeys then db.payloadKeys[stepId] else []
  }

  /** The new table of step rows after an `UpdateWorkflowInstanceStep`. */
  function UpdateRows(rows: map<string, StepRow>, p: StepUpdate): (r: map<string, StepRow>)
    ensures r.Keys == rows.Keys
    ensures forall e :: e in rows && e != p.eventId ==> r[e] == rows[e]
    ensures p.eventId in rows ==>
              var row := r[p.eventId];
              row.status == p.status && row.eventMessage == p.eventMessage
              && row.statusCode == p.statusCode && row.response == p.response
              && row.startedAt == p.startedAt && row.completedAt == p.completedAt
              && row.eventId == rows[p.eventId].eventId
              && row.instanceId == rows[p.eventId].instanceId
              && row.stepId == rows[p.eventId].stepId
  {
    if p.eventId in rows then
      rows[p.eventId := rows[p.eventId].(status := p.status, eventMessage := p.eventMessage,
                                         statusCode := p.statusCode, response := p.response,
                                         startedAt := p.startedAt, completedAt := p.completedAt)]
    else rows
  }

  /** The step row `e` belongs to instance `id` of a workflow of type `t` (the three-way join). */
  predicate Joined(db: Db, t: string, id: string, e: string)
  {
    e in db.rows && db.rows[e].instanceId == id
    && id in db.instances && t in db.workflows
    && db.instances[id].workflowId == db.workflows[t].id
  }

  /** Event ids of the rows `FindWorkflowInstanceByTypeAndID` returns. */
  function Matching(db: Db, t: string, id: string): set<string>
  {
    set e | e in db.rows && Joined(db, t, id, e)
  }

  /** The result row for step row `e`. */
  function ViewOf(db: Db, t: string, id: string, e: string): InstanceStepView
    requires Joined(db, t, id, e)
  {
    InstanceStepView(db.workflows[t].id, t, id, db.instances[id].status, db.rows[e].status,
                     db.rows[e].stepId)
  }

  class Store {
    var db: Db
    /** The environment makes every process-log insert fail. */
    var logDown: bool
    /** The queries the environment makes fail. */
    var down: set<Query>

    constructor (db: Db, logDown: bool, down: set<Query>)
      ensures this.db == db && this.logDown == logDown && this.down == down
    {
      this.db := db;
      this.logDown := logDown;
      this.down := down;
    }

    method CreateProcessLog(entry: LogEntry) returns (ok: bool)
      modifies this`db
      ensures ok <==> !logDown
      ensures db == if ok then old(db).(processLog := old(db).processLog + [entry]) else old(db)
    {
      ok := !logDown;
      if ok {
        db := db.(processLog := db.processLog + [entry]);
      }
    }

    method FindWorkflowByType(t: string) returns (r: Result<Workflow, DbError>)
      ensures r.Success? <==> t in db.workflows
      ensures r.Success? ==> r.value == db.workflows[t]
      ensures r.Failure? ==> r.error == NoRows
    {
      if t in db.workflows {
        r := Success(db.workflows[t]);
      } else {
        r := Failure(NoRows);
      }
    }

    method FindInstanceStepByEventID(e: string) returns (r: Result<StepRow, DbError>)
      ensures r.Success? <==> e in db.rows
      ensures r.Success? ==> r.value == db.rows[e]
      ensures r.Failure? ==> r.error == NoRows
    {
      if e in db.rows {
        r := Success(db.rows[e]);
      } else {
        r := Failure(NoRows);
      }
    }

    method UpdateWorkflowInstanceStep(p: StepUpdate) returns (r: Result<(), DbError>)
      modifies this`db
      ensures r.Failure? <==> RowUpdate(p.eventId) in down
      ensures r.Failure? ==> r.error == Unavailable
      ensures db == if r.Success? then old(db).(rows := UpdateRows(old(db).rows, p)) else old(db)
    {
      if RowUpdate(p.eventId) in down {
        return Failure(Unavailable);
      }
      db := db.(rows := UpdateRows(db.rows, p));
      r := Success(());
    }

    method CreateWorkflowInstance(inst: WorkflowInstance) returns (r: Result<WorkflowInstance, DbError>)
      modifies this`db
      ensures r.Success? <==> inst.id !in old(db).instances
      ensures r.Success? ==> r.value == inst && db == old(db).(instances := old(db).instances[inst.id := inst])
      ensures r.Failure? ==> r.error == DuplicateKey && db == old(db)
    {
      if inst.id in db.instances {
        r := Failure(DuplicateKey);
      } else {
        db := db.(instances := db.instances[inst.id := inst]);
        r := Success(inst);
      }
    }

    method FindWorkflowInstanceByID(id: string) returns (r: Result<WorkflowInstance, DbError>)
      ensures r.Success? <==> id in db.instances
      ensures r.Success? ==> r.value == db.instances[id]
      ensures r.Failure? ==> r.error == NoRows
    {
      if id in db.instances {
        r := Success(db.instances[id]);
      } else {
        r := Failure(NoRows);
      }
    }

    method FindStepsByTypeAndState(t: string, s: string) returns (r: Result<seq<Step>, DbError>)
      ensures r.Failure? <==> StepsLookup(t, s) in down
      ensures r == if r.Failure? then Failure(Unavailable) else Success(StepsFor(db, t, s))
    {
      if StepsLookup(t, s) in down {
        return Failure(Unavailable);
      }
      r := Success(StepsFor(db, t, s));
    }

    method FindPayloadKeysByStepID(id: int) returns (r: Result<seq<string>, DbError>)
      ensures r.Failure? <==> KeysLookup(id) in down
      ensures r == if r.Failure? then Failure(Unavailable) else Success(KeysFor(db, id))
    {
      if KeysLookup(id) in down {
        return Failure(Unavailable);
      }
      r := Success(KeysFor(db, id));
    }

    /**
     * `FindWorkflowInstanceByTypeAndID`: the joined rows of one instance, or
     * the database's error when the query fails.
     */
    method FindWorkflowInstanceByTypeAndID(t: string, id: string)
      returns (r: Result<seq<InstanceStepView>, DbError>)
      ensures r.Failure? <==> InstanceRowsLookup(t, id) in down
      ensures r.Failure? ==> r.error == Unavailable
      ensures r.Success? ==> |r.value| == |Matching(db, t, id)|
      ensures r.Success? ==> forall v :: v in r.value <==> exists e :: e in Matching(db, t, id) && v == ViewOf(db, t, id, e)
    {
      if InstanceRowsLookup(t, id) in down {
        return Failure(Unavailable);
      }
      var views := MatchingViews(t, id);
      r := Success(views);
    }

    /** The result rows of one instance, in no particular order: one for every step row of the instance. */
    method MatchingViews(t: string, id: string) returns (views: seq<InstanceStepView>)
      ensures |views| == |Matching(db, t, id)|
      ensures forall v :: v in views <==> exists e :: e in Matching(db, t, id) && v == ViewOf(db, t, id, e)
    {
      var pending := Matching(db, t, id);
      ghost var done: set<string> := {};
      views := [];
      while pending != {}
        invariant pending !! done && pending + done == Matching(db, t, id)
        invariant |views| == |done|
        invariant forall v :: v in views <==> exists e :: e in done && v == ViewOf(db, t, id, e)
        decreases pending
      {
        var e :| e in pending;
        views := views + [ViewOf(db, t, id, e)];
        pending := pending - {e};
        done := done + {e};
      }
    }

    method UpdateWorkflowInstance(status: string, id: string) returns (r: Result<(), DbError>)
      modifies this`db
      ensures r.Failure? <==> InstanceUpdate(id) in down
      ensures r.Failure? ==> r.error == Unavailable
      ensures db == if r.Success? && id in old(db).instances
                    then old(db).(instances := old(db).instances[id := old(db).instances[id].(status := status)])
                    else old(db)
    {
      if InstanceUpdate(id) in down {
        return Failure(Unavailable);
      }
      r := Success(());
      if id in db.instances {
        db := db.(instances := db.instances[id := db.instances[id].(status := status)]);
      }
    }

    method CreateWorkflowInstanceStep(row: StepRow) returns (r: Result<StepRow, DbError>)
      modifies this`db
      ensures r.Success? <==> row.eventId !in old(db).rows
      ensures r.Success? ==> r.value == row && db == old(db).(rows := old(db).rows[row.eventId := row])
      ensures r.Failure? ==> r.error == DuplicateKey && db == old(db)
    {
      if row.eventId in db.rows {
        r := Failure(DuplicateKey);
      } else {
        db := db.(rows := db.rows[row.eventId := row]);
        r := Success(row);
      }
    }

    /** The row with this event id and instance id, with the topic of its step. */
    method FindWorkflowInstanceStepsByEventIDAndInsID(e: string, id: string) returns (r: Result<RowWithTopic, DbError>)
      ensures r.Success? <==> e in db.rows && db.rows[e].instanceId == id && db.rows[e].stepId in db.steps
      ensures r.Success? ==> r.value == RowWithTopic(db.rows[e], db.steps[db.rows[e].stepId].topic)
      ensures r.Failure? ==> r.error == NoRows
    {
      if e in db.rows && db.rows[e].instanceId == id && db.rows[e].stepId in db.steps {
        r := Success(RowWithTopic(db.rows[e], db.steps[db.rows[e].stepId].topic));
      } else {
        r := Failure(NoRows);
      }
    }
  }
}
