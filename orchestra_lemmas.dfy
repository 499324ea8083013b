/**
 * The saga properties of `ProcessWorkflow`, proved about the functions of
 * `OrchestraSpec`: first for one step, then for the fan-out, then for each
 * wave, and finally for a whole call.
 */
module OrchestraLemmas {
  import opened Wrappers
  import opened Json
  import opened Helper
  import opened Events
  import opened Store
  import opened Messaging
  import opened PayloadCache
  import opened OrchestraEvent
  import opened OrchestraSpec

  /** The records `ms` are commands for the steps, each stored as an `in_progress` row first. */
  predicate Commands(ev: Event, id: string, steps: seq<Step>, reqs: seq<Result<Json, MergeError>>,
                     rows: map<string, StepRow>, ms: seq<Message<Snapshot>>)
    requires |reqs| == |steps|
  {
    forall j :: 0 <= j < |ms| ==>
      PersistedBefore(rows, ms[j]) && exists i :: 0 <= i < |steps| && IsCommandFor(ev, id, steps[i], reqs[i], ms[j])
  }

  /**
   * What a fan-out over `steps` publishes: the records already published
   * are kept, and at most one record per step is appended, each a command
   * for one of the steps stored as an `in_progress` row first.
   */
  predicate FannedOut(ev: Event, id: string, steps: seq<Step>, reqs: seq<Result<Json, MergeError>>,
                      before: seq<Message<Snapshot>>, r: World)
    requires |reqs| == |steps|
  {
    |before| <= |r.sent| <= |before| + |steps| && r.sent[..|before|] == before
    && Commands(ev, id, steps, reqs, r.db.rows, r.sent[|before|..])
  }

  /** One `processStep` touches only the step rows and the id supply, and keeps every existing row. */
  lemma DispatchFrame(env: Env, w: World, ev: Event, inst: WorkflowInstance, step: Step,
                      req: Result<Json, MergeError>, now: int)
    ensures var r := DispatchStep(env, w, ev, inst, step, req, now);
      r.cache == w.cache && r.db == w.db.(rows := r.db.rows) && r.drawn >= w.drawn
      && forall e :: e in w.db.rows ==> e in r.db.rows && r.db.rows[e] == w.db.rows[e]
  {
    if Builds(env, step, req) {
      var cmd := Command(ev, req.value, inst.id, env.gen(w.drawn), now);
      if cmd.eventId !in w.db.rows {
        var rows' := w.db.rows[cmd.eventId := PendingRow(cmd, step.id, now)];
        assert DispatchStep(env, w, ev, inst, step, req, now).db == w.db.(rows := rows');
      }
    }
  }

  /** The step's payload keys were found and its payloads merged, so `processStep` builds a command. */
  predicate Builds(env: Env, step: Step, req: Result<Json, MergeError>)
  {
    KeysLookup(step.id) !in env.down && req.Success?
  }

  /**
   * The three ways one `processStep` can go: a step it cannot build a
   * command for changes nothing; a command whose drawn id is already a row's
   * uses up that id and changes nothing else; otherwise the command's
   * `in_progress` row is inserted, two ids are drawn, and the command is
   * published under the second exactly when the step's topic takes it.
   */
  lemma DispatchCases(env: Env, w: World, ev: Event, inst: WorkflowInstance, step: Step,
                      req: Result<Json, MergeError>, now: int)
    ensures var r := DispatchStep(env, w, ev, inst, step, req, now);
      (!Builds(env, step, req) ==> r == w)
      && (Builds(env, step, req) ==>
            var c := Command(ev, req.value, inst.id, env.gen(w.drawn), now);
            c.eventId == env.gen(w.drawn)
            && (c.eventId in w.db.rows ==> r == w.(drawn := w.drawn + 1))
            && (c.eventId !in w.db.rows ==>
                  r.cache == w.cache && r.drawn == w.drawn + 2
                  && r.db == w.db.(rows := w.db.rows[c.eventId := PendingRow(c, step.id, now)])
                  && r.sent == if step.topic in env.unavailable then w.sent
                               else w.sent + [Message(step.topic, env.gen(w.drawn + 1), ToJson(c))]))
  {
  }

  /**
   * One `processStep` publishes exactly its own command, after storing its
   * row, when it builds one under a fresh id and its topic is up, and
   * nothing otherwise.
   */
  lemma DispatchPublishes(env: Env, w: World, ev: Event, inst: WorkflowInstance, step: Step,
                          req: Result<Json, MergeError>, now: int)
    ensures var r := DispatchStep(env, w, ev, inst, step, req, now);
      (r.sent != w.sent <==>
         Builds(env, step, req) && env.gen(w.drawn) !in w.db.rows && step.topic !in env.unavailable)
      && (r.sent == w.sent
          || (|r.sent| == |w.sent| + 1 && r.sent == w.sent + [r.sent[|w.sent|]]
              && PersistedBefore(r.db.rows, r.sent[|w.sent|])
              && IsCommandFor(ev, inst.id, step, req, r.sent[|w.sent|])))
  {
  }

  /** The fan-out touches only the step rows, the published records and the id supply, and keeps every existing row. */
  lemma {:induction false} FanOutFrame(env: Env, w: World, ev: Event, inst: WorkflowInstance, steps: seq<Step>,
                                       reqs: seq<Result<Json, MergeError>>, now: int)
    requires |reqs| == |steps|
    ensures var r := FanOut(env, w, ev, inst, steps, reqs, now);
      r.cache == w.cache && r.db == w.db.(rows := r.db.rows) && r.drawn >= w.drawn
      && forall e :: e in w.db.rows ==> e in r.db.rows && r.db.rows[e] == w.db.rows[e]
    decreases |steps|
  {
    if steps != [] {
      var n := |steps| - 1;
      FanOutFrame(env, w, ev, inst, steps[..n], reqs[..n], now);
      DispatchFrame(env, FanOut(env, w, ev, inst, steps[..n], reqs[..n], now), ev, inst, steps[n], reqs[n], now);
    }
  }

  /** Stored rows stay stored: a message persisted before stays persisted when the rows only grow. */
  lemma CommandsKept(ev: Event, id: string, steps: seq<Step>, reqs: seq<Result<Json, MergeError>>,
                     rows: map<string, StepRow>, rows': map<string, StepRow>, ms: seq<Message<Snapshot>>)
    requires |reqs| == |steps|
    requires forall e :: e in rows ==> e in rows' && rows'[e] == rows[e]
    requires Commands(ev, id, steps, reqs, rows, ms)
    ensures Commands(ev, id, steps, reqs, rows', ms)
  {
    forall j | 0 <= j < |ms|
      ensures PersistedBefore(rows', ms[j])
    {
      assert PersistedBefore(rows, ms[j]);
    }
  }

  /** A command for a step of a prefix of the steps is a command for a step of the whole list. */
  lemma CommandsWiden(ev: Event, id: string, steps: seq<Step>, reqs: seq<Result<Json, MergeError>>,
                      n: nat, rows: map<string, StepRow>, ms: seq<Message<Snapshot>>)
    requires |reqs| == |steps| && n <= |steps|
    requires Commands(ev, id, steps[..n], reqs[..n], rows, ms)
    ensures Commands(ev, id, steps, reqs, rows, ms)
  {
    forall j | 0 <= j < |ms|
      ensures PersistedBefore(rows, ms[j])
      ensures exists i :: 0 <= i < |steps| && IsCommandFor(ev, id, steps[i], reqs[i], ms[j])
    {
      var i :| 0 <= i < n && IsCommandFor(ev, id, steps[..n][i], reqs[..n][i], ms[j]);
      assert steps[..n][i] == steps[i] && reqs[..n][i] == reqs[i];
    }
  }

  /**
   * Every record the fan-out publishes is a "redirect" command for one of the
   * steps, built from the trigger and carrying that step's request, and its
   * `in_progress` row with the same event id, instance id and snapshot was
   * stored before it was published; records published earlier are kept and
   * at most one record per step is added.
   */
  lemma {:induction false} FanOutMessages(env: Env, w: World, ev: Event, inst: WorkflowInstance, steps: seq<Step>,
                                          reqs: seq<Result<Json, MergeError>>, now: int)
    requires |reqs| == |steps|
    ensures FannedOut(ev, inst.id, steps, reqs, w.sent, FanOut(env, w, ev, inst, steps, reqs, now))
    decreases |steps|
  {
    if steps == [] {
      assert w.sent[|w.sent|..] == [];
    } else {
      var n := |steps| - 1;
      var mid := FanOut(env, w, ev, inst, steps[..n], reqs[..n], now);
      var r := DispatchStep(env, mid, ev, inst, steps[n], reqs[n], now);
      FanOutMessages(env, w, ev, inst, steps[..n], reqs[..n], now);
      DispatchFrame(env, mid, ev, inst, steps[n], reqs[n], now);
      DispatchPublishes(env, mid, ev, inst, steps[n], reqs[n], now);
      var earlier := mid.sent[|w.sent|..];
      CommandsWiden(ev, inst.id, steps, reqs, n, mid.db.rows, earlier);
      CommandsKept(ev, inst.id, steps, reqs, mid.db.rows, r.db.rows, earlier);
      if r.sent == mid.sent {
        assert r.sent[|w.sent|..] == earlier;
      } else {
        var m := r.sent[|mid.sent|];
        assert r.sent[|w.sent|..] == earlier + [m];
        assert r.sent[..|w.sent|] == mid.sent[..|w.sent|];
        assert IsCommandFor(ev, inst.id, steps[n], reqs[n], m);
      }
    }
  }

  /** `uuid.New()` never repeats a value. */
  ghost predicate Injective(gen: nat -> string)
  {
    forall a: nat, b: nat :: a != b ==> gen(a) != gen(b)
  }

  /** No id the supply has yet to hand out is already a step row's event id. */
  ghost predicate FreshIds(env: Env, w: World)
  {
    forall n: nat :: n >= w.drawn ==> env.gen(n) !in w.db.rows
  }

  /** Freshness survives any change that draws no id and adds no row. */
  lemma FreshIdsKept(env: Env, w: World, w': World)
    requires FreshIds(env, w) && w'.drawn == w.drawn && w'.db.rows.Keys <= w.db.rows.Keys
    ensures FreshIds(env, w')
  {
  }

  /** Under a non-repeating id supply, one `processStep` keeps the supply fresh. */
  lemma DispatchKeepsFresh(env: Env, w: World, ev: Event, inst: WorkflowInstance, step: Step,
                           req: Result<Json, MergeError>, now: int)
    requires Injective(env.gen) && FreshIds(env, w)
    ensures FreshIds(env, DispatchStep(env, w, ev, inst, step, req, now))
  {
    DispatchCases(env, w, ev, inst, step, req, now);
  }

  /** Under a non-repeating id supply, the fan-out keeps the supply fresh. */
  lemma {:induction false} FanOutKeepsFresh(env: Env, w: World, ev: Event, inst: WorkflowInstance, steps: seq<Step>,
                                            reqs: seq<Result<Json, MergeError>>, now: int)
    requires |reqs| == |steps|
    requires Injective(env.gen) && FreshIds(env, w)
    ensures FreshIds(env, FanOut(env, w, ev, inst, steps, reqs, now))
    decreases |steps|
  {
    if steps != [] {
      var n := |steps| - 1;
      FanOutKeepsFresh(env, w, ev, inst, steps[..n], reqs[..n], now);
      DispatchKeepsFresh(env, FanOut(env, w, ev, inst, steps[..n], reqs[..n], now), ev, inst, steps[n], reqs[n], now);
    }
  }

  /** The ids a fan-out with fresh ids draws: two for every step it builds a command for. */
  function Draws(env: Env, steps: seq<Step>, reqs: seq<Result<Json, MergeError>>): nat
    requires |reqs| == |steps|
    decreases |steps|
  {
    if steps == [] then 0
    else
      var n := |steps| - 1;
      Draws(env, steps[..n], reqs[..n]) + (if Builds(env, steps[n], reqs[n]) then 2 else 0)
  }

  /** The command of the step at position `i` of a fan-out that started with `d` ids drawn. */
  function CommandAt(env: Env, d: nat, ev: Event, inst: WorkflowInstance, steps: seq<Step>,
                     reqs: seq<Result<Json, MergeError>>, now: int, i: nat): Event
    requires |reqs| == |steps| && i < |steps| && reqs[i].Success?
  {
    Command(ev, reqs[i].value, inst.id, env.gen(d + Draws(env, steps[..i], reqs[..i])), now)
  }

  /** The record that carries that command to the step's topic, keyed by the next id. */
  function MessageAt(env: Env, d: nat, ev: Event, inst: WorkflowInstance, steps: seq<Step>,
                     reqs: seq<Result<Json, MergeError>>, now: int, i: nat): Message<Snapshot>
    requires |reqs| == |steps| && i < |steps| && reqs[i].Success?
  {
    Message(steps[i].topic, env.gen(d + Draws(env, steps[..i], reqs[..i]) + 1),
            ToJson(CommandAt(env, d, ev, inst, steps, reqs, now, i)))
  }

  /** The step at position `i` builds a command and its topic takes it. */
  predicate Delivers(env: Env, steps: seq<Step>, reqs: seq<Result<Json, MergeError>>, i: nat)
    requires |reqs| == |steps| && i < |steps|
  {
    Builds(env, steps[i], reqs[i]) && steps[i].topic !in env.unavailable
  }

  /**
   * Reference definition of what a fan-out with fresh ids publishes: in step
   * order, the record of every step that builds a command and whose topic is
   * up, and nothing for any other step.
   */
  function Published(env: Env, d: nat, ev: Event, inst: WorkflowInstance, steps: seq<Step>,
                     reqs: seq<Result<Json, MergeError>>, now: int): seq<Message<Snapshot>>
    requires |reqs| == |steps|
    decreases |steps|
  {
    if steps == [] then []
    else
      var n := |steps| - 1;
      Published(env, d, ev, inst, steps[..n], reqs[..n], now)
        + (if Delivers(env, steps, reqs, n) then [MessageAt(env, d, ev, inst, steps, reqs, now, n)] else [])
  }

  /** On a prefix of the steps, a position keeps its command, its record and whether it is delivered. */
  lemma AtPrefix(env: Env, d: nat, ev: Event, inst: WorkflowInstance, steps: seq<Step>,
                 reqs: seq<Result<Json, MergeError>>, now: int, n: nat, i: nat)
    requires |reqs| == |steps| && i < n <= |steps|
    ensures steps[..n][i] == steps[i] && reqs[..n][i] == reqs[i]
    ensures Builds(env, steps[..n][i], reqs[..n][i]) == Builds(env, steps[i], reqs[i])
    ensures Delivers(env, steps[..n], reqs[..n], i) == Delivers(env, steps, reqs, i)
    ensures reqs[i].Success? ==>
      CommandAt(env, d, ev, inst, steps[..n], reqs[..n], now, i) == CommandAt(env, d, ev, inst, steps, reqs, now, i)
      && MessageAt(env, d, ev, inst, steps[..n], reqs[..n], now, i) == MessageAt(env, d, ev, inst, steps, reqs, now, i)
  {
    assert steps[..n][..i] == steps[..i] && reqs[..n][..i] == reqs[..i];
  }

  /** Under a non-repeating id supply with fresh ids, the fan-out draws exactly `Draws` ids. */
  lemma {:induction false} FanOutDraws(env: Env, w: World, ev: Event, inst: WorkflowInstance, steps: seq<Step>,
                                       reqs: seq<Result<Json, MergeError>>, now: int)
    requires |reqs| == |steps|
    requires Injective(env.gen) && FreshIds(env, w)
    ensures FanOut(env, w, ev, inst, steps, reqs, now).drawn == w.drawn + Draws(env, steps, reqs)
    decreases |steps|
  {
    if steps != [] {
      var n := |steps| - 1;
      var mid := FanOut(env, w, ev, inst, steps[..n], reqs[..n], now);
      FanOutDraws(env, w, ev, inst, steps[..n], reqs[..n], now);
      FanOutKeepsFresh(env, w, ev, inst, steps[..n], reqs[..n], now);
      DispatchCases(env, mid, ev, inst, steps[n], reqs[n], now);
      assert env.gen(mid.drawn) !in mid.db.rows;
    }
  }

  /**
   * Under a non-repeating id supply with fresh ids, every step whose keys
   * are found and whose payloads merge is stored as an `in_progress` row
   * under the id drawn for it, whether or not its topic is up.
   */
  lemma {:induction false} FanOutStoresEveryStep(env: Env, w: World, ev: Event, inst: WorkflowInstance, steps: seq<Step>,
                                                 reqs: seq<Result<Json, MergeError>>, now: int)
    requires |reqs| == |steps|
    requires Injective(env.gen) && FreshIds(env, w)
    ensures var r := FanOut(env, w, ev, inst, steps, reqs, now);
      forall i :: 0 <= i < |steps| && Builds(env, steps[i], reqs[i]) ==>
        var c := CommandAt(env, w.drawn, ev, inst, steps, reqs, now, i);
        c.eventId in r.db.rows && r.db.rows[c.eventId] == PendingRow(c, steps[i].id, now)
    decreases |steps|
  {
    if steps != [] {
      var n := |steps| - 1;
      var mid := FanOut(env, w, ev, inst, steps[..n], reqs[..n], now);
      var r := DispatchStep(env, mid, ev, inst, steps[n], reqs[n], now);
      FanOutStoresEveryStep(env, w, ev, inst, steps[..n], reqs[..n], now);
      FanOutDraws(env, w, ev, inst, steps[..n], reqs[..n], now);
      FanOutKeepsFresh(env, w, ev, inst, steps[..n], reqs[..n], now);
      DispatchFrame(env, mid, ev, inst, steps[n], reqs[n], now);
      DispatchCases(env, mid, ev, inst, steps[n], reqs[n], now);
      assert env.gen(mid.drawn) !in mid.db.rows;
      forall i | 0 <= i < |steps| && Builds(env, steps[i], reqs[i])
        ensures var c := CommandAt(env, w.drawn, ev, inst, steps, reqs, now, i);
          c.eventId in r.db.rows && r.db.rows[c.eventId] == PendingRow(c, steps[i].id, now)
      {
        if i < n {
          AtPrefix(env, w.drawn, ev, inst, steps, reqs, now, n, i);
        }
      }
    }
  }

  /** The event ids of the commands a fan-out with fresh ids builds, one for each step that builds one. */
  function BuiltIds(env: Env, d: nat, ev: Event, inst: WorkflowInstance, steps: seq<Step>,
                    reqs: seq<Result<Json, MergeError>>, now: int): set<string>
    requires |reqs| == |steps|
    decreases |steps|
  {
    if steps == [] then {}
    else
      var n := |steps| - 1;
      BuiltIds(env, d, ev, inst, steps[..n], reqs[..n], now)
        + (if Builds(env, steps[n], reqs[n]) then {CommandAt(env, d, ev, inst, steps, reqs, now, n).eventId} else {})
  }

  /**
   * Under a non-repeating id supply with fresh ids, the rows the fan-out
   * adds are exactly those of the steps whose keys were found and whose
   * payloads merged.
   */
  lemma {:induction false} FanOutAddsOnlyBuiltSteps(env: Env, w: World, ev: Event, inst: WorkflowInstance,
                                                    steps: seq<Step>, reqs: seq<Result<Json, MergeError>>, now: int)
    requires |reqs| == |steps|
    requires Injective(env.gen) && FreshIds(env, w)
    ensures FanOut(env, w, ev, inst, steps, reqs, now).db.rows.Keys
            == w.db.rows.Keys + BuiltIds(env, w.drawn, ev, inst, steps, reqs, now)
    decreases |steps|
  {
    if steps != [] {
      var n := |steps| - 1;
      var mid := FanOut(env, w, ev, inst, steps[..n], reqs[..n], now);
      FanOutAddsOnlyBuiltSteps(env, w, ev, inst, steps[..n], reqs[..n], now);
      FanOutDraws(env, w, ev, inst, steps[..n], reqs[..n], now);
      FanOutKeepsFresh(env, w, ev, inst, steps[..n], reqs[..n], now);
      DispatchCases(env, mid, ev, inst, steps[n], reqs[n], now);
      assert env.gen(mid.drawn) !in mid.db.rows;
    }
  }

  /**
   * Fan-out visits every step in order: under a non-repeating id supply with
   * fresh ids, what it publishes is exactly `Published`, so a step whose
   * topic is down or whose command cannot be built costs the others nothing.
   */
  lemma {:induction false} FanOutDispatchesEveryStep(env: Env, w: World, ev: Event, inst: WorkflowInstance, steps: seq<Step>,
                                                     reqs: seq<Result<Json, MergeError>>, now: int)
    requires |reqs| == |steps|
    requires Injective(env.gen) && FreshIds(env, w)
    ensures FanOut(env, w, ev, inst, steps, reqs, now).sent == w.sent + Published(env, w.drawn, ev, inst, steps, reqs, now)
    decreases |steps|
  {
    if steps != [] {
      var n := |steps| - 1;
      var mid := FanOut(env, w, ev, inst, steps[..n], reqs[..n], now);
      FanOutDispatchesEveryStep(env, w, ev, inst, steps[..n], reqs[..n], now);
      FanOutDraws(env, w, ev, inst, steps[..n], reqs[..n], now);
      FanOutKeepsFresh(env, w, ev, inst, steps[..n], reqs[..n], now);
      DispatchCases(env, mid, ev, inst, steps[n], reqs[n], now);
      assert env.gen(mid.drawn) !in mid.db.rows;
      var prev := Published(env, w.drawn, ev, inst, steps[..n], reqs[..n], now);
      if Delivers(env, steps, reqs, n) {
        var m := MessageAt(env, w.drawn, ev, inst, steps, reqs, now, n);
        assert (w.sent + prev) + [m] == w.sent + (prev + [m]);
      }
    }
  }

  /** `Published` holds the record of every step that builds a command and whose topic is up. */
  lemma {:induction false} PublishedHasDelivered(env: Env, d: nat, ev: Event, inst: WorkflowInstance, steps: seq<Step>,
                                                 reqs: seq<Result<Json, MergeError>>, now: int)
    requires |reqs| == |steps|
    ensures forall i :: 0 <= i < |steps| && Delivers(env, steps, reqs, i) ==>
      MessageAt(env, d, ev, inst, steps, reqs, now, i) in Published(env, d, ev, inst, steps, reqs, now)
    decreases |steps|
  {
    if steps != [] {
      var n := |steps| - 1;
      var prev := Published(env, d, ev, inst, steps[..n], reqs[..n], now);
      PublishedHasDelivered(env, d, ev, inst, steps[..n], reqs[..n], now);
      forall i | 0 <= i < |steps| && Delivers(env, steps, reqs, i)
        ensures MessageAt(env, d, ev, inst, steps, reqs, now, i) in Published(env, d, ev, inst, steps, reqs, now)
      {
        if i < n {
          AtPrefix(env, d, ev, inst, steps, reqs, now, n, i);
          assert MessageAt(env, d, ev, inst, steps[..n], reqs[..n], now, i) in prev;
        }
      }
    }
  }

  /** `m` is the record of a step that builds a command and whose topic is up. */
  predicate FromDelivered(env: Env, d: nat, ev: Event, inst: WorkflowInstance, steps: seq<Step>,
                          reqs: seq<Result<Json, MergeError>>, now: int, m: Message<Snapshot>)
    requires |reqs| == |steps|
  {
    exists i: nat :: i < |steps| && Delivers(env, steps, reqs, i) && m == MessageAt(env, d, ev, inst, steps, reqs, now, i)
  }

  /** Every record of `Published` is the record of a step that builds a command and whose topic is up. */
  lemma {:induction false} PublishedOnlyDelivered(env: Env, d: nat, ev: Event, inst: WorkflowInstance, steps: seq<Step>,
                                                  reqs: seq<Result<Json, MergeError>>, now: int)
    requires |reqs| == |steps|
    ensures forall m :: m in Published(env, d, ev, inst, steps, reqs, now) ==>
      FromDelivered(env, d, ev, inst, steps, reqs, now, m)
    decreases |steps|
  {
    if steps != [] {
      var n := |steps| - 1;
      var prev := Published(env, d, ev, inst, steps[..n], reqs[..n], now);
      PublishedOnlyDelivered(env, d, ev, inst, steps[..n], reqs[..n], now);
      forall m | m in Published(env, d, ev, inst, steps, reqs, now)
        ensures FromDelivered(env, d, ev, inst, steps, reqs, now, m)
      {
        if m in prev {
          assert FromDelivered(env, d, ev, inst, steps[..n], reqs[..n], now, m);
          var i: nat :| i < |steps[..n]| && Delivers(env, steps[..n], reqs[..n], i)
                        && m == MessageAt(env, d, ev, inst, steps[..n], reqs[..n], now, i);
          AtPrefix(env, d, ev, inst, steps, reqs, now, n, i);
          assert Delivers(env, steps, reqs, i) && m == MessageAt(env, d, ev, inst, steps, reqs, now, i);
        } else {
          assert Delivers(env, steps, reqs, n) && m == MessageAt(env, d, ev, inst, steps, reqs, now, n);
        }
      }
    }
  }

  /**
   * Three steps whose keys are found and whose payloads merge, the middle
   * one's topic down: all three rows are stored under ids `d`, `d + 2` and
   * `d + 4`, and the first and third commands, and only they, are published,
   * in order, under message keys `d + 1` and `d + 5`.
   */
  lemma FanOutSkipsDownTopic(env: Env, w: World, ev: Event, inst: WorkflowInstance, s0: Step, s1: Step, s2: Step,
                             q0: Json, q1: Json, q2: Json, now: int)
    requires Injective(env.gen) && FreshIds(env, w)
    requires KeysLookup(s0.id) !in env.down && KeysLookup(s1.id) !in env.down && KeysLookup(s2.id) !in env.down
    requires s0.topic !in env.unavailable && s1.topic in env.unavailable && s2.topic !in env.unavailable
    ensures var r := FanOut(env, w, ev, inst, [s0, s1, s2], [Success(q0), Success(q1), Success(q2)], now);
      var c0 := Command(ev, q0, inst.id, env.gen(w.drawn), now);
      var c1 := Command(ev, q1, inst.id, env.gen(w.drawn + 2), now);
      var c2 := Command(ev, q2, inst.id, env.gen(w.drawn + 4), now);
      r.sent == w.sent + [Message(s0.topic, env.gen(w.drawn + 1), ToJson(c0)),
                          Message(s2.topic, env.gen(w.drawn + 5), ToJson(c2))]
      && c0.eventId in r.db.rows && r.db.rows[c0.eventId] == PendingRow(c0, s0.id, now)
      && c1.eventId in r.db.rows && r.db.rows[c1.eventId] == PendingRow(c1, s1.id, now)
      && c2.eventId in r.db.rows && r.db.rows[c2.eventId] == PendingRow(c2, s2.id, now)
      && r.drawn == w.drawn + 6
  {
    FanOutThree(env, w, ev, inst, s0, s1, s2, Success(q0), Success(q1), Success(q2), now);
    var d := w.drawn;
    assert env.gen(d) !in w.db.rows && env.gen(d + 2) !in w.db.rows && env.gen(d + 4) !in w.db.rows;
    assert env.gen(d) != env.gen(d + 2) && env.gen(d) != env.gen(d + 4) && env.gen(d + 2) != env.gen(d + 4);
    ThreeFreshSteps(env, w, ev, inst, s0, s1, s2, q0, q1, q2, now);
  }

  /** A fan-out over three steps is three `processStep`s in order. */
  lemma FanOutThree(env: Env, w: World, ev: Event, inst: WorkflowInstance, s0: Step, s1: Step, s2: Step,
                    r0: Result<Json, MergeError>, r1: Result<Json, MergeError>, r2: Result<Json, MergeError>, now: int)
    ensures FanOut(env, w, ev, inst, [s0, s1, s2], [r0, r1, r2], now)
            == DispatchStep(env, DispatchStep(env, DispatchStep(env, w, ev, inst, s0, r0, now),
                                              ev, inst, s1, r1, now), ev, inst, s2, r2, now)
  {
    var steps := [s0, s1, s2];
    var reqs := [r0, r1, r2];
    assert steps[..0] == [] && reqs[..0] == [];
    assert steps[..3] == steps && reqs[..3] == reqs;
    FanOutSnoc(env, w, ev, inst, steps, reqs, now, 0);
    FanOutSnoc(env, w, ev, inst, steps, reqs, now, 1);
    FanOutSnoc(env, w, ev, inst, steps, reqs, now, 2);
  }

  /** The three dispatches of `FanOutSkipsDownTopic`, given three distinct ids no row has. */
  lemma ThreeFreshSteps(env: Env, w: World, ev: Event, inst: WorkflowInstance, s0: Step, s1: Step, s2: Step,
                        q0: Json, q1: Json, q2: Json, now: int)
    requires KeysLookup(s0.id) !in env.down && KeysLookup(s1.id) !in env.down && KeysLookup(s2.id) !in env.down
    requires s0.topic !in env.unavailable && s1.topic in env.unavailable && s2.topic !in env.unavailable
    requires env.gen(w.drawn) !in w.db.rows && env.gen(w.drawn + 2) !in w.db.rows && env.gen(w.drawn + 4) !in w.db.rows
    requires env.gen(w.drawn) != env.gen(w.drawn + 2) && env.gen(w.drawn) != env.gen(w.drawn + 4)
    requires env.gen(w.drawn + 2) != env.gen(w.drawn + 4)
    ensures var r := DispatchStep(env, DispatchStep(env, DispatchStep(env, w, ev, inst, s0, Success(q0), now),
                                                    ev, inst, s1, Success(q1), now), ev, inst, s2, Success(q2), now);
      var c0 := Command(ev, q0, inst.id, env.gen(w.drawn), now);
      var c1 := Command(ev, q1, inst.id, env.gen(w.drawn + 2), now);
      var c2 := Command(ev, q2, inst.id, env.gen(w.drawn + 4), now);
      r.sent == w.sent + [Message(s0.topic, env.gen(w.drawn + 1), ToJson(c0)),
                          Message(s2.topic, env.gen(w.drawn + 5), ToJson(c2))]
      && c0.eventId in r.db.rows && r.db.rows[c0.eventId] == PendingRow(c0, s0.id, now)
      && c1.eventId in r.db.rows && r.db.rows[c1.eventId] == PendingRow(c1, s1.id, now)
      && c2.eventId in r.db.rows && r.db.rows[c2.eventId] == PendingRow(c2, s2.id, now)
      && r.drawn == w.drawn + 6
  {
    var w1 := DispatchStep(env, w, ev, inst, s0, Success(q0), now);
    var w2 := DispatchStep(env, w1, ev, inst, s1, Success(q1), now);
    DispatchFresh(env, w, ev, inst, s0, q0, now);
    DispatchFresh(env, w1, ev, inst, s1, q1, now);
    DispatchFresh(env, w2, ev, inst, s2, q2, now);
    var m0 := Message(s0.topic, env.gen(w.drawn + 1), ToJson(Command(ev, q0, inst.id, env.gen(w.drawn), now)));
    var m2 := Message(s2.topic, env.gen(w.drawn + 5), ToJson(Command(ev, q2, inst.id, env.gen(w.drawn + 4), now)));
    assert w.sent + [m0] + [m2] == w.sent + [m0, m2];
  }

  /** A step that builds its command under an id no row has: its row is inserted and two ids are drawn. */
  lemma DispatchFresh(env: Env, w: World, ev: Event, inst: WorkflowInstance, step: Step, q: Json, now: int)
    requires KeysLookup(step.id) !in env.down && env.gen(w.drawn) !in w.db.rows
    ensures var r := DispatchStep(env, w, ev, inst, step, Success(q), now);
      var c := Command(ev, q, inst.id, env.gen(w.drawn), now);
      c.eventId == env.gen(w.drawn) && r.drawn == w.drawn + 2
      && r.db.rows == w.db.rows[c.eventId := PendingRow(c, step.id, now)]
      && r.sent == if step.topic in env.unavailable then w.sent
                   else w.sent + [Message(step.topic, env.gen(w.drawn + 1), ToJson(c))]
  {
  }

  /** The fan-out over one more step is one more `processStep`. */
  lemma FanOutSnoc(env: Env, w: World, ev: Event, inst: WorkflowInstance, steps: seq<Step>,
                   reqs: seq<Result<Json, MergeError>>, now: int, n: nat)
    requires |reqs| == |steps| && n < |steps|
    ensures FanOut(env, w, ev, inst, steps[..n + 1], reqs[..n + 1], now)
            == DispatchStep(env, FanOut(env, w, ev, inst, steps[..n], reqs[..n], now), ev, inst, steps[n], reqs[n], now)
  {
    assert steps[..n + 1][..n] == steps[..n] && reqs[..n + 1][..n] == reqs[..n];
  }

  /** The `i`-th request is the merge of the `i`-th step's payload keys. */
  lemma {:induction false} RequestsAt(db: Db, steps: seq<Step>, bag: Bag, i: nat)
    requires i < |steps|
    ensures Requests(db, steps, bag)[i] == StepRequest(db, steps[i], bag)
    decreases |steps|
  {
    var n := |steps| - 1;
    if i < n {
      RequestsAt(db, steps[..n], bag, i);
    }
  }

  /** The requests of a step list depend on the tables only through the payload keys. */
  lemma {:induction false} RequestsDependOnKeys(d: Db, d': Db, steps: seq<Step>, bag: Bag)
    requires d.payloadKeys == d'.payloadKeys
    ensures Requests(d, steps, bag) == Requests(d', steps, bag)
    decreases |steps|
  {
    if steps != [] {
      var n := |steps| - 1;
      RequestsDependOnKeys(d, d', steps[..n], bag);
      assert KeysFor(d, steps[n].id) == KeysFor(d', steps[n].id);
    }
  }

  /**
   * Either wave changes only the step rows and the instance being driven,
   * and keeps every existing row; a failed step lookup changes nothing, and
   * the terminal wave publishes nothing.
   */
  lemma WaveFrame(env: Env, w: World, ev: Event, inst: WorkflowInstance, now: int)
    ensures var r := Wave(env, w, ev, inst, now).0;
      r.cache == w.cache && r.db == w.db.(rows := r.db.rows, instances := r.db.instances)
      && (forall e :: e in w.db.rows ==> e in r.db.rows && r.db.rows[e] == w.db.rows[e])
      && r.db.instances.Keys == w.db.instances.Keys
      && (forall i :: i in w.db.instances && i != inst.id ==> r.db.instances[i] == w.db.instances[i])
      && (StepsLookup(ev.eventType, ev.state) in env.down ==> Wave(env, w, ev, inst, now) == (w, Err(FindSteps(Unavailable))))
      && (StepsFor(w.db, ev.eventType, ev.state) != [] ==> r.db.instances == w.db.instances)
      && (StepsFor(w.db, ev.eventType, ev.state) == [] ==> r.sent == w.sent && r.drawn == w.drawn)
  {
    var steps := StepsFor(w.db, ev.eventType, ev.state);
    if StepsLookup(ev.eventType, ev.state) !in env.down && steps != [] {
      FanOutFrame(env, w, ev, inst, steps, Requests(w.db, steps, BagOf(w.cache, ev.instanceId)), now);
    }
  }

  /**
   * `processDone` with no steps for (event type, state): nothing is
   * published and no id is drawn; a failed step lookup is the "find steps"
   * error and a failed row lookup or status update the "process done"
   * error, both changing nothing; without any step row of the instance the
   * wave panics; otherwise the instance ends "failed" if some step row is
   * not "success" and "completed" if all are.
   */
  lemma TerminalWave(env: Env, w: World, ev: Event, inst: WorkflowInstance, now: int)
    requires StepsFor(w.db, ev.eventType, ev.state) == [] && inst.id in w.db.instances
    ensures var (r, out) := Wave(env, w, ev, inst, now);
      var stepsDown := StepsLookup(ev.eventType, ev.state) in env.down;
      var rowsDown := InstanceRowsLookup(ev.eventType, inst.id) in env.down;
      var none := Matching(w.db, ev.eventType, inst.id) == {};
      r.sent == w.sent && r.drawn == w.drawn
      && (out.Err? <==> stepsDown || rowsDown || (!none && InstanceUpdate(inst.id) in env.down))
      && (out.Err? ==> r == w && out.error == if stepsDown then FindSteps(Unavailable) else Finish(Unavailable))
      && (out == Panicked <==> !stepsDown && !rowsDown && none)
      && (out == Panicked ==> r == w)
      && (out == Ok ==>
            inst.id in r.db.instances && Matching(r.db, ev.eventType, inst.id) == Matching(w.db, ev.eventType, inst.id)
            && (r.db.instances[inst.id].status == InstanceFailed <==> HasFailedStep(w.db, ev.eventType, inst.id))
            && (r.db.instances[inst.id].status == InstanceCompleted <==> !HasFailedStep(w.db, ev.eventType, inst.id)))
  {
    if Matching(w.db, ev.eventType, inst.id) != {} {
      var d := Finished(w.db, ev.eventType, inst.id);
      assert forall e :: Joined(d, ev.eventType, inst.id, e) <==> Joined(w.db, ev.eventType, inst.id, e);
      assert Matching(d, ev.eventType, inst.id) == Matching(w.db, ev.eventType, inst.id);
    }
  }

  /**
   * The fan-out wave fails with "find steps", changing nothing, when the
   * step lookup fails; otherwise it succeeds and publishes only commands for
   * the steps.
   */
  lemma FanOutWave(env: Env, w: World, ev: Event, inst: WorkflowInstance, now: int)
    requires StepsFor(w.db, ev.eventType, ev.state) != []
    ensures var (r, out) := Wave(env, w, ev, inst, now);
      var steps := StepsFor(w.db, ev.eventType, ev.state);
      out == (if StepsLookup(ev.eventType, ev.state) in env.down then Err(FindSteps(Unavailable)) else Ok)
      && (out.Err? ==> r == w)
      && (out == Ok ==> FannedOut(ev, inst.id, steps, Requests(w.db, steps, BagOf(w.cache, ev.instanceId)), w.sent, r))
  {
    var steps := StepsFor(w.db, ev.eventType, ev.state);
    FanOutMessages(env, w, ev, inst, steps, Requests(w.db, steps, BagOf(w.cache, ev.instanceId)), now);
  }

  /** The state just before `processSteps`, when the instance resolves to `inst`. */
  function BeforeWave(env: Env, w: World, ev: Event, inst: WorkflowInstance, now: int): World
  {
    var w3 := w.(db := w.db.(rows := ClosedRows(env.down, w.db.rows, ev, now)));
    w3.(db := Resolved(w3.db, ev, inst))
  }

  /** The state after the log attempt, the cache upsert and the close of the originating row. */
  function AfterClose(env: Env, w: World, ev: Event, now: int): World
  {
    var w2 := Intake(env, w, ev);
    w2.(db := w2.db.(rows := ClosedRows(env.down, w2.db.rows, ev, now)))
  }

  /**
   * Past a successful workflow lookup, a call either stops with the
   * instance error, in the state after the close, or runs the wave on the
   * resolved instance.
   */
  lemma ProcessReachesWave(env: Env, w: World, ev: Event, now: int)
    requires ev.eventType in w.db.workflows
    ensures match Resolve(w.db, ev, w.db.workflows[ev.eventType])
      case Failure(e) => ProcessSpec(env, w, ev, now) == (AfterClose(env, w, ev, now), Err(Instance(e)))
      case Success(inst) =>
        ProcessSpec(env, w, ev, now) == Wave(env, BeforeWave(env, Intake(env, w, ev), ev, inst, now), ev, inst, now)
  {
    var w2 := Intake(env, w, ev);
    var wf := w.db.workflows[ev.eventType];
    assert w2.db == w.db.(processLog := w2.db.processLog);
    assert ProcessSpec(env, w, ev, now) == AfterLookup(env, w2, ev, wf, now);
    assert Resolve(AfterClose(env, w, ev, now).db, ev, wf) == Resolve(w.db, ev, wf);
  }

  /**
   * `getCachePayload`: the trigger's response is recorded under its source in
   * its instance's bag, every other source of that bag and every other
   * instance's bag are kept, and a missing bag starts out empty.
   */
  lemma UpsertedFacts(cache: map<string, Bag>, inst: string, src: string, resp: Json)
    ensures var c := Upserted(cache, inst, src, resp);
      inst in c && src in c[inst] && c[inst][src] == resp
      && (forall s :: s in BagOf(cache, inst) && s != src ==> s in c[inst] && c[inst][s] == BagOf(cache, inst)[s])
      && c[inst].Keys == BagOf(cache, inst).Keys + {src}
      && (forall i :: i in cache && i != inst ==> i in c && c[i] == cache[i])
      && c.Keys == cache.Keys + {inst}
  {
  }

  /** After the close nothing is published, no id is drawn and the instances are untouched. */
  lemma AfterCloseFrame(env: Env, w: World, ev: Event, now: int)
    ensures var a := AfterClose(env, w, ev, now);
      a.sent == w.sent && a.drawn == w.drawn && a.db.instances == w.db.instances
      && a.db.rows == ClosedRows(env.down, w.db.rows, ev, now)
      && a.cache == Upserted(w.cache, ev.instanceId, ev.source, ev.payload.response)
  {
  }

  /** What the wave starts from: the logged, cached and closed state, with the resolved instance recorded. */
  lemma StateBeforeWave(env: Env, w: World, ev: Event, inst: WorkflowInstance, now: int)
    ensures var w4 := BeforeWave(env, Intake(env, w, ev), ev, inst, now);
      w4.sent == w.sent && w4.drawn == w.drawn
      && w4.cache == Upserted(w.cache, ev.instanceId, ev.source, ev.payload.response)
      && w4.db == w.db.(processLog := w4.db.processLog, rows := ClosedRows(env.down, w.db.rows, ev, now),
                        instances := w4.db.instances)
      && w4.db.processLog == w.db.processLog + (if env.logDown then [] else [LogEntryOf(ev)])
      && w4.db.instances == (if IsInitiating(ev.state) then w.db.instances[inst.id := inst] else w.db.instances)
  {
  }

  /** The stages after the workflow lookup touch only step rows and instances. */
  lemma AfterLookupFrame(env: Env, w: World, ev: Event, wf: Workflow, now: int)
    ensures var (r, out) := AfterLookup(env, w, ev, wf, now);
      r.cache == w.cache && r.db == w.db.(rows := r.db.rows, instances := r.db.instances)
      && (out.Err? ==> r.sent == w.sent && r.drawn == w.drawn)
      && (out.Err? && out.error.Instance? ==> r.db.instances == w.db.instances)
  {
    var w3 := w.(db := w.db.(rows := ClosedRows(env.down, w.db.rows, ev, now)));
    if Resolve(w3.db, ev, wf).Success? {
      var inst := Resolve(w3.db, ev, wf).value;
      var w4 := BeforeWave(env, w, ev, inst, now);
      assert AfterLookup(env, w, ev, wf, now) == Wave(env, w4, ev, inst, now);
      WaveFrame(env, w4, ev, inst, now);
    }
  }

  /**
   * The effects every call has, whatever its outcome: one log attempt, the
   * upsert of the trigger's response, and no change to the catalog tables.
   */
  lemma ProcessAlwaysLogsAndCaches(env: Env, w: World, ev: Event, now: int)
    ensures var r := ProcessSpec(env, w, ev, now).0;
      r.cache == Upserted(w.cache, ev.instanceId, ev.source, ev.payload.response)
      && r.db.processLog == w.db.processLog + (if env.logDown then [] else [LogEntryOf(ev)])
      && r.db.workflows == w.db.workflows && r.db.steps == w.db.steps
      && r.db.stateActions == w.db.stateActions && r.db.payloadKeys == w.db.payloadKeys
  {
    var w2 := Intake(env, w, ev);
    assert w2.db == w.db.(processLog := w2.db.processLog);
    if ev.eventType in w.db.workflows {
      var wf := w.db.workflows[ev.eventType];
      assert ProcessSpec(env, w, ev, now) == AfterLookup(env, w2, ev, wf, now);
      AfterLookupFrame(env, w2, ev, wf, now);
    }
  }

  /**
   * An unknown workflow type stops the call with "find workflow" after the
   * log attempt and the cache upsert, before any step row, instance or
   * publish.
   */
  lemma ProcessUnknownWorkflow(env: Env, w: World, ev: Event, now: int)
    requires ev.eventType !in w.db.workflows
    ensures ProcessSpec(env, w, ev, now) == (Intake(env, w, ev), Err(FindWorkflow(NoRows)))
    ensures var r := Intake(env, w, ev);
      r.db == w.db.(processLog := r.db.processLog) && r.sent == w.sent && r.drawn == w.drawn
  {
  }

  /**
   * Closing the originating step is best effort: no existing row other than
   * the trigger's changes.
   */
  lemma ProcessKeepsOtherRows(env: Env, w: World, ev: Event, now: int)
    ensures var r := ProcessSpec(env, w, ev, now).0;
      forall e :: e in w.db.rows && e != ev.eventId ==> e in r.db.rows && r.db.rows[e] == w.db.rows[e]
  {
    if ev.eventType in w.db.workflows {
      ProcessReachesWave(env, w, ev, now);
      match Resolve(w.db, ev, w.db.workflows[ev.eventType]) {
        case Failure(_) =>
          AfterCloseFrame(env, w, ev, now);
        case Success(inst) =>
          StateBeforeWave(env, w, ev, inst, now);
          WaveFrame(env, BeforeWave(env, Intake(env, w, ev), ev, inst, now), ev, inst, now);
      }
    }
  }

  /** The row `handleInstanceStep` leaves: the trigger's outcome, completed now, start time kept. */
  function ClosedRow(ev: Event, row: StepRow, now: int): StepRow
  {
    row.(status := ev.status, eventMessage := Some(ToJson(ev)), statusCode := Some(Int32(ev.statusCode)),
         response := Some(ev.payload.response), completedAt := Some(now))
  }

  /**
   * Closing the originating step: when the workflow is known and a row has
   * the trigger's event id, that row ends with the trigger's status, code,
   * response and snapshot and a completion time, keeping its own ids and
   * start time, whatever happens later in the call; when the update fails
   * the row is left as it was and the call goes on.
   */
  lemma ProcessClosesOriginatingStep(env: Env, w: World, ev: Event, now: int)
    requires ev.eventType in w.db.workflows && ev.eventId in w.db.rows
    ensures var r := ProcessSpec(env, w, ev, now).0;
      ev.eventId in r.db.rows
      && r.db.rows[ev.eventId] == if RowUpdate(ev.eventId) in env.down then w.db.rows[ev.eventId]
                                  else ClosedRow(ev, w.db.rows[ev.eventId], now)
  {
    assert ClosedRows(env.down, w.db.rows, ev, now)[ev.eventId]
           == if RowUpdate(ev.eventId) in env.down then w.db.rows[ev.eventId]
              else ClosedRow(ev, w.db.rows[ev.eventId], now);
    ProcessReachesWave(env, w, ev, now);
    match Resolve(w.db, ev, w.db.workflows[ev.eventType]) {
      case Failure(_) =>
        AfterCloseFrame(env, w, ev, now);
      case Success(inst) =>
        StateBeforeWave(env, w, ev, inst, now);
        WaveFrame(env, BeforeWave(env, Intake(env, w, ev), ev, inst, now), ev, inst, now);
    }
  }

  /**
   * An instance is created, with the trigger's instance id, the workflow's
   * id and, when there are steps to run, status "in_progress", when the
   * workflow type is known, the state is an initiating one and no instance
   * has that id.
   */
  lemma ProcessCreatesInstance(env: Env, w: World, ev: Event, now: int)
    requires WellFormed(w.db)
    requires ev.eventType in w.db.workflows && IsInitiating(ev.state) && ev.instanceId !in w.db.instances
    ensures var r := ProcessSpec(env, w, ev, now).0;
      r.db.instances.Keys == w.db.instances.Keys + {ev.instanceId}
      && r.db.instances[ev.instanceId].workflowId == w.db.workflows[ev.eventType].id
      && (StepsFor(w.db, ev.eventType, ev.state) != [] ==> r.db.instances[ev.instanceId].status == InProgress)
  {
    ProcessReachesWave(env, w, ev, now);
    var inst := Resolve(w.db, ev, w.db.workflows[ev.eventType]).value;
    StateBeforeWave(env, w, ev, inst, now);
    var w4 := BeforeWave(env, Intake(env, w, ev), ev, inst, now);
    assert StepsFor(w4.db, ev.eventType, ev.state) == StepsFor(w.db, ev.eventType, ev.state);
    WaveFrame(env, w4, ev, inst, now);
  }

  /** Otherwise no instance is created. */
  lemma ProcessCreatesOnlyWhenInitiating(env: Env, w: World, ev: Event, now: int)
    requires WellFormed(w.db)
    requires !(ev.eventType in w.db.workflows && IsInitiating(ev.state) && ev.instanceId !in w.db.instances)
    ensures ProcessSpec(env, w, ev, now).0.db.instances.Keys == w.db.instances.Keys
  {
    if ev.eventType in w.db.workflows {
      ProcessReachesWave(env, w, ev, now);
      match Resolve(w.db, ev, w.db.workflows[ev.eventType]) {
        case Failure(_) =>
          AfterCloseFrame(env, w, ev, now);
        case Success(inst) =>
          assert inst.id == ev.instanceId;
          StateBeforeWave(env, w, ev, inst, now);
          WaveFrame(env, BeforeWave(env, Intake(env, w, ev), ev, inst, now), ev, inst, now);
      }
    }
  }

  /** A call touches at most the trigger's own instance. */
  lemma ProcessKeepsOtherInstances(env: Env, w: World, ev: Event, now: int)
    requires WellFormed(w.db)
    ensures var r := ProcessSpec(env, w, ev, now).0;
      forall i :: i in w.db.instances && i != ev.instanceId ==> i in r.db.instances && r.db.instances[i] == w.db.instances[i]
  {
    if ev.eventType in w.db.workflows {
      ProcessReachesWave(env, w, ev, now);
      match Resolve(w.db, ev, w.db.workflows[ev.eventType]) {
        case Failure(_) =>
          AfterCloseFrame(env, w, ev, now);
        case Success(inst) =>
          assert inst.id == ev.instanceId;
          StateBeforeWave(env, w, ev, inst, now);
          WaveFrame(env, BeforeWave(env, Intake(env, w, ev), ev, inst, now), ev, inst, now);
      }
    }
  }

  /**
   * A known workflow whose instance cannot be resolved fails the call in
   * the state after the close, so with nothing published and no instance
   * created: an initiating state whose instance id is taken fails as a
   * duplicate, any other state whose instance is missing fails as not found.
   */
  lemma ProcessInstanceErrors(env: Env, w: World, ev: Event, now: int)
    requires ev.eventType in w.db.workflows
    ensures IsInitiating(ev.state) && ev.instanceId in w.db.instances ==>
      ProcessSpec(env, w, ev, now) == (AfterClose(env, w, ev, now), Err(Instance(DuplicateKey)))
    ensures !IsInitiating(ev.state) && ev.instanceId !in w.db.instances ==>
      ProcessSpec(env, w, ev, now) == (AfterClose(env, w, ev, now), Err(Instance(NoRows)))
  {
    ProcessReachesWave(env, w, ev, now);
  }

  /**
   * The terminal wave of a whole call: with no steps for (event type,
   * state) nothing is published and no id is drawn; a failed step lookup is
   * the "find steps" error, a failed lookup of the instance's rows or of its
   * status update the "process done" error; without any step row of the
   * instance the call panics; otherwise the instance's status becomes
   * "failed" if some step row of the instance is not "success" and
   * "completed" if all are.
   */
  lemma ProcessTerminalWave(env: Env, w: World, ev: Event, now: int)
    requires WellFormed(w.db) && ev.eventType in w.db.workflows
    requires IsInitiating(ev.state) ==> ev.instanceId !in w.db.instances
    requires !IsInitiating(ev.state) ==> ev.instanceId in w.db.instances
    requires StepsFor(w.db, ev.eventType, ev.state) == []
    ensures var (r, out) := ProcessSpec(env, w, ev, now);
      var stepsDown := StepsLookup(ev.eventType, ev.state) in env.down;
      var rowsDown := InstanceRowsLookup(ev.eventType, ev.instanceId) in env.down;
      var none := Matching(r.db, ev.eventType, ev.instanceId) == {};
      r.sent == w.sent && r.drawn == w.drawn
      && (out.Err? <==> stepsDown || rowsDown || (!none && InstanceUpdate(ev.instanceId) in env.down))
      && (out.Err? ==> out.error == if stepsDown then FindSteps(Unavailable) else Finish(Unavailable))
      && (out == Panicked <==> !stepsDown && !rowsDown && none)
      && (out == Ok ==>
            ev.instanceId in r.db.instances
            && (r.db.instances[ev.instanceId].status == InstanceFailed
                <==> HasFailedStep(r.db, ev.eventType, ev.instanceId))
            && (r.db.instances[ev.instanceId].status == InstanceCompleted
                <==> !HasFailedStep(r.db, ev.eventType, ev.instanceId)))
  {
    ProcessReachesWave(env, w, ev, now);
    var inst := Resolve(w.db, ev, w.db.workflows[ev.eventType]).value;
    assert inst.id == ev.instanceId;
    StateBeforeWave(env, w, ev, inst, now);
    var w4 := BeforeWave(env, Intake(env, w, ev), ev, inst, now);
    assert StepsFor(w4.db, ev.eventType, ev.state) == [];
    TerminalWave(env, w4, ev, inst, now);
    var r := Wave(env, w4, ev, inst, now).0;
    if Matching(w4.db, ev.eventType, inst.id) != {} && r != w4 {
      var d := Finished(w4.db, ev.eventType, inst.id);
      assert forall e :: Joined(d, ev.eventType, inst.id, e) <==> Joined(w4.db, ev.eventType, inst.id, e);
      assert HasFailedStep(d, ev.eventType, inst.id) == HasFailedStep(w4.db, ev.eventType, inst.id);
    }
  }

  /**
   * The fan-out wave of a whole call: the call succeeds, and every record it
   * publishes is a "redirect" command for the trigger's instance, addressed
   * to the topic of one of the steps for (event type, state), whose request
   * is the merge of that step's payload keys looked up in the instance's bag
   * as updated by this trigger's response, and which was stored as an
   * `in_progress` row before it was sent.
   */
  lemma ProcessFanOutWave(env: Env, w: World, ev: Event, now: int)
    requires WellFormed(w.db) && ev.eventType in w.db.workflows
    requires IsInitiating(ev.state) ==> ev.instanceId !in w.db.instances
    requires !IsInitiating(ev.state) ==> ev.instanceId in w.db.instances
    requires StepsFor(w.db, ev.eventType, ev.state) != []
    ensures var (r, out) := ProcessSpec(env, w, ev, now);
      var steps := StepsFor(w.db, ev.eventType, ev.state);
      var bag := BagOf(w.cache, ev.instanceId)[ev.source := ev.payload.response];
      out == (if StepsLookup(ev.eventType, ev.state) in env.down then Err(FindSteps(Unavailable)) else Ok)
      && (out.Err? ==> r.sent == w.sent && r.drawn == w.drawn)
      && (out == Ok ==> FannedOut(ev, ev.instanceId, steps, Requests(w.db, steps, bag), w.sent, r))
  {
    ProcessReachesWave(env, w, ev, now);
    var inst := Resolve(w.db, ev, w.db.workflows[ev.eventType]).value;
    assert inst.id == ev.instanceId;
    StateBeforeWave(env, w, ev, inst, now);
    var w4 := BeforeWave(env, Intake(env, w, ev), ev, inst, now);
    var steps := StepsFor(w.db, ev.eventType, ev.state);
    var bag := BagOf(w.cache, ev.instanceId)[ev.source := ev.payload.response];
    assert StepsFor(w4.db, ev.eventType, ev.state) == steps;
    assert BagOf(w4.cache, ev.instanceId) == bag;
    RequestsDependOnKeys(w4.db, w.db, steps, bag);
    FanOutWave(env, w4, ev, inst, now);
  }

  /** A whole call keeps a fresh id supply fresh. */
  lemma ProcessKeepsFresh(env: Env, w: World, ev: Event, now: int)
    requires Injective(env.gen) && FreshIds(env, w)
    ensures FreshIds(env, ProcessSpec(env, w, ev, now).0)
  {
    if ev.eventType !in w.db.workflows {
      FreshIdsKept(env, w, Intake(env, w, ev));
    } else {
      ProcessReachesWave(env, w, ev, now);
      match Resolve(w.db, ev, w.db.workflows[ev.eventType]) {
        case Failure(_) =>
          AfterCloseFrame(env, w, ev, now);
          FreshIdsKept(env, w, AfterClose(env, w, ev, now));
        case Success(inst) =>
          StateBeforeWave(env, w, ev, inst, now);
          var w4 := BeforeWave(env, Intake(env, w, ev), ev, inst, now);
          FreshIdsKept(env, w, w4);
          WaveKeepsFresh(env, w4, ev, inst, now);
      }
    }
  }

  /** Either wave keeps a fresh id supply fresh. */
  lemma WaveKeepsFresh(env: Env, w: World, ev: Event, inst: WorkflowInstance, now: int)
    requires Injective(env.gen) && FreshIds(env, w)
    ensures FreshIds(env, Wave(env, w, ev, inst, now).0)
  {
    var steps := StepsFor(w.db, ev.eventType, ev.state);
    if StepsLookup(ev.eventType, ev.state) !in env.down && steps != [] {
      FanOutKeepsFresh(env, w, ev, inst, steps, Requests(w.db, steps, BagOf(w.cache, ev.instanceId)), now);
    } else {
      WaveFrame(env, w, ev, inst, now);
      FreshIdsKept(env, w, Wave(env, w, ev, inst, now).0);
    }
  }

  /** Closing the originating row stores the trigger's own snapshot under the trigger's event id. */
  lemma CloseKeepsSnapshotsKeyed(down: set<Query>, db: Db, ev: Event, now: int)
    requires SnapshotsKeyed(db)
    ensures SnapshotsKeyed(db.(rows := ClosedRows(down, db.rows, ev, now)))
  {
    var rows' := ClosedRows(down, db.rows, ev, now);
    forall e | e in rows' && rows'[e].eventMessage.Some? && rows'[e].eventMessage.value.Encoded?
      ensures rows'[e].eventMessage.value.event.eventId == e
    {
      if e != ev.eventId {
        assert rows'[e] == db.rows[e];
      }
    }
  }

  /** A dispatched command's row stores the command's own snapshot under the command's event id. */
  lemma DispatchKeepsSnapshotsKeyed(env: Env, w: World, ev: Event, inst: WorkflowInstance, step: Step,
                                    req: Result<Json, MergeError>, now: int)
    requires SnapshotsKeyed(w.db)
    ensures SnapshotsKeyed(DispatchStep(env, w, ev, inst, step, req, now).db)
  {
    if Builds(env, step, req) {
      var cmd := Command(ev, req.value, inst.id, env.gen(w.drawn), now);
      if cmd.eventId !in w.db.rows {
        var rows' := w.db.rows[cmd.eventId := PendingRow(cmd, step.id, now)];
        assert DispatchStep(env, w, ev, inst, step, req, now).db == w.db.(rows := rows');
        forall e | e in rows' && rows'[e].eventMessage.Some? && rows'[e].eventMessage.value.Encoded?
          ensures rows'[e].eventMessage.value.event.eventId == e
        {
          if e != cmd.eventId {
            assert rows'[e] == w.db.rows[e];
          }
        }
      }
    }
  }

  lemma {:induction false} FanOutKeepsSnapshotsKeyed(env: Env, w: World, ev: Event, inst: WorkflowInstance,
                                                     steps: seq<Step>, reqs: seq<Result<Json, MergeError>>, now: int)
    requires |reqs| == |steps| && SnapshotsKeyed(w.db)
    ensures SnapshotsKeyed(FanOut(env, w, ev, inst, steps, reqs, now).db)
    decreases |steps|
  {
    if steps != [] {
      var n := |steps| - 1;
      FanOutKeepsSnapshotsKeyed(env, w, ev, inst, steps[..n], reqs[..n], now);
      DispatchKeepsSnapshotsKeyed(env, FanOut(env, w, ev, inst, steps[..n], reqs[..n], now), ev, inst, steps[n],
                                  reqs[n], now);
    }
  }

  /**
   * `ProcessWorkflow` keeps every stored snapshot keyed by its row, which is
   * what lets a retry find the row it was asked about through the snapshot.
   */
  lemma ProcessKeepsSnapshotsKeyed(env: Env, w: World, ev: Event, now: int)
    requires SnapshotsKeyed(w.db)
    ensures SnapshotsKeyed(ProcessSpec(env, w, ev, now).0.db)
  {
    var closed := w.db.(rows := ClosedRows(env.down, w.db.rows, ev, now));
    if ev.eventType !in w.db.workflows {
      KeyedOnRows(w.db, Intake(env, w, ev).db);
    } else {
      CloseKeepsSnapshotsKeyed(env.down, w.db, ev, now);
      ProcessReachesWave(env, w, ev, now);
      match Resolve(w.db, ev, w.db.workflows[ev.eventType]) {
        case Failure(_) =>
          AfterCloseFrame(env, w, ev, now);
          KeyedOnRows(closed, AfterClose(env, w, ev, now).db);
        case Success(inst) =>
          StateBeforeWave(env, w, ev, inst, now);
          var w4 := BeforeWave(env, Intake(env, w, ev), ev, inst, now);
          KeyedOnRows(closed, w4.db);
          var steps := StepsFor(w4.db, ev.eventType, ev.state);
          if steps != [] {
            FanOutKeepsSnapshotsKeyed(env, w4, ev, inst, steps, Requests(w4.db, steps, BagOf(w4.cache, ev.instanceId)), now);
          } else {
            WaveFrame(env, w4, ev, inst, now);
            KeyedOnRows(w4.db, Wave(env, w4, ev, inst, now).0.db);
          }
      }
    }
  }

  /** `SnapshotsKeyed` depends on the step rows alone. */
  lemma KeyedOnRows(d: Db, d': Db)
    requires SnapshotsKeyed(d) && d'.rows == d.rows
    ensures SnapshotsKeyed(d')
  {
  }
}
