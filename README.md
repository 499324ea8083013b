# A verified model of the go-microservices-kafka saga core

This project is a Dafny model of the saga machinery of go-microservices-kafka. In that system an order service and a bank-registration flow start sagas, each by publishing an initiating event. The orchestrator (orchestra-svc) then drives every saga through its workflow catalog:

- it logs every event it receives and caches every response, keyed by saga instance;
- it closes the step row that the event answers;
- it creates or fetches the workflow instance;
- it then either fans out one "redirect" command per catalog step, each merged from cached responses and stored before it is published, or, when no step is left, marks the instance "completed" or "failed".

The step services (payment-svc, product-svc, and the order service's update handlers) answer each command with a reply event. The mock backend (mock-svc) keeps the product stock and the payment ledger that those services call. The retry usecase re-drives a failed step from its stored snapshot.

Each Go file of the core has its own module:

- Go objects whose fields change become classes. These are the workflow store, the payload cache, the producers, the uuid supply and the two mock ledgers. Their methods carry `modifies` clauses and are proved against specification functions.
- Pure computations become functions with lemmas. These are the JSON merge, the envelope constructors and the reply rules.
- The orchestrator's store is a class over its tables. The environment's `down` set names the queries that fail. These are the step, payload-key and instance-row lookups and the two updates that `ProcessWorkflow` and the retries report or skip on. The order and bank stores and the providers are inputs of the model, and their answers are function-valued fields. Broker failures are a set of unavailable topics. Fresh uuids and random suffixes come from a `Supply` whose `n`-th value is `gen(n)`. Time is a `now` parameter.

Layout:

- `wrappers.dfy`, `json.dfy`, `events.dfy`: shared types. These are Result/Option, JSON values, the `GlobalEvent` envelope, `Supply`, and the `Producer` log. The envelope is the same in every service. `Producer` stands for the Kafka producer.
- `helper.dfy`: `MergeJSON`.
- `payload_cache.dfy`: the payload cache.
- `store.dfy`: the orchestrator's tables and queries.
- `orchestra_event.dfy`, `orchestra_spec.dfy`, `orchestra_lemmas.dfy`, `orchestra_usecase.dfy`: `ProcessWorkflow`.
- `retry_model.dfy`, `retry_lemmas.dfy`, `retry_usecase.dfy`: the two retries.
- `order_svc.dfy`, `order_model.dfy`, `order_lemmas.dfy`, `order_usecase.dfy`, `bank_model.dfy`, `bank_usecase.dfy`: order-svc.
- `step_reply.dfy`: the reply rule that payment-svc and product-svc share.
- `payment_provider.dfy`, `payment_model.dfy`, `payment_usecase.dfy`: payment-svc.
- `product_model.dfy`, `product_usecase.dfy`: product-svc.
- `mock_reply.dfy`, `mock_product.dfy`, `mock_payment.dfy`: the mock backend's handlers.

Where the written code and the design description disagree, the model follows the code:

- The orchestrator's usecase passes a `StartedAt` to `UpdateWorkflowInstanceStep`, but the generated parameter struct in workflow_instance.sql.go has no such column. The model follows the usecase: the row's start time is set from the parameter.
- Consequences of that update:
  - Closing a step keeps the row's own start time.
  - A retry restarts the row at `now`.
  - A retry clears the code, the response and the completion time, because the UPDATE sets those columns from parameters the retry leaves empty.
- `event.BANK_ACCOUNT_REGISTRATION` is used by the bank usecase but is not declared in the order service's event file that is shown. It is modelled as the type "bank_account_registration".
- payment-svc's `NewGlobalEvent` is declared with a single type parameter and no state argument, but it is called as `NewGlobalEvent[R, S](action, status, state, payload)`. The model follows the calls: one uuid is drawn, with source "payment-svc" and the given state.
- `getOrCreateWorkflowInstance` (orchestra-svc/internal/usecase/orchestra_usecase.go:118) compares against `event.BANK_REGIS_CREATED`, but orchestra-svc/internal/dto/event/global_event.go:12-16 declares only `PENDING`, `ORDER_CREATED` and `ORDER_CANCEL`. The model takes the constant to be "bank_regis_created", the state the bank usecase publishes.
- A handler that dereferences a nil response panics. The model makes this an explicit `Panicked` outcome, and it counts the uuid that a failure branch drew before the dereference. `processDone` over an instance with no step row panics in the same way, on `wfiSteps[0]`.

## Model

| member | source | states |
|---|---|---|
| Helper.MergeJson | orchestra-svc/pkg/helper.go:5-30 | The nested loops compute exactly the left fold `Merged`: one result object, or the error of the first source that is not an object or null. |
| Helper.CopyMembers | orchestra-svc/pkg/helper.go:19-21 | Copying a decoded map into the merge gives the union, in which the copied map's values win. |
| Helper.MergeSucceedsIff | orchestra-svc/pkg/helper.go:8-17 | The merge succeeds if and only if every source is an object or null. |
| Helper.MergeFailsOnFirstNonObject | orchestra-svc/pkg/helper.go:8-17 | A failing merge reports the first source that is neither an object nor null. |
| Helper.MergeMembers | orchestra-svc/pkg/helper.go:19-22 | A member is in the result if and only if some object source has it, and its value comes from the last such source. |
| Helper.MergeCongruence | orchestra-svc/pkg/helper.go:8-22 | Two prefixes with the same merge give the same merge after any common suffix. |
| Helper.NullContributesNothing | orchestra-svc/pkg/helper.go:14-17 | A null source, such as an absent cache key, leaves the merge unchanged. |
| Helper.RepeatedSourceIsIdempotent | orchestra-svc/pkg/helper.go:19-21 | Naming the same source twice in a row merges like naming it once. |
| Helper.MergeBaseCases | orchestra-svc/pkg/helper.go:6-29 | No sources merge to `{}`, and a single object merges to itself. |
| PayloadCache.PayloadCache.constructor | orchestra-svc/internal/repository/cache/payload.go:13-18 | A new cache is empty. |
| PayloadCache.PayloadCache.Set | orchestra-svc/internal/repository/cache/payload.go:20-25 | Stores the bag under the key; every other key keeps its bag. |
| PayloadCache.PayloadCache.Get | orchestra-svc/internal/repository/cache/payload.go:27-34 | Returns the stored bag and `ok` if and only if the key is present. A miss reads as the empty bag, and nothing changes. |
| PayloadCache.PayloadCache.Delete | orchestra-svc/internal/repository/cache/payload.go:36-41 | Removes exactly that key; removing an absent key is a no-op. |
| PayloadCache.PayloadCache.GetAll | orchestra-svc/internal/repository/cache/payload.go:43-48 | Returns the whole mapping. |
| PayloadCache.PayloadCache.Clear | orchestra-svc/internal/repository/cache/payload.go:50-55 | Afterwards the cache is empty. |
| Store.UpdateRows | orchestra-svc/internal/repository/sqlc/workflow_instance.sql.go:248-258 | The UPDATE sets exactly the listed columns of the row with that event id and keeps its ids. Every other row is kept, and an unknown id changes nothing. |
| Store.Store.CreateProcessLog | orchestra-svc/internal/repository/sqlc/querier.go:13 | Appends the entry unless the log is down. |
| Store.Store.FindWorkflowByType | orchestra-svc/internal/repository/sqlc/workflow.sql.go:101-117 | Returns the workflow of that type, or "no rows" exactly when there is none. |
| Store.Store.FindStepsByTypeAndState | orchestra-svc/internal/repository/sqlc/workflow.sql.go:39-99 | Fails exactly when the query is listed as failing. Otherwise it returns every catalog step for (type, state) exactly once and no other step, ordered by first mention; the query's ORDER BY is constant under its WHERE clause. |
| Store.JoinFromFacts | orchestra-svc/internal/repository/sqlc/workflow.sql.go:39-55 | The DISTINCT join lists each step id at most once and never one already seen. A step is in it exactly when its id is mentioned, the step exists and its id was not already seen. |
| Store.StepsForFacts | orchestra-svc/internal/repository/sqlc/workflow.sql.go:39-55 | The steps of (type, state) have no duplicates, and a step is among them exactly when some state action of that type and state names it. |
| Store.Store.FindPayloadKeysByStepID | orchestra-svc/internal/repository/sqlc/workflow.sql.go:12-37 | Fails exactly when the query is listed as failing; otherwise returns the payload keys of the step, or none. |
| Store.Store.FindInstanceStepByEventID | orchestra-svc/internal/repository/sqlc/workflow_instance.sql.go:91-112 | Returns the step row with that event id, or "no rows" exactly when there is none. |
| Store.Store.UpdateWorkflowInstanceStep | orchestra-svc/internal/repository/sqlc/workflow_instance.sql.go:248-279 | Fails, changing nothing, exactly when the update is listed as failing; otherwise the step rows become `UpdateRows` of the old rows. |
| Store.Store.CreateWorkflowInstance | orchestra-svc/internal/repository/sqlc/workflow_instance.sql.go:24-47 | Inserts the instance, or fails as a duplicate exactly when its id is taken, changing nothing. |
| Store.Store.FindWorkflowInstanceByID | orchestra-svc/internal/repository/sqlc/workflow_instance.sql.go:153-169 | Returns the instance with that id, or "no rows" exactly when there is none. |
| Store.Store.FindWorkflowInstanceByTypeAndID | orchestra-svc/internal/repository/sqlc/workflow_instance.sql.go:171-227 | Fails exactly when the query is listed as failing; otherwise returns one joined result row for every step row of the instance, and no other row. |
| Store.Store.MatchingViews | orchestra-svc/internal/repository/sqlc/workflow_instance.sql.go:171-227 | The scan builds one joined row per matching step row, and every joined row comes from one of them. |
| Store.Store.UpdateWorkflowInstance | orchestra-svc/internal/repository/sqlc/workflow_instance.sql.go:229-246 | Fails, changing nothing, exactly when the update is listed as failing; otherwise sets the status of that instance only, and an unknown id changes nothing. |
| Store.Store.CreateWorkflowInstanceStep | orchestra-svc/internal/repository/sqlc/workflow_instance.sql.go:49-89 | Inserts the step row, or fails exactly when its event id is taken, changing nothing. |
| Store.Store.FindWorkflowInstanceStepsByEventIDAndInsID | orchestra-svc/internal/repository/sqlc/querier.go:23 | Returns the row with that event id and instance id, together with its step's topic, or "no rows". |
| Events.Int32 | orchestra-svc/internal/usecase/orchestra_usecase.go:108 | `int32(x)` is the two's-complement value in range that agrees with x modulo 2^32. |
| OrchestraEvent.NewGlobalEvent | orchestra-svc/internal/dto/event/global_event.go:40-52 | Draws one fresh uuid as event id, with source "orchestra-svc", the given action, status and payload, and zero values elsewhere. |
| Orchestra.OrchestraUsecase.ProcessWorkflow | orchestra-svc/internal/usecase/orchestra_usecase.go:33-66 | One call ends in exactly the state and outcome that `ProcessSpec` gives, including the "find workflow", instance, "find steps" and "process done" errors; the lemmas below state what that means. |
| Orchestra.OrchestraUsecase.LogDb | orchestra-svc/internal/usecase/orchestra_usecase.go:268-286 | Appends the trigger's log entry, with its code truncated to 32 bits, unless the log is down. |
| Orchestra.OrchestraUsecase.CachePayload | orchestra-svc/internal/usecase/orchestra_usecase.go:68-78 | Records the response under its source in the instance's bag, which starts empty when missing. |
| Orchestra.OrchestraUsecase.HandleInstanceStep | orchestra-svc/internal/usecase/orchestra_usecase.go:80-115 | Closes the row the trigger answers with the trigger's status, code, response, snapshot and `now`, keeping its start time. It fails and changes nothing exactly when there is no such row or the update fails. |
| Orchestra.OrchestraUsecase.GetOrCreateWorkflowInstance | orchestra-svc/internal/usecase/orchestra_usecase.go:117-127 | For "order_created", "order_cancel" and "bank_regis_created" it creates an "in_progress" instance; otherwise it fetches the instance. |
| Orchestra.OrchestraUsecase.ProcessSteps | orchestra-svc/internal/usecase/orchestra_usecase.go:129-161 | A failed step lookup is the "find steps" error and changes nothing; otherwise it runs the fan-out when steps exist and `processDone` otherwise, as `Wave` says. |
| Orchestra.OrchestraUsecase.DispatchSteps | orchestra-svc/internal/usecase/orchestra_usecase.go:152-158 | The loop runs `processStep` for every step in order, ignoring failures. Its result is `FanOut`. |
| Orchestra.OrchestraUsecase.DispatchNext | orchestra-svc/internal/usecase/orchestra_usecase.go:153-157 | One turn of the loop extends the fan-out by the next step. |
| Orchestra.OrchestraUsecase.ProcessDone | orchestra-svc/internal/usecase/orchestra_usecase.go:163-199 | Ends as `Done` says: a failed row lookup or status update is the "process done" error and changes nothing; no step row panics; otherwise the instance becomes "failed" if some step row is not "success" and "completed" otherwise. |
| Orchestra.OrchestraUsecase.ProcessStep | orchestra-svc/internal/usecase/orchestra_usecase.go:201-226 | Skips the step when its keys lookup fails, on a merge failure, or on a reused id. Otherwise it stores the "in_progress" row before publishing the command to the step's topic under a fresh key. |
| Orchestra.OrchestraUsecase.MergePayloads | orchestra-svc/internal/usecase/orchestra_usecase.go:228-237 | Merges the cached response of each key, in key order, with null for an absent key. |
| Orchestra.OrchestraUsecase.CreateGlobalEvent | orchestra-svc/internal/usecase/orchestra_usecase.go:239-254 | Builds a "redirect" command with the trigger's status, state, type and code, for the given instance, under a fresh id. |
| Orchestra.OrchestraUsecase.CreateWorkflowInstanceStep | orchestra-svc/internal/usecase/orchestra_usecase.go:256-266 | Inserts the command's "in_progress" row with its snapshot and `now`, and fails exactly when the id is taken. |
| OrchestraLemmas.DispatchFrame | orchestra-svc/internal/usecase/orchestra_usecase.go:201-226 | One step touches only the step rows, the publish log and the id supply, and keeps every existing row. |
| OrchestraLemmas.DispatchCases | orchestra-svc/internal/usecase/orchestra_usecase.go:201-226 | The three ways one step ends. A failed keys lookup or merge changes nothing. A reused id uses up that one id and changes nothing else. Otherwise the row is inserted, two ids are drawn and the command is published exactly when the topic is up. |
| OrchestraLemmas.DispatchPublishes | orchestra-svc/internal/usecase/orchestra_usecase.go:201-225 | One step publishes exactly its own command, whose row was stored first, and it publishes if and only if the keys lookup and the merge succeed, the drawn id is fresh and the topic is up. |
| OrchestraLemmas.FanOutFrame | orchestra-svc/internal/usecase/orchestra_usecase.go:152-158 | The fan-out touches only step rows, the publish log and the id supply, and keeps every existing row. |
| OrchestraLemmas.FanOutMessages | orchestra-svc/internal/usecase/orchestra_usecase.go:152-158 | Each published record is a "redirect" command for one of the steps, carrying that step's request, and its row was stored before the publish. At most one record is added per step. |
| OrchestraLemmas.DispatchKeepsFresh | orchestra-svc/internal/usecase/orchestra_usecase.go:213-225 | With a non-repeating id supply, no undrawn id is ever a stored row's id, across one step. |
| OrchestraLemmas.FanOutKeepsFresh | orchestra-svc/internal/usecase/orchestra_usecase.go:152-158 | The same freshness holds across the whole fan-out. |
| OrchestraLemmas.FanOutDraws | orchestra-svc/internal/usecase/orchestra_usecase.go:152-158 | With a non-repeating id supply that is fresh for the rows, the fan-out draws exactly two ids for each step whose command can be built and none for any other step. |
| OrchestraLemmas.FanOutStoresEveryStep | orchestra-svc/internal/usecase/orchestra_usecase.go:152-158 | Every step whose command can be built is stored as an "in_progress" row under the id drawn for it, whether or not its own send or another step fails. |
| OrchestraLemmas.FanOutAddsOnlyBuiltSteps | orchestra-svc/internal/usecase/orchestra_usecase.go:220-223 | The rows the fan-out adds are exactly those of the steps whose commands can be built. |
| OrchestraLemmas.FanOutDispatchesEveryStep | orchestra-svc/internal/usecase/orchestra_usecase.go:152-158 | The fan-out publishes exactly `Published`: in step order, the command of every step whose command can be built and whose topic is up, each under its own key. A failing step costs the other steps nothing. |
| OrchestraLemmas.PublishedHasDelivered | orchestra-svc/internal/usecase/orchestra_usecase.go:152-158 | The command of every step that builds and whose topic is up is among those published. |
| OrchestraLemmas.PublishedOnlyDelivered | orchestra-svc/internal/usecase/orchestra_usecase.go:152-158 | Every published command is that of a step that builds and whose topic is up. |
| OrchestraLemmas.FanOutSkipsDownTopic | orchestra-svc/internal/usecase/orchestra_usecase.go:152-158 | Of three steps whose middle topic is down, all three rows are stored and the first and last commands are published, under keys two ids apart per step. |
| OrchestraLemmas.RequestsDependOnKeys | orchestra-svc/internal/usecase/orchestra_usecase.go:202-211 | The merged requests depend on the tables only through the payload keys. |
| OrchestraLemmas.WaveFrame | orchestra-svc/internal/usecase/orchestra_usecase.go:129-160 | Either wave touches only step rows and the driven instance, the terminal wave publishes nothing, and a failed step lookup changes nothing. |
| OrchestraLemmas.TerminalWave | orchestra-svc/internal/usecase/orchestra_usecase.go:129-199 | With no steps nothing is published and no id is drawn. A failed step lookup, row lookup or status update is an error that changes nothing; without step rows the wave panics; otherwise the instance becomes "failed" or "completed" by the rows' statuses. |
| OrchestraLemmas.FanOutWave | orchestra-svc/internal/usecase/orchestra_usecase.go:129-160 | A failed step lookup is the "find steps" error and changes nothing. Otherwise the fan-out wave succeeds and publishes only commands for the steps. |
| OrchestraLemmas.UpsertedFacts | orchestra-svc/internal/usecase/orchestra_usecase.go:68-78 | The trigger's response is recorded under its source, and every other source and every other instance's bag are kept. |
| OrchestraLemmas.ProcessAlwaysLogsAndCaches | orchestra-svc/internal/usecase/orchestra_usecase.go:38-47 | Every call makes one log attempt and the cache upsert, and leaves the catalog tables unchanged. |
| OrchestraLemmas.ProcessUnknownWorkflow | orchestra-svc/internal/usecase/orchestra_usecase.go:49-52 | An unknown workflow type fails with "find workflow", before any row, instance or publish. |
| OrchestraLemmas.ProcessKeepsOtherRows | orchestra-svc/internal/usecase/orchestra_usecase.go:54-57 | No existing row other than the trigger's changes. |
| OrchestraLemmas.ProcessClosesOriginatingStep | orchestra-svc/internal/usecase/orchestra_usecase.go:80-115 | The trigger's row ends closed with the trigger's status, code, response and snapshot, whatever the rest of the call does. When the update fails the row keeps its old contents and the call goes on. |
| OrchestraLemmas.ProcessCreatesInstance | orchestra-svc/internal/usecase/orchestra_usecase.go:117-124 | An initiating state with a free instance id creates the instance with the workflow's id. |
| OrchestraLemmas.ProcessCreatesOnlyWhenInitiating | orchestra-svc/internal/usecase/orchestra_usecase.go:117-127 | No other call creates an instance. |
| OrchestraLemmas.ProcessKeepsOtherInstances | orchestra-svc/internal/usecase/orchestra_usecase.go:59-65 | A call touches at most the trigger's own instance. |
| OrchestraLemmas.ProcessInstanceErrors | orchestra-svc/internal/usecase/orchestra_usecase.go:59-63 | A taken id in an initiating state fails as a duplicate, and a missing instance otherwise fails as not found. Either way nothing is published. |
| OrchestraLemmas.ProcessTerminalWave | orchestra-svc/internal/usecase/orchestra_usecase.go:129-199 | At the end of a saga nothing is published. A failed lookup or update is an error that changes no step row or instance; otherwise the instance becomes "failed" or "completed" by its step rows, or the call panics without any. |
| OrchestraLemmas.ProcessFanOutWave | orchestra-svc/internal/usecase/orchestra_usecase.go:129-160 | A failed step lookup is the "find steps" error and publishes nothing. Otherwise every published record is a command for the trigger's instance and one of its steps. Its request merges those keys from the bag that includes this trigger's response, and its row was stored first. |
| OrchestraLemmas.ProcessKeepsFresh | orchestra-svc/internal/usecase/orchestra_usecase.go:33-66 | A whole call keeps a fresh id supply fresh. |
| OrchestraLemmas.WaveKeepsFresh | orchestra-svc/internal/usecase/orchestra_usecase.go:129-161 | Either wave keeps a fresh id supply fresh. |
| OrchestraLemmas.CloseKeepsSnapshotsKeyed | orchestra-svc/internal/usecase/orchestra_usecase.go:106-114 | Closing stores the trigger's snapshot under the trigger's own event id. |
| OrchestraLemmas.DispatchKeepsSnapshotsKeyed | orchestra-svc/internal/usecase/orchestra_usecase.go:256-266 | A dispatched row stores the command's snapshot under the command's id. |
| OrchestraLemmas.FanOutKeepsSnapshotsKeyed | orchestra-svc/internal/usecase/orchestra_usecase.go:152-158 | The fan-out keeps every snapshot keyed by its row. |
| OrchestraLemmas.ProcessKeepsSnapshotsKeyed | orchestra-svc/internal/usecase/orchestra_usecase.go:33-66 | A whole call keeps every stored snapshot keyed by its row. |
| RetryModel.IntMember | orchestra-svc/internal/usecase/retry_usecase.go:52 | Decoding into a Go `int` gives 0 for an absent or null member and the number itself when it is in 64-bit range. It fails for a number out of that range and for any other JSON value. |
| Retry.RetryUsecase.LoadSource | orchestra-svc/internal/usecase/retry_usecase.go:96-117 | Applies the lookup and the three checks in order, as `Source` says, changing nothing. |
| Retry.RetryUsecase.Redispatch | orchestra-svc/internal/usecase/retry_usecase.go:134-149 | A failed row update returns its error before any record is published. Otherwise it updates the row and then publishes to the step's topic, as `Redrive` says. |
| Retry.RetryUsecase.RetryFailedInstanceStep | orchestra-svc/internal/usecase/retry_usecase.go:94-152 | Ends as `RetrySpec` says, returning the update error, with nothing published, when the row update fails. |
| Retry.RetryUsecase.ProductQuantityRetry | orchestra-svc/internal/usecase/retry_usecase.go:33-92 | Ends as `ProductRetrySpec` says, returning the update error, with nothing published, when the row update fails. |
| RetryLemmas.SourceRejections | orchestra-svc/internal/usecase/retry_usecase.go:96-117 | Each check rejects exactly when the earlier checks pass and it fails: missing row, status not "error", no snapshot, undecodable. |
| RetryLemmas.RetryRejectionHasNoEffect | orchestra-svc/internal/usecase/retry_usecase.go:101-117 | A rejected retry updates no row, publishes nothing and draws no id. |
| RetryLemmas.ProductRetryRejectionHasNoEffect | orchestra-svc/internal/usecase/retry_usecase.go:40-83 | A rejected product retry, including one with a request that does not decode, updates no row, publishes nothing and draws no id. A failed row update changes no row and publishes nothing. |
| RetryLemmas.RetriedEventShape | orchestra-svc/internal/usecase/retry_usecase.go:119-127 | The retried envelope keeps the snapshot's ids and type, with "retry", "success" and code 200. |
| RetryLemmas.RedriveEffect | orchestra-svc/internal/usecase/retry_usecase.go:134-149 | A failed update returns the update error, changes no row and publishes nothing. Otherwise exactly the envelope's row goes back to "in_progress" at `now`, with code, response and completion cleared, and the envelope is published if and only if the topic takes it. |
| RetryLemmas.SourceIsKeyed | orchestra-svc/internal/usecase/retry_usecase.go:96-126 | When snapshots are keyed, the retry re-drives the very row it was asked about. |
| RetryLemmas.RetryRedrivesFailedStep | orchestra-svc/internal/usecase/retry_usecase.go:119-151 | A failed row with a snapshot is re-driven to its topic. The call fails with the update error when the row update fails, and otherwise succeeds exactly when the send does, returning what was published. |
| RetryLemmas.ReserveRoundTrip | orchestra-svc/internal/usecase/retry_usecase.go:52-69 | Decoding the encoding of a product request gives it back. |
| RetryLemmas.DecodeReserveSucceedsIff | orchestra-svc/internal/usecase/retry_usecase.go:52-56 | The request decodes if and only if it is null or an object with well-typed "product_id" and "quantity"; other members are dropped. |
| RetryLemmas.ProductRetryRedrivesFailedStep | orchestra-svc/internal/usecase/retry_usecase.go:58-91 | The product retry re-drives with state "product_retry", keeping the product id and taking the caller's quantity. A failed row update is its error and publishes nothing. |
| RetryLemmas.ProductRetryPublishesWhatItReturns | orchestra-svc/internal/usecase/retry_usecase.go:69-91 | What is published decodes to the typed envelope that is returned. |
| RetryLemmas.RedriveKeepsSnapshotsKeyed | orchestra-svc/internal/usecase/retry_usecase.go:134-139 | The row update stores a snapshot only under its own event id. |
| RetryLemmas.RetryKeepsSnapshotsKeyed | orchestra-svc/internal/usecase/retry_usecase.go:94-152 | `RetryFailedInstanceStep` keeps snapshots keyed. |
| RetryLemmas.ProductRetryKeepsSnapshotsKeyed | orchestra-svc/internal/usecase/retry_usecase.go:33-92 | `ProductQuantityRetry` keeps snapshots keyed. |
| OrderSvc.NewGlobalEvent | order-svc/internal/dto/event/global_event.go:53-68 | Draws one uuid as event id and one random suffix for the instance id "I-…", with source "order-svc" and the given fields. |
| Orders.OrderQueries.CreateOrder | order-svc/internal/usecase/order_usecase.go:34-41 | Logs the insert and returns the store's answer. |
| Orders.OrderQueries.FindOrderByID | order-svc/internal/usecase/order_usecase.go:76 | Returns the store's answer and writes nothing. |
| Orders.OrderQueries.FindOrderByRefID | order-svc/internal/usecase/order_usecase.go:132 | Returns the store's answer and writes nothing. |
| Orders.OrderQueries.UpdateOrder | order-svc/internal/usecase/order_usecase.go:199-207 | Logs the update and returns the store's answer. |
| Orders.OrderUsecase.Send | order-svc/internal/usecase/order_usecase.go:66 | Draws a key and publishes unless the topic rejects the record. |
| Orders.OrderUsecase.CreateOrder | order-svc/internal/usecase/order_usecase.go:32-73 | Ends as `CreateOrderSpec` says. |
| Orders.OrderUsecase.UpdateOrder | order-svc/internal/usecase/order_usecase.go:195-214 | Issues the update with the amount always non-null, as `UpdateOrderSpec` says. |
| Orders.OrderUsecase.CancelOrder | order-svc/internal/usecase/order_usecase.go:75-128 | Ends as `CancelOrderSpec` says. |
| Orders.OrderUsecase.UpdateOrderMessaging | order-svc/internal/usecase/order_usecase.go:130-193 | Ends as `UpdateOrderMessagingSpec` says. |
| OrderLemmas.CreateOrderInsertsProcessing | order-svc/internal/usecase/order_usecase.go:34-41 | Inserts one "PROCESSING" row whose reference is "TOKPED-" plus the first uuid drawn, with the request's fields. |
| OrderLemmas.CreateOrderStoreFailureSendsNothing | order-svc/internal/usecase/order_usecase.go:43-45 | A failed insert returns the store's error and publishes nothing. |
| OrderLemmas.CreateOrderPublishesInitiatingEvent | order-svc/internal/usecase/order_usecase.go:47-72 | Publishes "order_created"/"order_process" with code 201 under fresh ids, and returns the row exactly when the record goes out. |
| OrderLemmas.CancelOrderGuards | order-svc/internal/usecase/order_usecase.go:76-87 | "cannot cancel" exactly when the order is not "COMPLETE", and "unauthorized" exactly when it is complete but owned by someone else. Nothing is written or sent in either case. |
| OrderLemmas.CancelOrderUpdatesToCancelProcessing | order-svc/internal/usecase/order_usecase.go:89-100 | The cancel issues one update to "CANCEL_PROCESSING" with the stored quantity and amount (0 when null). |
| OrderLemmas.CancelOrderPublishes | order-svc/internal/usecase/order_usecase.go:102-127 | Publishes "order_cancel"/"order_cancel_process" with code 200 after a successful update, and nothing after a failed one. |
| OrderLemmas.UpdateMessagingSelectsFields | order-svc/internal/usecase/order_usecase.go:139-159 | An "order_process" event takes the event's amount and quantity; any other event keeps the stored ones. |
| OrderLemmas.UpdateMessagingReplies | order-svc/internal/usecase/order_usecase.go:132-192 | The reply keeps the event's ids and type, with "order_updated", code 200 and the updated row. A failed lookup or update publishes nothing. |
| OrderLemmas.CreateOrderPublishesOnSuccess | order-svc/internal/usecase/order_usecase.go:32-73 | Only extends the state, and publishes one record exactly when it succeeds. |
| OrderLemmas.CancelOrderPublishesOnSuccess | order-svc/internal/usecase/order_usecase.go:75-128 | Only extends the state, and publishes one record exactly when it succeeds. |
| OrderLemmas.UpdateMessagingPublishesOnSuccess | order-svc/internal/usecase/order_usecase.go:130-193 | Only extends the state, and publishes one record exactly when it succeeds. |
| BankRegistration.BankQueries.CreateBankAccountRegistration | order-svc/internal/usecase/bank_registration_usecase.go:26-32 | Logs the insert and returns the store's answer. |
| BankRegistration.BankQueries.UpdateBankAccountRegistration | order-svc/internal/usecase/bank_registration_usecase.go:68-73 | Logs the update and returns the store's answer. |
| BankRegistration.BankRegistrationUsecase.Send | order-svc/internal/usecase/bank_registration_usecase.go:57 | Draws a key and publishes unless the topic rejects the record. |
| BankRegistration.BankRegistrationUsecase.RegisterBankAccount | order-svc/internal/usecase/bank_registration_usecase.go:24-64 | Ends as `RegisterSpec` says. |
| BankRegistration.BankRegistrationUsecase.UpdateBankRegistrationMessaging | order-svc/internal/usecase/bank_registration_usecase.go:66-110 | Ends as `UpdateRegistrationSpec` says. |
| BankModel.RegisterInsertsProcessing | order-svc/internal/usecase/bank_registration_usecase.go:26-36 | One "PROCESSING" registration under the first uuid as customer id. A failed insert publishes nothing. |
| BankModel.RegisterPublishesInitiatingEvent | order-svc/internal/usecase/bank_registration_usecase.go:38-63 | Publishes "bank_regis_created" with code 201, and returns the row exactly when it goes out. |
| BankModel.UpdateRegistrationReplies | order-svc/internal/usecase/bank_registration_usecase.go:66-109 | The update takes the event's fields, field for field. The reply copies the event's ids and type, with "bank_regis_updated" and code 200. A failed update sends nothing. |
| StepReply.ProviderReplyRule | payment-svc/internal/usecase/usecase.go:32-69 | A provider error gives "error", the failed state and the fallback code; otherwise "success", the data and the provider's code. The incoming ids, type and request are kept. |
| StepReply.DeliverReports | payment-svc/internal/usecase/usecase.go:71-86 | Publishes exactly when the topic takes the record, reports a send failure before the provider's error, and succeeds only when both went well. |
| PaymentProvider.Classify | payment-svc/internal/provider/payment_provider.go:33-43 | A client error becomes an error with its message; an unexpected status becomes an error with the response's text. The response is returned in every case. |
| PaymentProvider.RefundPayment | payment-svc/internal/provider/payment_provider.go:23-44 | PATCH "/refund"; errors exactly when the client fails or the status is not 200. |
| PaymentProvider.CreateAccountBalance | payment-svc/internal/provider/payment_provider.go:46-67 | POST "/balances"; errors exactly when the client fails or the status is not 201. |
| PaymentProvider.ProcessPayment | payment-svc/internal/provider/payment_provider.go:69-90 | POST to the base path; errors exactly when the client fails or the status is not 201. |
| PaymentModel.ProcessPaymentReplies | payment-svc/internal/usecase/usecase.go:89-151 | Publishes "payment_failed" or "payment_success" by the provider's error, and returns "payment processing failed" after a failed payment's reply. |
| PaymentModel.CreateAccountBalanceReplies | payment-svc/internal/usecase/usecase.go:26-87 | Publishes "bank_account_failed" or "bank_account_created" with the matching status and code. |
| PaymentModel.RefundDependsOnlyOnRef | payment-svc/internal/usecase/usecase.go:153-157 | Two refund events that differ only in amount or account get replies that differ only in the echoed request. |
| PaymentModel.ImplNeverPanics | payment-svc/internal/provider/payment_provider.go:23-90 | With `PaymentProviderImpl` behind it, no payment handler panics. |
| Payments.PaymentUsecase.Report | payment-svc/internal/usecase/usecase.go:76-86 | Ends as `Deliver` says. |
| Payments.PaymentUsecase.BuildReply | payment-svc/internal/usecase/usecase.go:32-69 | Returns `ProviderReply` and draws one uuid exactly when it builds an envelope. |
| Payments.PaymentUsecase.CreateAccountBalanceMessaging | payment-svc/internal/usecase/usecase.go:26-87 | Ends as `CreateAccountBalanceSpec` says. |
| Payments.PaymentUsecase.ProcessPaymentMessaging | payment-svc/internal/usecase/usecase.go:89-151 | Ends as `ProcessPaymentSpec` says. |
| Payments.PaymentUsecase.RefundPaymentMessaging | payment-svc/internal/usecase/usecase.go:153-210 | Ends as `RefundPaymentSpec` says; the provider sees the reference alone. |
| ProductModel.ReserveReplyRule | product-svc/internal/usecase/usecase.go:32-69 | "product_reservation_failed" exactly when the provider erred or its response has error text. The code is the response's when there is one, else 500. |
| ProductModel.ReserveErrorOrdering | product-svc/internal/usecase/usecase.go:36-87 | Error text without a provider error publishes a failure yet returns success. A send error is reported before a provider error. |
| ProductModel.ReleaseReplies | product-svc/internal/usecase/usecase.go:90-152 | "product_release_failed" exactly when the provider erred, with the fallback code, and the success reply otherwise. |
| Products.ProductUsecase.Report | product-svc/internal/usecase/usecase.go:78-85 | Ends as `Deliver` says. |
| Products.ProductUsecase.ReserveProductMessaging | product-svc/internal/usecase/usecase.go:26-88 | Ends as `ProductModel.ReserveSpec` says. |
| Products.ProductUsecase.ReleaseProductMessaging | product-svc/internal/usecase/usecase.go:90-152 | Ends as `ProductModel.ReleaseSpec` says. |
| MockProduct.ProductHandler.ReserveProduct | mock-svc/handler/product_handler.go:42-81 | The table and reply are `MockProduct.ReserveSpec` of the old table. |
| MockProduct.ProductHandler.ReleaseProduct | mock-svc/handler/product_handler.go:83-111 | The table and reply are `MockProduct.ReleaseSpec` of the old table. |
| MockProduct.ReserveRejections | mock-svc/handler/product_handler.go:59-69 | An unknown product gives 404 and too little stock gives 400, with the table unchanged. The call succeeds if and only if neither holds. |
| MockProduct.ReserveTakesStock | mock-svc/handler/product_handler.go:71-80 | The stock drops by exactly the quantity and stays non-negative. Other products are unchanged, and the amount is quantity times price. |
| MockProduct.ReleaseReturnsStock | mock-svc/handler/product_handler.go:100-108 | A known product's stock rises by the quantity, and an unknown product gives 404. |
| MockProduct.ReserveThenReleaseRestores | mock-svc/handler/product_handler.go:42-111 | Releasing what a reservation took restores the table exactly. |
| MockProduct.HandlersKeepStockNonNegative | mock-svc/handler/product_handler.go:66-108 | Neither handler leaves a negative stock. |
| MockPayment.PaymentHandler.FindRef | mock-svc/handler/payment_handler.go:85-90 | The unordered scan finds a transaction with the reference if and only if one exists, and names it. |
| MockPayment.PaymentHandler.CreateTransaction | mock-svc/handler/payment_handler.go:68-118 | The ledger and reply are `CreateSpec` of the old ledger, and a uuid is drawn only on success. |
| MockPayment.PaymentHandler.RefundTransaction | mock-svc/handler/payment_handler.go:120-163 | The ledger and reply are `RefundSpec` at the matching transaction the scan met. |
| MockPayment.PaymentHandler.SeedDefaults | mock-svc/handler/payment_handler.go:197-219 | The balances become `Seeded` of the loaded balances, and the transactions are unchanged. |
| MockPayment.CreateRejections | mock-svc/handler/payment_handler.go:85-102 | A taken reference gives 400, an unknown account 404 and too low a balance 400, in that order, with nothing changed. Success holds if and only if none of them holds. |
| MockPayment.CreateDebits | mock-svc/handler/payment_handler.go:104-117 | Debits exactly the amount from that account only, and adds one "success" transaction under the fresh id, with code 201. |
| MockPayment.RefundUnknownRef | mock-svc/handler/payment_handler.go:162 | An unknown reference gives 404 "transaction not found" and changes nothing. |
| MockPayment.RefundCredits | mock-svc/handler/payment_handler.go:137-159 | Credits the amount back, marks that transaction "refunded" with code 200, and touches nothing else. |
| MockPayment.RefundAtMostOnce | mock-svc/handler/payment_handler.go:145-148 | A second refund of the same reference is refused as "transaction already refunded". |
| MockPayment.CreateThenRefundRestores | mock-svc/handler/payment_handler.go:68-163 | A payment followed by the refund of its reference restores every balance. |
| MockPayment.OperationsKeepConsistent | mock-svc/handler/payment_handler.go:68-163 | Both handlers keep the ledger keyed, with unique references, positive amounts and non-negative balances. |
| MockPayment.SeededKeepsExisting | mock-svc/handler/payment_handler.go:213-218 | Seeding never overwrites an existing account. |
| MockPayment.SeededKeys | mock-svc/handler/payment_handler.go:213-218 | Seeding adds exactly the seeded ids. |
| MockPayment.SeededFirstWins | mock-svc/handler/payment_handler.go:213-218 | An absent account gets its first seeded entry. |
| MockPayment.SeedingDefaults | mock-svc/handler/payment_handler.go:197-219 | Afterwards AC-001, AC-002 and AC-003 exist, the absent ones with 50000, 100000 and 5000, and loaded accounts are unchanged. |
| MockPayment.SeededKeepsConsistent | mock-svc/handler/payment_handler.go:213-218 | Seeding non-negative balances into a consistent ledger keeps it consistent. |
| MockPayment.StartIsConsistent | mock-svc/handler/payment_handler.go:197-219 | The empty ledger, the seeded empty ledger, and any consistent ledger after seeding are consistent. |

## Left out

- Transport is not modelled: HTTP binding (gin), Kafka consumption and listeners, logging, and the stores' contexts. Binder and validation errors are the single `Invalid` reply, and the validation message text is not modelled.
- Clocks are a `now` parameter. `uuid.New()` and `GenerateRandom6Char` are abstract supplies. Nothing is assumed about their values, except freshness where a lemma says so.
- A status code is one integer, except where the orchestrator stores it as `int32`. Amounts, balances and prices, which are `float64` in the source, are integers.
- JSON marshalling is abstract and never fails, so the `ToJSON` error branches are not modelled.
- Mutexes and concurrency are not modelled. Each handler runs atomically.
- `FindAllOrder`, `GetProduct`, `GetBalance`, `GetTransaction`, `SaveData`, and the file reading and writing of `LoadData` are not part of this model. `MockPayment.PaymentHandler.SeedDefaults` takes the loaded maps as its pre-state.
- The retrying `product_provider.go` client is not part of this model. Neither are the user service and the HTTP clients behind the providers, beyond what `PaymentProvider` classifies.
- The order service's and bank registration's sqlc queries are not part of this model. Their answers are inputs.
- The orchestrator's other queries (`FindWorkflowByType`, `FindInstanceStepByEventID`, `CreateWorkflowInstance`, `FindWorkflowInstanceByID`, `CreateWorkflowInstanceStep`, `FindWorkflowInstanceStepsByEventIDAndInsID`, `CreateProcessLog`) fail only with their own "no rows" or duplicate-key error, or, for the log, when it is down. Any other database failure of these queries has the same effect on the call, so it is not a separate case.
- Error message texts are not modelled; an error is its kind and its cause.
- RetryModel.DecodeReserve: matches the member names "product_id" and "quantity" exactly, while Go's encoding/json also accepts them in another letter case. A request spelling them differently decodes here as if they were absent.
- MockPayment.PaymentHandler.RefundTransaction: reports which matching transaction the scan met only as a ghost value. With duplicate references, which transaction is refunded depends on Go's map order.

## Findings

None.
