# Execution coordinator of the executor, in Dafny

This project models the execution coordinator of the container executor (`executor/client.go`). The coordinator has three operations:

- **RunContainer** resolves a container guid through the registry. It then looks up the live warden container by its handle and asks the transformer for steps. Finally it sends one `DepotRunAction` work item on the dispatch channel.
- **DeleteContainer** looks up the registration. It destroys the warden container when the handle is non-empty, then removes the registry entry.
- **Ping** passes the warden's ping result through.

The shared rule `handleDeleteError` turns the registry's not-found sentinel into `ContainerNotFound`. Every other error is returned unchanged.

The collaborators are reduced to the state the coordinator can observe:

- The registry is a `map<string, Registration>`.
- The warden is the set of live container handles.
- The transformer is an oracle function.
- The dispatch channel is a `seq<DepotRunAction>` that only grows by appending.

Four calls take an injected failure (`Faults`): the registry's `FindByGuid` and `Delete`, and the warden's `Lookup` and `Destroy`. With those, each error path can be reached. The transformer needs no injected failure, because it is an oracle that may fail on its own. The send on the dispatch channel cannot fail. Calls are recorded in order as `Event`s. So are the log lines, with their gosteno severity and the message names used in executor/client.go.

Three files:

- `collaborators.dfy` (module `Collaborators`): errors, registrations, work items, and the abstract registry, warden and transformer.
- `client.dfy` (module `Executor`) holds:
  - `HandleDeleteError` and `Ping`;
  - `Run` and `Delete`, which state as functions what one call returns, the new state and the calls it made;
  - the class `Client`, whose `RunContainer` and `DeleteContainer` methods follow the early returns of the Go code in executor/client.go, one collaborator call at a time, and are proved equal to `Run` and `Delete`.
- `properties.dfy` (module `ExecutorProperties`): the properties of each path, and invariants of arbitrary sequences of calls.

Decisions about the collaborators:

- With no injected failure, the warden's `Lookup` of a handle it does not hold fails with `UnknownHandle(handle)`. The real garden client's error value is outside this model.
- A warden `Destroy` without an injected failure succeeds, even for a handle that is already gone. This idempotence is an assumption of this model, which a retry after a partial failure needs. It is not a fact about the warden. The TODO at executor/client.go:91-92 contradicts it: the warden client has no not-found error code, so a real destroy of a gone container fails. That case is an injected `UnknownHandle(handle)` failure. `DeleteRetryAfterPartialFailure` shows the retry under the assumption, and `DeleteRetryWardenRefuses` shows the retry as executor/client.go is written.
- A `registry.Delete` of an unknown guid returns the registry's not-found sentinel.
- The `result` string that the work item points to is a fresh `ResultSlot` object. `RunContainer` allocates it just before calling the transformer, as executor/client.go:66 declares `var result string`.

## Model

Some rows cover the helper members:
- the `Client.Call…` methods, one per collaborator call, each of which adds its call to the trace;
- `Client.Log`, which adds a log line;
- `DeleteFailed` and `Unregister`, the shared tails of `Delete`.

| member | source | states |
|---|---|---|
| `Collaborators.FindByGuid` | executor/client.go:50 | the registry answer the coordinator receives: the registration of a known guid, the registry's not-found sentinel for an unknown one, or the injected failure |
| `Collaborators.LookupContainer` | executor/client.go:58 | the warden lookup answer: the container of a live handle, a failure for a handle the warden does not hold, or the injected failure |
| `Collaborators.DestroyContainer` | executor/client.go:94 | the warden destroy answer: success removes the handle from the live set; an injected failure leaves it. A fault-free destroy of a gone handle succeeds, which is an assumption (see above) |
| `Collaborators.RegistryDelete` | executor/client.go:100 | the registry delete answer: success removes exactly that guid; an unknown guid gives the not-found sentinel |
| `Collaborators.FindAfterDelete` | executor/client.go:86-89 | once registry.Delete has removed a guid, a later FindByGuid without a fault gets the not-found sentinel; other guids are found as before |
| `Collaborators.LookupAfterDestroy` | executor/client.go:94 | once destroy has succeeded, a lookup of that handle fails with UnknownHandle; other handles are looked up as before |
| `Collaborators.DestroyTwice` | executor/client.go:91-94 | the assumed idempotence of destroy: a second fault-free destroy succeeds and changes nothing |
| `Collaborators.ResultSlot.constructor` | executor/client.go:66 | the result slot starts as the empty string |
| `Executor.HandleDeleteError` | executor/client.go:112-124 | the registry sentinel never escapes; it becomes ContainerNotFound at informational severity; any other error is returned unchanged at error severity |
| `Executor.Ping` | executor/client.go:108-110 | the result is exactly the warden's ping result |
| `Executor.Run` | executor/client.go:49-83 | registry and warden state are unchanged; a failed run leaves the queue unchanged; a successful one appends exactly one item carrying the registry's registration for the guid and the caller's completeURL; the registry is always asked first |
| `Executor.Delete` | executor/client.go:85-106 | the queue is unchanged; success removes exactly the guid from the registry; failure leaves the registry as it was and never returns the registry's sentinel; the live set loses at most the registration's handle |
| `Executor.DeleteFailed` | executor/client.go:86-103 | each `return handleDeleteError(err, c.logger)` of DeleteContainer (lines 88, 96 and 102): the state is unchanged; the result is a failure other than the registry's sentinel; exactly one log line is added |
| `Executor.Unregister` | executor/client.go:100-105 | registry.Delete as DeleteContainer's last step: only the registry changes; nil exactly when delete has no fault and the guid is registered, and then exactly that guid is removed |
| `Executor.Client.constructor` | executor/client.go:33-47 | the client holds the given collaborators, and its trace starts empty |
| `Executor.Client.Log` | executor/client.go:52-71 | a gosteno log call: appends one severity and message line to the trace and changes nothing else |
| `Executor.Client.CallFindByGuid` | executor/client.go:50 | the call to registry.FindByGuid: returns `FindByGuid` of the current registry and records the call |
| `Executor.Client.CallLookup` | executor/client.go:58 | the call to wardenClient.Lookup: returns `LookupContainer` of the current live set and records the call |
| `Executor.Client.CallStepsFor` | executor/client.go:66-67 | the call to transformer.StepsFor with the registration's log, the actions, the container and the result slot; returns the transformer's answer and records the call |
| `Executor.Client.CallSend` | executor/client.go:75-80 | the send on runActions: the item joins the end of the queue and the send is recorded |
| `Executor.Client.CallDestroy` | executor/client.go:94 | the call to wardenClient.Destroy: on success the live set becomes `DestroyContainer`'s; on failure it is unchanged and the error is returned |
| `Executor.Client.CallRegistryDelete` | executor/client.go:100 | the call to registry.Delete: on success the registry becomes `RegistryDelete`'s; on failure it is unchanged and the error is returned |
| `Executor.Client.RunContainer` | executor/client.go:49-83 | the new state, the returned error and the trace of calls and log lines are those of `Run`; the result slot is freshly allocated |
| `Executor.Client.DeleteContainer` | executor/client.go:85-106 | the new state, the returned error and the trace of calls and log lines are those of `Delete` |
| `Executor.Client.Classify` | executor/client.go:112-124 | returns handleDeleteError's error and appends its log line to the trace |
| `ExecutorProperties.RunRegistryFailure` | executor/client.go:50-56 | any registry failure, not only not-found, yields ContainerNotFound; nothing else is called; the state is unchanged |
| `ExecutorProperties.RunLookupFailure` | executor/client.go:58-64 | a failed warden lookup is returned unchanged; the transformer is not called; nothing is queued |
| `ExecutorProperties.RunStepsFailure` | executor/client.go:66-73 | any transformer failure yields StepsInvalid at warning severity; nothing is queued |
| `ExecutorProperties.RunSuccess` | executor/client.go:75-82 | nil is returned exactly when all three collaborators succeed; then exactly one item is appended (completeURL, the registry's registration, the transformer's steps, the slot) and registry and warden are unchanged |
| `ExecutorProperties.MissingGuid` | executor/client.go:50-56 | for an unregistered guid, both run and delete return ContainerNotFound, change nothing and never reach the warden |
| `ExecutorProperties.RunExample` | executor/client.go:49-106 | an example: guid "abc" with handle "h1" dispatches one item to "http://cb"; guid "missing" gives ContainerNotFound for run and delete |
| `ExecutorProperties.HandleDeleteErrorExactly` | executor/client.go:112-124 | for every collaborator error, warden errors included, ContainerNotFound comes back exactly when the input is the registry's sentinel, and otherwise the input itself |
| `ExecutorProperties.DeleteRegistryFailure` | executor/client.go:86-89 | a failed registry lookup is classified by handleDeleteError; nothing else is called |
| `ExecutorProperties.DeleteWithoutHandle` | executor/client.go:93-105 | an empty handle means no destroy call appears anywhere in the trace; the outcome depends only on registry.Delete, whatever destroy would have done |
| `ExecutorProperties.DeleteDestroysFirst` | executor/client.go:93-100 | with a handle, destroy precedes registry.Delete; if destroy fails, registry.Delete is not attempted and the registration remains |
| `ExecutorProperties.DeleteSuccess` | executor/client.go:85-106 | nil exactly when lookup, the conditional destroy and delete all succeed; then only that guid leaves the registry and only its handle leaves the warden |
| `ExecutorProperties.DeleteTwice` | executor/client.go:86-89 | after a successful delete, a second delete of the same guid returns ContainerNotFound without calling destroy |
| `ExecutorProperties.DeleteRetryAfterPartialFailure` | executor/client.go:93-105 | if destroy succeeds and registry.Delete fails, the registration survives with a dead handle; a later delete with no failures completes the cleanup, assuming destroy is idempotent |
| `ExecutorProperties.DeleteRetryWardenRefuses` | executor/client.go:91-97 | as executor/client.go is written, a warden that refuses to destroy a gone container makes the retry fail: the warden's error is returned and logged as an error, and the registration stays |
| `ExecutorProperties.ReplayEvolves` | executor/client.go:49-110 | over any sequence of calls, registrations and containers are never created or altered, and the queue only grows by appending |
| `ExecutorProperties.ReplayDispatched` | executor/client.go:75-82 | over any sequence of calls, the queue grows by exactly one item per successful run, and earlier items stay in place |
| `ExecutorProperties.ReplayDispatchesRegistered` | executor/client.go:50-80 | every item queued by a sequence of calls carries a registration that was in the registry at the start |

## Left out

- Logging through gosteno is recorded only as `Logged(severity, message)` events in a ghost trace. The log payload (the error text) is not modelled.
- The internals of the warden client, the registry storage, the transformer's compilation of actions, the execution of `sequence.New`, and the depot worker pool are foreign code. They appear only as the abstract state and oracles described above.
- Blocking and backpressure on the dispatch channel are not modelled: a send always succeeds at once. Races between concurrent run and delete calls on the same guid are not modelled either: calls are sequential.
- Workers write into the result slot later. That write is not modelled; the slot is an object reference stored in the work item.
- Executor.Ping: the warden's liveness check is an input (`wardenPing`), so the contract states only that it is passed through unchanged.
- DeleteRetryAfterPartialFailure: the cleanup after a partial failure completes only if the warden's destroy is idempotent. That is assumed, not modelled from the warden; DeleteRetryWardenRefuses covers the other case.
