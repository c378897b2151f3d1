/** The execution coordinator of executor/client.go: RunContainer,
    DeleteContainer, Ping and the shared error rule handleDeleteError.

    `Run` and `Delete` state, as functions of the collaborators' state and
    the injected failures, what one call returns, what the collaborators'
    state is afterwards and which collaborator calls it made, in order. The
    class `Client` performs the same steps one collaborator call at a time,
    with the early returns of the Go code in executor/client.go, and its
    methods are proved to agree with those functions. */
module Executor {
  import opened Collaborators

  /** The gosteno call a failure path logs with. */
  datatype Severity = Infod | Warnd | Errord

  const RunNotFoundMessage := "executor.run-actions.container-not-found"
  const RunLookupFailedMessage := "executor.run-actions.lookup-failed"
  const RunStepsInvalidMessage := "executor.run-actions.steps-invalid"
  const DeleteNotFoundMessage := "executor.delete-container.not-found"
  const DeleteFailedMessage := "executor.delete-container.failed"

  /** One observable step of the coordinator: a collaborator call or a log line. */
  datatype Event =
    | FindByGuidCall(guid: string)
    | LookupCall(handle: string)
    | StepsForCall(log: string, actions: seq<Action>, container: Container, slot: ResultSlot?)
    | SendCall(item: DepotRunAction)
    | DestroyCall(handle: string)
    | RegistryDeleteCall(guid: string)
    | PingCall
    | Logged(severity: Severity, message: string)

  /** A Go `error` result: nil or an error. */
  datatype Outcome = Nil | Fail(error: Error)

  /** Injected failures, one per collaborator call an operation may make;
      None lets the collaborator answer from its state. */
  datatype Faults = Faults(
    find: Option<Error>,
    lookup: Option<Error>,
    destroy: Option<Error>,
    delete: Option<Error>)

  const NoFaults := Faults(None, None, None, None)

  /** The collaborators' state the coordinator can change or observe. */
  datatype Env = Env(
    registry: map<string, Registration>,
    live: set<string>,
    queue: seq<DepotRunAction>)

  /** Everything one call produces: the new state, the returned error and
      the calls and log lines it made. */
  datatype Reply = Reply(env: Env, out: Outcome, events: seq<Event>)

  /** What handleDeleteError returns and the log line it writes. */
  datatype Classified = Classified(error: Error, severity: Severity, message: string)

  /** handleDeleteError: the registry's not-found sentinel becomes
      ContainerNotFound (logged as information); every other error is
      returned unchanged (logged as an error). */
  function HandleDeleteError(err: Error): (r: Classified)
    ensures r.error != RegistryNotFound
    ensures r.severity == if err == RegistryNotFound then Infod else Errord
    ensures err == RegistryNotFound ==> r.error == ContainerNotFound && r.message == DeleteNotFoundMessage
    ensures err != RegistryNotFound ==> r.error == err && r.message == DeleteFailedMessage
  {
    if err == RegistryNotFound then Classified(ContainerNotFound, Infod, DeleteNotFoundMessage)
    else Classified(err, Errord, DeleteFailedMessage)
  }

  /** Ping: the warden's ping result, success or failure, unchanged. */
  function Ping(wardenPing: Outcome): (r: Outcome)
    ensures r == wardenPing
  {
    wardenPing
  }

  /** RunContainer as a function of the state: registry lookup, warden
      lookup, transformation, then one work item on the queue. */
  function Run(env: Env, transformer: Transformer, guid: string, actions: seq<Action>,
               completeURL: string, faults: Faults, slot: ResultSlot?): (r: Reply)
    ensures r.env.registry == env.registry && r.env.live == env.live
    ensures r.out.Fail? ==> r.env.queue == env.queue
    ensures r.out.Nil? ==> |r.env.queue| == |env.queue| + 1 && r.env.queue[..|env.queue|] == env.queue
    ensures r.out.Nil? ==> guid in env.registry && r.env.queue[|env.queue|].registration == env.registry[guid]
    ensures r.out.Nil? ==> r.env.queue[|env.queue|].completeURL == completeURL
    ensures |r.events| >= 2 && r.events[0] == FindByGuidCall(guid)
  {
    var found := [FindByGuidCall(guid)];
    match FindByGuid(env.registry, guid, faults.find)
    case Failure(_) =>
      Reply(env, Fail(ContainerNotFound), found + [Logged(Infod, RunNotFoundMessage)])
    case Success(registration) =>
      var looked := found + [LookupCall(registration.handle)];
      match LookupContainer(env.live, registration.handle, faults.lookup)
      case Failure(e) =>
        Reply(env, Fail(e), looked + [Logged(Infod, RunLookupFailedMessage)])
      case Success(container) =>
        var built := looked + [StepsForCall(registration.log, actions, container, slot)];
        match transformer(registration.log, actions, container, slot)
        case Failure(_) =>
          Reply(env, Fail(StepsInvalid), built + [Logged(Warnd, RunStepsInvalidMessage)])
        case Success(steps) =>
          var item := DepotRunAction(completeURL, registration, Sequence(steps), slot);
          Reply(env.(queue := env.queue + [item]), Nil, built + [SendCall(item)])
  }

  /** A failure of one of DeleteContainer's collaborator calls, classified
      and logged by handleDeleteError. */
  function DeleteFailed(env: Env, events: seq<Event>, err: Error): (r: Reply)
    ensures r.env == env && r.out.Fail? && r.out.error != RegistryNotFound
    ensures |r.events| == |events| + 1 && r.events[..|events|] == events
    ensures r.out.error == HandleDeleteError(err).error
    ensures r.events[|events|] == Logged(HandleDeleteError(err).severity, HandleDeleteError(err).message)
  {
    var c := HandleDeleteError(err);
    Reply(env, Fail(c.error), events + [Logged(c.severity, c.message)])
  }

  /** The last step of DeleteContainer, registry.Delete, after `events`. */
  function Unregister(env: Env, guid: string, fault: Option<Error>, events: seq<Event>): (r: Reply)
    ensures r.env.queue == env.queue && r.env.live == env.live
    ensures r.out.Nil? <==> fault.None? && guid in env.registry
    ensures r.env.registry == if r.out.Nil? then env.registry - {guid} else env.registry
  {
    var deleted := events + [RegistryDeleteCall(guid)];
    match RegistryDelete(env.registry, guid, fault)
    case Failure(e) => DeleteFailed(env, deleted, e)
    case Success(registry) => Reply(env.(registry := registry), Nil, deleted)
  }

  /** DeleteContainer as a function of the state: registry lookup, the
      container's destruction when it has a handle, then registry.Delete. */
  function Delete(env: Env, guid: string, faults: Faults): (r: Reply)
    ensures r.env.queue == env.queue
    ensures r.out.Nil? ==> guid in env.registry && r.env.registry == env.registry - {guid}
    ensures r.out.Fail? ==> r.env.registry == env.registry && r.out.error != RegistryNotFound
    ensures r.env.live == env.live || (guid in env.registry && r.env.live == env.live - {env.registry[guid].handle})
    ensures |r.events| >= 2 && r.events[0] == FindByGuidCall(guid)
  {
    var found := [FindByGuidCall(guid)];
    match FindByGuid(env.registry, guid, faults.find)
    case Failure(e) => DeleteFailed(env, found, e)
    case Success(registration) =>
      if registration.handle != "" then
        var destroyed := found + [DestroyCall(registration.handle)];
        match DestroyContainer(env.live, registration.handle, faults.destroy)
        case Failure(e) => DeleteFailed(env, destroyed, e)
        case Success(live) => Unregister(env.(live := live), guid, faults.delete, destroyed)
      else
        Unregister(env, guid, faults.delete, found)
  }

  /** The coordinator together with the state of the collaborators it holds
      references to. */
  class Client {
    var registry: map<string, Registration>
    var live: set<string>
    var queue: seq<DepotRunAction>
    const transformer: Transformer
    /** The collaborator calls and log lines made so far, in order. */
    ghost var trace: seq<Event>

    function State(): Env
      reads this
    {
      Env(registry, live, queue)
    }

    /** NewClient: wires the coordinator to its collaborators. */
    constructor (registry: map<string, Registration>, live: set<string>,
                 queue: seq<DepotRunAction>, transformer: Transformer)
      ensures State() == Env(registry, live, queue) && this.transformer == transformer
      ensures trace == []
    {
      this.registry := registry;
      this.live := live;
      this.queue := queue;
      this.transformer := transformer;
      trace := [];
    }

    ghost method Log(severity: Severity, message: string)
      modifies this`trace
      ensures trace == old(trace) + [Logged(severity, message)]
    {
      trace := trace + [Logged(severity, message)];
    }

    method CallFindByGuid(guid: string, fault: Option<Error>) returns (r: Result<Registration>)
      modifies this`trace
      ensures r == FindByGuid(registry, guid, fault)
      ensures trace == old(trace) + [FindByGuidCall(guid)]
    {
      trace := trace + [FindByGuidCall(guid)];
      r := FindByGuid(registry, guid, fault);
    }

    method CallLookup(handle: string, fault: Option<Error>) returns (r: Result<Container>)
      modifies this`trace
      ensures r == LookupContainer(live, handle, fault)
      ensures trace == old(trace) + [LookupCall(handle)]
    {
      trace := trace + [LookupCall(handle)];
      r := LookupContainer(live, handle, fault);
    }

    method CallStepsFor(log: string, actions: seq<Action>, container: Container, slot: ResultSlot)
      returns (r: Result<seq<Step>>)
      modifies this`trace
      ensures r == transformer(log, actions, container, slot)
      ensures trace == old(trace) + [StepsForCall(log, actions, container, slot)]
    {
      trace := trace + [StepsForCall(log, actions, container, slot)];
      r := transformer(log, actions, container, slot);
    }

    /** `c.runActions <- item`: the item joins the end of the queue. */
    method CallSend(item: DepotRunAction)
      modifies this`queue, this`trace
      ensures queue == old(queue) + [item]
      ensures trace == old(trace) + [SendCall(item)]
    {
      queue := queue + [item];
      trace := trace + [SendCall(item)];
    }

    method CallDestroy(handle: string, fault: Option<Error>) returns (err: Option<Error>)
      modifies this`live, this`trace
      ensures var r := DestroyContainer(old(live), handle, fault);
              if r.Success? then err.None? && live == r.value else err == Some(r.error) && live == old(live)
      ensures trace == old(trace) + [DestroyCall(handle)]
    {
      trace := trace + [DestroyCall(handle)];
      var r := DestroyContainer(live, handle, fault);
      if r.Success? {
        live, err := r.value, None;
      } else {
        err := Some(r.error);
      }
    }

    method CallRegistryDelete(guid: string, fault: Option<Error>) returns (err: Option<Error>)
      modifies this`registry, this`trace
      ensures var r := RegistryDelete(old(registry), guid, fault);
              if r.Success? then err.None? && registry == r.value else err == Some(r.error) && registry == old(registry)
      ensures trace == old(trace) + [RegistryDeleteCall(guid)]
    {
      trace := trace + [RegistryDeleteCall(guid)];
      var r := RegistryDelete(registry, guid, fault);
      if r.Success? {
        registry, err := r.value, None;
      } else {
        err := Some(r.error);
      }
    }

    /** RunContainer. `slot` is the result slot it allocates (null when it
        stops before calling the transformer). */
    method RunContainer(guid: string, actions: seq<Action>, completeURL: string, faults: Faults)
      returns (err: Outcome, ghost slot: ResultSlot?)
      modifies this
      ensures slot != null ==> fresh(slot)
      ensures err.Nil? ==> slot != null
      ensures var r := Run(old(State()), transformer, guid, actions, completeURL, faults, slot);
              State() == r.env && err == r.out && trace == old(trace) + r.events
    {
      slot := null;
      var found := CallFindByGuid(guid, faults.find);
      if found.Failure? {
        Log(Infod, RunNotFoundMessage);
        return Fail(ContainerNotFound), slot;
      }
      var registration := found.value;

      var container := CallLookup(registration.handle, faults.lookup);
      if container.Failure? {
        Log(Infod, RunLookupFailedMessage);
        return Fail(container.error), slot;
      }

      var result := new ResultSlot();
      slot := result;
      var steps := CallStepsFor(registration.log, actions, container.value, result);
      if steps.Failure? {
        Log(Warnd, RunStepsInvalidMessage);
        return Fail(StepsInvalid), slot;
      }

      CallSend(DepotRunAction(completeURL, registration, Sequence(steps.value), result));
      return Nil, slot;
    }

    /** handleDeleteError, with its log line written to the trace. */
    method Classify(e: Error) returns (err: Outcome)
      modifies this`trace
      ensures var c := HandleDeleteError(e);
              err == Fail(c.error) && trace == old(trace) + [Logged(c.severity, c.message)]
    {
      var c := HandleDeleteError(e);
      Log(c.severity, c.message);
      err := Fail(c.error);
    }

    /** DeleteContainer. */
    method DeleteContainer(guid: string, faults: Faults) returns (err: Outcome)
      modifies this
      ensures var r := Delete(old(State()), guid, faults);
              State() == r.env && err == r.out && trace == old(trace) + r.events
    {
      var found := CallFindByGuid(guid, faults.find);
      if found.Failure? {
        err := Classify(found.error);
        return;
      }
      var registration := found.value;

      if registration.handle != "" {
        var destroyErr := CallDestroy(registration.handle, faults.destroy);
        if destroyErr.Some? {
          err := Classify(destroyErr.value);
          return;
        }
      }

      var deleteErr := CallRegistryDelete(guid, faults.delete);
      if deleteErr.Some? {
        err := Classify(deleteErr.value);
        return;
      }
      err := Nil;
    }
  }
}
