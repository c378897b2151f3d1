/** The collaborators of the execution coordinator (executor/client.go), reduced
    to what the coordinator can observe of them.

    - The registry is a map from container guid to Registration.
    - The warden (container runtime) is the set of handles of live containers.
    - The transformer is an oracle from (log identity, actions, container,
      result slot) to a step list or an error.

    The internals of each are not part of this model. The four registry and
    warden calls the coordinator makes (FindByGuid, Lookup, Destroy and
    registry Delete) each take an injected failure (`fault`), so that the
    coordinator's error paths can be reached whatever the collaborators' own
    state is. The transformer needs none: it is an oracle that may fail on
    its own. The send on the dispatch channel cannot fail. */
module Collaborators {

  datatype Option<+T> = None | Some(value: T)

  /** The errors that cross the coordinator's boundary. Go compares errors by
      identity; here each distinct error is a distinct value. */
  datatype Error =
    | RegistryNotFound              // the registry's sentinel, registry.ErrContainerNotFound
    | ContainerNotFound             // the coordinator's sentinel, executor.ContainerNotFound
    | StepsInvalid                  // the coordinator's sentinel, executor.StepsInvalid
    | UnknownHandle(handle: string) // the warden's failure for a handle it holds no container for
    | Opaque(id: nat)               // any other collaborator error, known only by its identity

  datatype Result<+T> = Success(value: T) | Failure(error: Error)

  /** A registry entry: the guid it is kept under, the warden handle of its
      container ("" while none has been provisioned) and the log identity
      that the transformed steps log under. */
  datatype Registration = Registration(guid: string, handle: string, log: string)

  /** A live warden container, as returned by the warden's Lookup. */
  datatype Container = Container(handle: string)

  /** A declarative action (models.ExecutorAction); opaque to the coordinator. */
  datatype Action = Action(id: nat)

  /** An executable step produced by the transformer; opaque to the coordinator. */
  datatype Step = Step(id: nat)

  /** sequence.New(steps): the steps, in the order the transformer gave them. */
  datatype Sequence = Sequence(steps: seq<Step>)

  /** The string a worker fills in once the sequence has run; the coordinator
      creates it, hands a reference to the transformer and to the work item,
      and never touches it again. */
  class ResultSlot {
    var value: string

    constructor ()
      ensures value == ""
    {
      value := "";
    }
  }

  /** The work item sent on the dispatch channel (DepotRunAction). */
  datatype DepotRunAction = DepotRunAction(
    completeURL: string,
    registration: Registration,
    sequence: Sequence,
    result: ResultSlot?)

  /** transformer.StepsFor(log, actions, container, &result). */
  type Transformer = (string, seq<Action>, Container, ResultSlot?) -> Result<seq<Step>>

  /** registry.FindByGuid: the registration of a known guid, the registry's
      sentinel for an unknown one, or the injected failure. */
  function FindByGuid(registry: map<string, Registration>, guid: string, fault: Option<Error>): (r: Result<Registration>)
    ensures r.Success? <==> fault.None? && guid in registry
    ensures r.Success? ==> r.value == registry[guid]
    ensures fault.None? && guid !in registry ==> r == Failure(RegistryNotFound)
    ensures fault.Some? ==> r == Failure(fault.value)
  {
    match fault
    case Some(e) => Failure(e)
    case None => if guid in registry then Success(registry[guid]) else Failure(RegistryNotFound)
  }

  /** registry.Delete: the registry without the guid, the registry's sentinel
      for an unknown guid, or the injected failure. */
  function RegistryDelete(registry: map<string, Registration>, guid: string, fault: Option<Error>): (r: Result<map<string, Registration>>)
    ensures r.Success? <==> fault.None? && guid in registry
    ensures r.Success? ==> r.value.Keys == registry.Keys - {guid}
    ensures r.Success? ==> forall g :: g in r.value ==> r.value[g] == registry[g]
    ensures fault.None? && guid !in registry ==> r == Failure(RegistryNotFound)
    ensures fault.Some? ==> r == Failure(fault.value)
  {
    match fault
    case Some(e) => Failure(e)
    case None => if guid in registry then Success(registry - {guid}) else Failure(RegistryNotFound)
  }

  /** wardenClient.Lookup: the live container with that handle, the warden's
      failure for a handle it does not hold, or the injected failure. */
  function LookupContainer(live: set<string>, handle: string, fault: Option<Error>): (r: Result<Container>)
    ensures r.Success? <==> fault.None? && handle in live
    ensures r.Success? ==> r.value == Container(handle)
    ensures fault.None? && handle !in live ==> r == Failure(UnknownHandle(handle))
    ensures fault.Some? ==> r == Failure(fault.value)
  {
    match fault
    case Some(e) => Failure(e)
    case None => if handle in live then Success(Container(handle)) else Failure(UnknownHandle(handle))
  }

  /** wardenClient.Destroy: unless it fails, the container is gone afterwards.
      Without an injected failure, destroying a handle that is already gone
      succeeds. That idempotence is an ASSUMPTION of this model, which a
      retry after a partial failure needs. The TODO at
      executor/client.go:91-92 says the warden client has no not-found error
      code, so a real destroy of a gone container fails; that case is the
      injected failure UnknownHandle(handle). */
  function DestroyContainer(live: set<string>, handle: string, fault: Option<Error>): (r: Result<set<string>>)
    ensures r.Success? <==> fault.None?
    ensures r.Success? ==> r.value == live - {handle}
    ensures fault.Some? ==> r == Failure(fault.value)
  {
    match fault
    case Some(e) => Failure(e)
    case None => Success(live - {handle})
  }

  // Facts about consecutive collaborator calls.

  /** After registry.Delete has removed a guid, a later FindByGuid without
      an injected failure gets the not-found sentinel. Every other guid is
      found as before. */
  lemma FindAfterDelete(registry: map<string, Registration>, guid: string, other: string)
    requires RegistryDelete(registry, guid, None).Success?
    ensures var after := RegistryDelete(registry, guid, None).value;
            && FindByGuid(after, guid, None) == Failure(RegistryNotFound)
            && (other != guid ==> FindByGuid(after, other, None) == FindByGuid(registry, other, None))
  {
  }

  /** After a successful destroy, a lookup of that handle without an
      injected failure fails with UnknownHandle. Every other handle is
      looked up as before. */
  lemma LookupAfterDestroy(live: set<string>, handle: string, other: string, fault: Option<Error>)
    requires DestroyContainer(live, handle, fault).Success?
    ensures var after := DestroyContainer(live, handle, fault).value;
            && LookupContainer(after, handle, None) == Failure(UnknownHandle(handle))
            && (other != handle ==> LookupContainer(after, other, None) == LookupContainer(live, other, None))
  {
  }

  /** The assumed idempotence of destroy: a second destroy without an
      injected failure succeeds again and changes nothing more. */
  lemma DestroyTwice(live: set<string>, handle: string)
    ensures var once := DestroyContainer(live, handle, None).value;
            DestroyContainer(once, handle, None) == Success(once)
  {
    assert (live - {handle}) - {handle} == live - {handle};
  }
}
