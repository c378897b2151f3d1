/** Properties of the execution coordinator: what each path of RunContainer
    and DeleteContainer does, the shared error rule, and what any sequence of
    calls can do to the collaborators' state. */
module ExecutorProperties {
  import opened Collaborators
  import opened Executor

  // ---------------------------------------------------------------------
  // RunContainer
  // ---------------------------------------------------------------------

  /** Any registry failure, not only the not-found sentinel, ends the run
      with ContainerNotFound; the warden, the transformer and the queue are
      not touched. */
  lemma RunRegistryFailure(env: Env, transformer: Transformer, guid: string, actions: seq<Action>,
                           completeURL: string, faults: Faults, slot: ResultSlot?)
    requires faults.find.Some? || guid !in env.registry
    ensures Run(env, transformer, guid, actions, completeURL, faults, slot)
            == Reply(env, Fail(ContainerNotFound), [FindByGuidCall(guid), Logged(Infod, RunNotFoundMessage)])
  {
  }

  /** A failed warden lookup is returned as it is; the transformer is not
      called and nothing is queued. */
  lemma RunLookupFailure(env: Env, transformer: Transformer, guid: string, actions: seq<Action>,
                         completeURL: string, faults: Faults, slot: ResultSlot?)
    requires faults.find.None? && guid in env.registry
    requires faults.lookup.Some? || env.registry[guid].handle !in env.live
    ensures var handle := env.registry[guid].handle;
            var e := if faults.lookup.Some? then faults.lookup.value else UnknownHandle(handle);
            Run(env, transformer, guid, actions, completeURL, faults, slot)
            == Reply(env, Fail(e), [FindByGuidCall(guid), LookupCall(handle), Logged(Infod, RunLookupFailedMessage)])
  {
  }

  /** A transformer failure of any kind becomes StepsInvalid; nothing is
      queued. */
  lemma RunStepsFailure(env: Env, transformer: Transformer, guid: string, actions: seq<Action>,
                        completeURL: string, faults: Faults, slot: ResultSlot?)
    requires faults.find.None? && guid in env.registry
    requires faults.lookup.None? && env.registry[guid].handle in env.live
    requires var registration := env.registry[guid];
             transformer(registration.log, actions, Container(registration.handle), slot).Failure?
    ensures var registration := env.registry[guid];
            var container := Container(registration.handle);
            Run(env, transformer, guid, actions, completeURL, faults, slot)
            == Reply(env, Fail(StepsInvalid),
                     [FindByGuidCall(guid), LookupCall(registration.handle),
                      StepsForCall(registration.log, actions, container, slot),
                      Logged(Warnd, RunStepsInvalidMessage)])
  {
  }

  /** A run succeeds exactly when the registry, the warden and the
      transformer all do; it then appends exactly one work item, built from
      the caller's completeURL, the registration the registry returned and
      the transformer's steps, and changes nothing else. */
  lemma RunSuccess(env: Env, transformer: Transformer, guid: string, actions: seq<Action>,
                   completeURL: string, faults: Faults, slot: ResultSlot?)
    ensures var r := Run(env, transformer, guid, actions, completeURL, faults, slot);
            r.out.Nil? <==>
              && faults.find.None? && guid in env.registry
              && faults.lookup.None? && env.registry[guid].handle in env.live
              && transformer(env.registry[guid].log, actions, Container(env.registry[guid].handle), slot).Success?
    ensures var r := Run(env, transformer, guid, actions, completeURL, faults, slot);
            r.out.Nil? ==>
              var registration := env.registry[guid];
              var container := Container(registration.handle);
              var steps := transformer(registration.log, actions, container, slot).value;
              var item := DepotRunAction(completeURL, registration, Sequence(steps), slot);
              && r.env == Env(env.registry, env.live, env.queue + [item])
              && r.events == [FindByGuidCall(guid), LookupCall(registration.handle),
                              StepsForCall(registration.log, actions, container, slot), SendCall(item)]
  {
  }

  /** A guid the registry does not know: both RunContainer and
      DeleteContainer report ContainerNotFound, change nothing, and neither
      reaches the warden. */
  lemma MissingGuid(env: Env, transformer: Transformer, guid: string, actions: seq<Action>,
                    completeURL: string, faults: Faults, slot: ResultSlot?)
    requires guid !in env.registry && faults.find.None?
    ensures Run(env, transformer, guid, actions, completeURL, faults, slot)
            == Reply(env, Fail(ContainerNotFound), [FindByGuidCall(guid), Logged(Infod, RunNotFoundMessage)])
    ensures Delete(env, guid, faults)
            == Reply(env, Fail(ContainerNotFound), [FindByGuidCall(guid), Logged(Infod, DeleteNotFoundMessage)])
  {
  }

  /** An example: guid "abc" registered with handle "h1", two
      actions that transform, callback "http://cb". */
  lemma RunExample(transformer: Transformer, steps: seq<Step>, slot: ResultSlot)
    requires transformer("abc-log", [Action(1), Action(2)], Container("h1"), slot) == Success(steps)
    ensures var registration := Registration("abc", "h1", "abc-log");
            var env := Env(map["abc" := registration], {"h1"}, []);
            var r := Run(env, transformer, "abc", [Action(1), Action(2)], "http://cb", NoFaults, slot);
            && r.out == Nil
            && r.env.queue == [DepotRunAction("http://cb", registration, Sequence(steps), slot)]
            && Run(env, transformer, "missing", [Action(1), Action(2)], "http://cb", NoFaults, slot).out
               == Fail(ContainerNotFound)
            && Delete(env, "missing", NoFaults).out == Fail(ContainerNotFound)
  {
  }

  // ---------------------------------------------------------------------
  // handleDeleteError and Ping
  // ---------------------------------------------------------------------

  /** For any error a collaborator can produce (that is, not one of the
      coordinator's own sentinels), handleDeleteError yields
      ContainerNotFound exactly when the error is the registry's sentinel,
      and otherwise the error itself. A warden error is no exception. */
  lemma HandleDeleteErrorExactly(e: Error)
    requires !e.ContainerNotFound? && !e.StepsInvalid?
    ensures HandleDeleteError(e).error == ContainerNotFound <==> e == RegistryNotFound
    ensures HandleDeleteError(e).error == e <==> e != RegistryNotFound
  {
  }

  // ---------------------------------------------------------------------
  // DeleteContainer
  // ---------------------------------------------------------------------

  /** A failed registry lookup is classified by handleDeleteError; the
      warden and the registry are not asked anything else. */
  lemma DeleteRegistryFailure(env: Env, guid: string, faults: Faults)
    requires faults.find.Some? || guid !in env.registry
    ensures var e := if faults.find.Some? then faults.find.value else RegistryNotFound;
            var c := HandleDeleteError(e);
            Delete(env, guid, faults) == Reply(env, Fail(c.error), [FindByGuidCall(guid), Logged(c.severity, c.message)])
  {
  }

  /** With an empty handle destroy is never called: the outcome is the
      outcome of registry.Delete alone, whatever the warden would have done. */
  lemma DeleteWithoutHandle(env: Env, guid: string, faults: Faults, anyDestroy: Option<Error>)
    requires faults.find.None? && guid in env.registry && env.registry[guid].handle == ""
    ensures var r := Delete(env, guid, faults);
            && r == Delete(env, guid, faults.(destroy := anyDestroy))
            && r.env.live == env.live
            && r.events[1] == RegistryDeleteCall(guid)
            && (forall i :: 0 <= i < |r.events| ==> !r.events[i].DestroyCall?)
            && r.out == (if faults.delete.None? then Nil else Fail(HandleDeleteError(faults.delete.value).error))
  {
  }

  /** With a handle, destroy comes first. If it fails, registry.Delete is
      not attempted and the registration is still there; otherwise
      registry.Delete follows. */
  lemma DeleteDestroysFirst(env: Env, guid: string, faults: Faults)
    requires faults.find.None? && guid in env.registry && env.registry[guid].handle != ""
    ensures var handle := env.registry[guid].handle;
            var r := Delete(env, guid, faults);
            if faults.destroy.Some? then
              var c := HandleDeleteError(faults.destroy.value);
              r == Reply(env, Fail(c.error), [FindByGuidCall(guid), DestroyCall(handle), Logged(c.severity, c.message)])
            else
              && r.events[..3] == [FindByGuidCall(guid), DestroyCall(handle), RegistryDeleteCall(guid)]
              && r.env.live == env.live - {handle}
  {
  }

  /** A successful delete removes the guid, and only the guid, from the
      registry, and its container (if it had one) from the warden. */
  lemma DeleteSuccess(env: Env, guid: string, faults: Faults)
    ensures var r := Delete(env, guid, faults);
            r.out.Nil? <==>
              && faults.find.None? && guid in env.registry
              && (env.registry[guid].handle != "" ==> faults.destroy.None?)
              && faults.delete.None?
    ensures var r := Delete(env, guid, faults);
            r.out.Nil? ==>
              && r.env.registry == env.registry - {guid}
              && (env.registry[guid].handle != "" ==> r.env.live == env.live - {env.registry[guid].handle})
              && (env.registry[guid].handle == "" ==> r.env.live == env.live)
  {
  }

  /** Deleting twice: once the first delete has succeeded, the second one
      finds nothing and reports ContainerNotFound without touching the warden. */
  lemma DeleteTwice(env: Env, guid: string, first: Faults, second: Faults)
    requires Delete(env, guid, first).out == Nil
    requires second.find.None?
    ensures var after := Delete(env, guid, first).env;
            Delete(after, guid, second)
            == Reply(after, Fail(ContainerNotFound), [FindByGuidCall(guid), Logged(Infod, DeleteNotFoundMessage)])
  {
    FindAfterDelete(env.registry, guid, guid);
  }

  /** The teardown is not transactional: when the container is destroyed but
      registry.Delete fails, the registration survives with a handle the
      warden no longer holds. A later delete without failures completes the
      cleanup, UNDER THE ASSUMPTION that destroying a missing container
      succeeds (Collaborators.DestroyContainer). */
  lemma DeleteRetryAfterPartialFailure(env: Env, guid: string, faults: Faults, e: Error)
    requires faults.find.None? && guid in env.registry && env.registry[guid].handle != ""
    requires faults.destroy.None? && faults.delete == Some(e)
    ensures var handle := env.registry[guid].handle;
            var r := Delete(env, guid, faults);
            && r.out == Fail(HandleDeleteError(e).error)
            && guid in r.env.registry && handle !in r.env.live
            && Delete(r.env, guid, NoFaults).out == Nil
            && guid !in Delete(r.env, guid, NoFaults).env.registry
  {
  }

  /** The same retry without that assumption, as the TODO at
      executor/client.go:91-92 describes the warden: its destroy of a gone
      container fails. The coordinator then returns the warden's error,
      logged as an error, and the registration stays, so every later retry
      fails the same way. */
  lemma DeleteRetryWardenRefuses(env: Env, guid: string, faults: Faults)
    requires faults.find.None? && guid in env.registry
    requires var handle := env.registry[guid].handle;
             handle != "" && handle !in env.live && faults.destroy == Some(UnknownHandle(handle))
    ensures var handle := env.registry[guid].handle;
            var r := Delete(env, guid, faults);
            && r.out == Fail(UnknownHandle(handle))
            && r.env == env
            && r.events == [FindByGuidCall(guid), DestroyCall(handle), Logged(Errord, DeleteFailedMessage)]
  {
  }

  // ---------------------------------------------------------------------
  // Sequences of calls
  // ---------------------------------------------------------------------

  /** One call to the coordinator, with the failures its collaborators
      inject and, for a run, the result slot it allocates. */
  datatype Request =
    | RunRequest(guid: string, actions: seq<Action>, completeURL: string, faults: Faults, slot: ResultSlot?)
    | DeleteRequest(guid: string, faults: Faults)
    | PingRequest(wardenPing: Outcome)

  function Apply(env: Env, transformer: Transformer, req: Request): Reply
  {
    match req
    case RunRequest(guid, actions, completeURL, faults, slot) =>
      Run(env, transformer, guid, actions, completeURL, faults, slot)
    case DeleteRequest(guid, faults) => Delete(env, guid, faults)
    case PingRequest(wardenPing) => Reply(env, Ping(wardenPing), [PingCall])
  }

  /** The state after the requests, made one after another. */
  function Replay(env: Env, transformer: Transformer, reqs: seq<Request>): Env
    decreases |reqs|
  {
    if reqs == [] then env
    else Apply(Replay(env, transformer, reqs[..|reqs| - 1]), transformer, reqs[|reqs| - 1]).env
  }

  /** The number of requests in `reqs` that returned nil from RunContainer. */
  function Dispatched(env: Env, transformer: Transformer, reqs: seq<Request>): nat
    decreases |reqs|
  {
    if reqs == [] then 0
    else
      var last := reqs[|reqs| - 1];
      var before := Replay(env, transformer, reqs[..|reqs| - 1]);
      Dispatched(env, transformer, reqs[..|reqs| - 1])
      + (if last.RunRequest? && Apply(before, transformer, last).out.Nil? then 1 else 0)
  }

  /** What the coordinator can do to its collaborators' state: it never
      creates or alters a registration, never creates a container, and only
      appends to the dispatch queue. */
  ghost predicate Evolves(before: Env, after: Env)
  {
    && before.queue <= after.queue
    && after.live <= before.live
    && after.registry.Keys <= before.registry.Keys
    && (forall g :: g in after.registry ==> after.registry[g] == before.registry[g])
  }

  lemma {:induction false} ReplayEvolves(env: Env, transformer: Transformer, reqs: seq<Request>)
    ensures Evolves(env, Replay(env, transformer, reqs))
    decreases |reqs|
  {
    if reqs != [] {
      var prefix := reqs[..|reqs| - 1];
      ReplayEvolves(env, transformer, prefix);
      var before := Replay(env, transformer, prefix);
      var last := reqs[|reqs| - 1];
      var after := Apply(before, transformer, last).env;
      assert Evolves(before, after);
      assert before.queue <= after.queue;
    }
  }

  /** The queue grows by exactly one item per successful run, and the items
      already on it stay where they are. */
  lemma {:induction false} ReplayDispatched(env: Env, transformer: Transformer, reqs: seq<Request>)
    ensures var final := Replay(env, transformer, reqs);
            |final.queue| == |env.queue| + Dispatched(env, transformer, reqs)
            && final.queue[..|env.queue|] == env.queue
    decreases |reqs|
  {
    if reqs != [] {
      var prefix := reqs[..|reqs| - 1];
      ReplayDispatched(env, transformer, prefix);
      var before := Replay(env, transformer, prefix);
      var after := Apply(before, transformer, reqs[|reqs| - 1]).env;
      assert after.queue[..|before.queue|] == before.queue;
      assert after.queue[..|env.queue|] == before.queue[..|env.queue|];
    }
  }

  /** Every work item a sequence of calls queues carries a registration
      that was in the registry at the start. */
  lemma {:induction false} ReplayDispatchesRegistered(env: Env, transformer: Transformer, reqs: seq<Request>)
    ensures var final := Replay(env, transformer, reqs);
            forall i :: |env.queue| <= i < |final.queue| ==> final.queue[i].registration in env.registry.Values
    decreases |reqs|
  {
    if reqs != [] {
      var prefix := reqs[..|reqs| - 1];
      ReplayDispatchesRegistered(env, transformer, prefix);
      ReplayDispatched(env, transformer, prefix);
      ReplayEvolves(env, transformer, prefix);
      var before := Replay(env, transformer, prefix);
      var last := reqs[|reqs| - 1];
      var r := Apply(before, transformer, last);
      if r.env.queue != before.queue {
        assert last.RunRequest? && r.out.Nil?;
        var item := r.env.queue[|before.queue|];
        assert item.registration == before.registry[last.guid];
        assert env.registry[last.guid] == item.registration;
      }
    }
  }
}
