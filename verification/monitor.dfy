/** The monitor: one pass over a snapshot of the registry keys, and the loop of
    passes. The pass is the same code in both versions (`monitor_batches` in
    the async core and in the threaded version): take `list(registry.keys())`,
    check each key in turn, and catch whatever one check raises so the pass goes
    on. They differ in the check they call and in the loop condition: the
    async loop tests the aborted flag before each pass, the threaded one runs
    forever.

    The provider's status call is the oracle `status`: it answers a key with a
    batch reply or raises. A pass asks about each key once, so one function of
    the key describes a whole pass. `during[i]` are the ids the submit closure
    records (from another thread) before the i-th check of the pass. */
module Monitor {
  import opened Py
  import opened EventBus
  import opened Jobs
  import Core
  import Legacy

  datatype Variant = Async | Threaded

  /** The check the variant's pass calls. */
  function Check<C>(v: Variant, bus: Bus<C>, r: Registry, batchId: string,
                    reply: Result<Batch>, fails: (C, Value) -> bool): Core.CheckResult<C>
    requires Valid(r)
  {
    match v
    case Async => Core.CheckBatchesResults(bus, r, batchId, reply, fails)
    case Threaded => Legacy.CheckBatchesResults(bus, r, batchId, reply, fails)
  }

  /** Whether the check deletes the job on this reply. */
  predicate Removes(v: Variant, reply: Result<Batch>) {
    && reply.Ok?
    && match v
       case Async => Core.Classify(reply.value.status) == Core.StopTracking
       case Threaded => reply.value.status == "failed"
  }

  /** Whether the check publishes an event on this reply. */
  predicate Publishes(v: Variant, reply: Result<Batch>) {
    && reply.Ok?
    && match v
       case Async => Core.Classify(reply.value.status) == Core.StopTracking
       case Threaded => reply.value.status in {"completed", "failed"}
  }

  /** The event the check publishes on a publishing reply. */
  function EventFor(v: Variant, batchId: string, reply: Batch): Core.Event {
    match v
    case Async => Core.Event(Core.ProcessingCompleted, Core.CorePayload(batchId, reply))
    case Threaded =>
      if reply.status == "completed" then
        Core.Event(Legacy.BatchCompleted, Legacy.CompletedPayload(batchId, reply.outputFileId))
      else
        Core.Event(Legacy.BatchCompleted, Legacy.FailedPayload(batchId))
  }

  /** The exception a check raises when the key is still registered: the
      status call's own, or one from a subscriber. Never a KeyError from `del`. */
  ghost predicate CheckError(reply: Result<Batch>, e: Error) {
    if reply.Err? then e == reply.error else e == CallbackError("event subscriber raised")
  }

  /** What a check does to a job that is still registered, stated uniformly
      for both variants. */
  lemma CheckRegistered<C>(v: Variant, bus: Bus<C>, r: Registry, batchId: string,
                           reply: Result<Batch>, fails: (C, Value) -> bool)
    requires Valid(r) && batchId in r.jobs
    ensures var c := Check(v, bus, r, batchId, reply, fails);
      && Valid(c.registry)
      && (forall k :: k in c.registry.jobs <==> k in r.jobs && !(k == batchId && Removes(v, reply)))
      && (forall k :: k in c.registry.jobs ==> c.registry.jobs[k] == r.jobs[k])
      && c.published == (if Publishes(v, reply) then [EventFor(v, batchId, reply.value)] else [])
      && (c.error.Some? ==> CheckError(reply, c.error.value))
      && (reply.Err? ==> c.error == Some(reply.error))
  {
  }

  /** The exception of a check on a registered job, and nothing else about it. */
  lemma CheckErrorRegistered<C>(v: Variant, bus: Bus<C>, r: Registry, batchId: string,
                                reply: Result<Batch>, fails: (C, Value) -> bool)
    requires Valid(r) && batchId in r.jobs
    ensures var c := Check(v, bus, r, batchId, reply, fails);
      && (c.error.Some? ==> CheckError(reply, c.error.value))
      && (reply.Err? ==> c.error == Some(reply.error))
  {
    CheckRegistered(v, bus, r, batchId, reply, fails);
  }

  /** A pass of `monitor_batches`: what it did to the registry, the events it
      published, the callbacks they reached, and the exceptions it caught. */
  datatype Failure = Failure(batchId: string, error: Error)

  datatype PassResult<C> = PassResult(
    registry: Registry,
    published: seq<Core.Event>,
    invoked: seq<Invocation<C, Value>>,
    failures: seq<Failure>)

  /** The remaining part of a pass: check `pending` in order on the registry
      as the other thread's submissions leave it. */
  function PassOver<C>(v: Variant, bus: Bus<C>, r: Registry, pending: seq<string>,
                       during: seq<seq<string>>, status: string -> Result<Batch>,
                       fails: (C, Value) -> bool): (p: PassResult<C>)
    requires Valid(r)
    requires |during| == |pending|
    ensures Valid(p.registry)
    decreases |pending|
  {
    if pending == [] then PassResult(r, [], [], [])
    else
      var arrived := TrackAll(r, during[0]);
      var c := Check(v, bus, arrived, pending[0], status(pending[0]), fails);
      var rest := PassOver(v, bus, c.registry, pending[1..], during[1..], status, fails);
      var caught: seq<Failure> := if c.error.Some? then [Failure(pending[0], c.error.value)] else [];
      PassResult(rest.registry, c.published + rest.published, c.invoked + rest.invoked, caught + rest.failures)
  }

  /** One pass: the key list is snapshotted before the first check. */
  function MonitorPass<C>(v: Variant, bus: Bus<C>, r: Registry, during: seq<seq<string>>,
                          status: string -> Result<Batch>, fails: (C, Value) -> bool): (p: PassResult<C>)
    requires Valid(r)
    requires |during| == |r.order|
    ensures Valid(p.registry)
  {
    PassOver(v, bus, r, r.order, during, status, fails)
  }

  /** All ids submitted during a pass. */
  function Flatten(during: seq<seq<string>>): (ids: seq<string>)
    ensures forall i, k :: 0 <= i < |during| && k in during[i] ==> k in ids
    ensures forall k :: k in ids ==> exists i :: 0 <= i < |during| && k in during[i]
  {
    if during == [] then [] else during[0] + Flatten(during[1..])
  }

  /** Newly submitted ids are fresh: none of them is still waiting to be checked. */
  ghost predicate Fresh(pending: seq<string>, during: seq<seq<string>>) {
    forall i, k :: 0 <= i < |during| && k in during[i] ==> k !in pending
  }

  /** What a pass may assume of its pending keys: listed once each, all
      registered, none resubmitted while the pass runs. */
  ghost predicate PassReady(r: Registry, pending: seq<string>, during: seq<seq<string>>) {
    && Valid(r)
    && |during| == |pending|
    && Distinct(pending)
    && (forall k :: k in pending ==> k in r.jobs)
    && Fresh(pending, during)
  }

  /** After the first check of a ready pass, the rest of the pass is ready. */
  lemma {:induction false} StepKeepsReady<C>(v: Variant, bus: Bus<C>, r: Registry, pending: seq<string>,
                                             during: seq<seq<string>>, status: string -> Result<Batch>,
                                             fails: (C, Value) -> bool)
    requires PassReady(r, pending, during) && pending != []
    ensures var arrived := TrackAll(r, during[0]);
            pending[0] in arrived.jobs &&
            PassReady(Check(v, bus, arrived, pending[0], status(pending[0]), fails).registry,
                      pending[1..], during[1..])
  {
    var arrived := TrackAll(r, during[0]);
    assert forall k :: k in pending ==> k in arrived.jobs.Keys;
    CheckKeepsOthers(v, bus, arrived, pending[0], status(pending[0]), fails);
    var c := Check(v, bus, arrived, pending[0], status(pending[0]), fails);
    TailStillRegistered(pending, arrived.jobs.Keys, c.registry.jobs.Keys);
    DistinctTail(pending);
    FreshTail(pending, during);
  }

  /** A check on a registered job leaves every other job registered. */
  lemma CheckKeepsOthers<C>(v: Variant, bus: Bus<C>, r: Registry, batchId: string,
                            reply: Result<Batch>, fails: (C, Value) -> bool)
    requires Valid(r) && batchId in r.jobs
    ensures forall k :: k in r.jobs.Keys && k != batchId ==> k in Check(v, bus, r, batchId, reply, fails).registry.jobs.Keys
  {
    CheckRegistered(v, bus, r, batchId, reply, fails);
  }

  /** Keys that were all registered, and survive every removal but the first
      one's, are registered after it. */
  lemma TailStillRegistered(pending: seq<string>, before: set<string>, after: set<string>)
    requires Distinct(pending) && pending != []
    requires forall k :: k in pending ==> k in before
    requires forall k :: k in before && k != pending[0] ==> k in after
    ensures forall k :: k in pending[1..] ==> k in after
  {
    forall k | k in pending[1..]
      ensures k in after
    {
      var j :| 0 <= j < |pending[1..]| && pending[1..][j] == k;
      assert pending[j + 1] == k && pending[0] != k;
    }
  }

  /** Ids submitted during the rest of a pass are not among its pending keys. */
  lemma FreshTail(pending: seq<string>, during: seq<seq<string>>)
    requires Fresh(pending, during) && |during| == |pending| && pending != []
    ensures Fresh(pending[1..], during[1..])
  {
    forall i, k | 0 <= i < |during[1..]| && k in during[1..][i]
      ensures k !in pending[1..]
    {
      assert during[1..][i] == during[i + 1];
      assert k !in pending;
    }
  }

  /** The exceptions a pass catches: the first check's, then the rest's. */
  lemma PassFailuresStep<C>(v: Variant, bus: Bus<C>, r: Registry, pending: seq<string>,
                            during: seq<seq<string>>, status: string -> Result<Batch>,
                            fails: (C, Value) -> bool)
    requires Valid(r) && |during| == |pending| && pending != []
    ensures var c := Check(v, bus, TrackAll(r, during[0]), pending[0], status(pending[0]), fails);
      PassOver(v, bus, r, pending, during, status, fails).failures
      == (if c.error.Some? then [Failure(pending[0], c.error.value)] else [])
         + PassOver(v, bus, c.registry, pending[1..], during[1..], status, fails).failures
  {
  }

  /** Every exception a pass catches belongs to a checked key and comes from
      its status call or a subscriber. */
  lemma {:induction false} PassFailuresExplained<C>(v: Variant, bus: Bus<C>, r: Registry, pending: seq<string>,
                                                    during: seq<seq<string>>, status: string -> Result<Batch>,
                                                    fails: (C, Value) -> bool)
    requires PassReady(r, pending, during)
    ensures forall f :: f in PassOver(v, bus, r, pending, during, status, fails).failures ==>
              f.batchId in pending && CheckError(status(f.batchId), f.error)
    decreases |pending|
  {
    if pending != [] {
      var arrived := TrackAll(r, during[0]);
      StepKeepsReady(v, bus, r, pending, during, status, fails);
      CheckErrorRegistered(v, bus, arrived, pending[0], status(pending[0]), fails);
      var c := Check(v, bus, arrived, pending[0], status(pending[0]), fails);
      PassFailuresExplained(v, bus, c.registry, pending[1..], during[1..], status, fails);
      PassFailuresStep(v, bus, r, pending, during, status, fails);
      var caught: seq<Failure> := if c.error.Some? then [Failure(pending[0], c.error.value)] else [];
      var rest := PassOver(v, bus, c.registry, pending[1..], during[1..], status, fails).failures;
      forall f: Failure | f in caught + rest
        ensures f.batchId in pending && CheckError(status(f.batchId), f.error)
      {
        if f in rest {
          assert f.batchId in pending[1..];
        }
      }
    }
  }

  /** Every failing status call of a pass is caught and reported for its key. */
  lemma {:induction false} PassReportsStatusErrors<C>(v: Variant, bus: Bus<C>, r: Registry, pending: seq<string>,
                                                      during: seq<seq<string>>, status: string -> Result<Batch>,
                                                      fails: (C, Value) -> bool)
    requires PassReady(r, pending, during)
    ensures forall k :: k in pending && status(k).Err? ==>
              Failure(k, status(k).error) in PassOver(v, bus, r, pending, during, status, fails).failures
    decreases |pending|
  {
    if pending != [] {
      var arrived := TrackAll(r, during[0]);
      StepKeepsReady(v, bus, r, pending, during, status, fails);
      CheckErrorRegistered(v, bus, arrived, pending[0], status(pending[0]), fails);
      var c := Check(v, bus, arrived, pending[0], status(pending[0]), fails);
      PassReportsStatusErrors(v, bus, c.registry, pending[1..], during[1..], status, fails);
      forall k | k in pending[1..]
        ensures k in pending
      {
      }
    }
  }

  /** The exceptions a pass catches are exactly those of the status call and
      of subscribers: every checked key is still registered when its check
      deletes it, so `del` never raises. A failing status call is reported for
      its key and the pass goes on. */
  lemma PassFailures<C>(v: Variant, bus: Bus<C>, r: Registry, pending: seq<string>,
                        during: seq<seq<string>>, status: string -> Result<Batch>,
                        fails: (C, Value) -> bool)
    requires PassReady(r, pending, during)
    ensures var p := PassOver(v, bus, r, pending, during, status, fails);
      && (forall f :: f in p.failures ==> f.batchId in pending && CheckError(status(f.batchId), f.error))
      && (forall k :: k in pending && status(k).Err? ==> Failure(k, status(k).error) in p.failures)
  {
    PassFailuresExplained(v, bus, r, pending, during, status, fails);
    PassReportsStatusErrors(v, bus, r, pending, during, status, fails);
  }

  /** Every event a check publishes names the job it is about. */
  lemma EventNamesItsJob(v: Variant, batchId: string, reply: Batch)
    ensures Subscript(EventFor(v, batchId, reply).data, "batch_id") == Ok(Str(batchId))
  {
  }

  /** The reference list of events: one per key whose reply publishes, in key order. */
  function ExpectedEvents(v: Variant, keys: seq<string>, status: string -> Result<Batch>): seq<Core.Event>
    decreases |keys|
  {
    if keys == [] then []
    else
      (if Publishes(v, status(keys[0])) then [EventFor(v, keys[0], status(keys[0]).value)] else [])
      + ExpectedEvents(v, keys[1..], status)
  }

  /** A pass publishes exactly the reference events: one per snapshot key
      whose reply publishes, in snapshot order, whatever the subscribers do. */
  lemma {:induction false} PassPublishes<C>(v: Variant, bus: Bus<C>, r: Registry, pending: seq<string>,
                                            during: seq<seq<string>>, status: string -> Result<Batch>,
                                            fails: (C, Value) -> bool)
    requires PassReady(r, pending, during)
    ensures PassOver(v, bus, r, pending, during, status, fails).published == ExpectedEvents(v, pending, status)
    decreases |pending|
  {
    if pending != [] {
      var arrived := TrackAll(r, during[0]);
      StepKeepsReady(v, bus, r, pending, during, status, fails);
      CheckRegistered(v, bus, arrived, pending[0], status(pending[0]), fails);
      var c := Check(v, bus, arrived, pending[0], status(pending[0]), fails);
      PassPublishes(v, bus, c.registry, pending[1..], during[1..], status, fails);
    }
  }

  /** After a pass the registry holds the jobs it held before except the
      snapshot keys whose reply removes them, plus every job submitted during
      the pass. Surviving jobs keep their records. */
  lemma {:induction false} PassRegistry<C>(v: Variant, bus: Bus<C>, r: Registry, pending: seq<string>,
                                           during: seq<seq<string>>, status: string -> Result<Batch>,
                                           fails: (C, Value) -> bool)
    requires PassReady(r, pending, during)
    ensures var p := PassOver(v, bus, r, pending, during, status, fails);
      && Valid(p.registry)
      && (forall k :: k in p.registry.jobs <==>
            (k in r.jobs && !(k in pending && Removes(v, status(k)))) || k in Flatten(during))
      && (forall k :: k in p.registry.jobs && k in r.jobs && k !in Flatten(during) ==>
            p.registry.jobs[k] == r.jobs[k])
    decreases |pending|
  {
    if pending != [] {
      var arrived := TrackAll(r, during[0]);
      StepKeepsReady(v, bus, r, pending, during, status, fails);
      CheckRegistered(v, bus, arrived, pending[0], status(pending[0]), fails);
      var c := Check(v, bus, arrived, pending[0], status(pending[0]), fails);
      PassRegistry(v, bus, c.registry, pending[1..], during[1..], status, fails);
      assert Flatten(during) == during[0] + Flatten(during[1..]);
    }
  }

  /** No ids submitted while a pass runs. */
  function Quiet(n: nat): (during: seq<seq<string>>)
    ensures |during| == n
    ensures forall i :: 0 <= i < n ==> during[i] == []
  {
    seq(n, _ => [])
  }

  lemma {:induction false} FlattenQuiet(n: nat)
    ensures Flatten(Quiet(n)) == []
  {
    if n > 0 {
      assert Quiet(n)[1..] == Quiet(n - 1);
      FlattenQuiet(n - 1);
    }
  }

  /** With no concurrent submissions, a job survives a pass exactly when its
      reply does not remove it; the async core keeps it on a resume status, an
      unknown status or a failing status call. */
  lemma QuietPassRegistry<C>(v: Variant, bus: Bus<C>, r: Registry,
                             status: string -> Result<Batch>, fails: (C, Value) -> bool)
    requires Valid(r)
    ensures var p := MonitorPass(v, bus, r, Quiet(|r.order|), status, fails);
      && (forall k :: k in p.registry.jobs <==> k in r.jobs && !Removes(v, status(k)))
      && p.published == ExpectedEvents(v, r.order, status)
  {
    var q := Quiet(|r.order|);
    FlattenQuiet(|r.order|);
    assert Fresh(r.order, q);
    PassRegistry(v, bus, r, r.order, q, status, fails);
    PassPublishes(v, bus, r, r.order, q, status, fails);
  }

  /** A check that deletes a registered job cuts it out of the key order;
      any other check leaves the order as it was. */
  lemma CheckKeepsOrder<C>(v: Variant, bus: Bus<C>, r: Registry, batchId: string,
                           reply: Result<Batch>, fails: (C, Value) -> bool)
    requires Valid(r) && batchId in r.jobs
    ensures Check(v, bus, r, batchId, reply, fails).registry.order
            == if Removes(v, reply) then Without(r.order, batchId) else r.order
  {
  }

  /** The reference order after a pass: the keys whose reply does not remove
      them, in their order. */
  function Survivors(v: Variant, keys: seq<string>, status: string -> Result<Batch>): seq<string>
    decreases |keys|
  {
    if keys == [] then []
    else (if Removes(v, status(keys[0])) then [] else [keys[0]]) + Survivors(v, keys[1..], status)
  }

  /** The first check of a quiet pass runs on the registry as it stands. */
  lemma QuietPassStep<C>(v: Variant, bus: Bus<C>, r: Registry, pending: seq<string>,
                         status: string -> Result<Batch>, fails: (C, Value) -> bool)
    requires Valid(r) && pending != []
    ensures var c := Check(v, bus, r, pending[0], status(pending[0]), fails);
      PassOver(v, bus, r, pending, Quiet(|pending|), status, fails).registry
      == PassOver(v, bus, c.registry, pending[1..], Quiet(|pending| - 1), status, fails).registry
  {
    var q := Quiet(|pending|);
    assert q[0] == [] && q[1..] == Quiet(|pending| - 1);
    assert TrackAll(r, q[0]) == r;
  }

  /** Checking the key after the ones already passed: a removal cuts it out,
      anything else moves it to the passed ones. */
  lemma CheckOrderStep<C>(v: Variant, bus: Bus<C>, r: Registry, kept: seq<string>, pending: seq<string>,
                          status: string -> Result<Batch>, fails: (C, Value) -> bool)
    requires Valid(r) && r.order == kept + pending && pending != []
    ensures Valid(Check(v, bus, r, pending[0], status(pending[0]), fails).registry)
    ensures Check(v, bus, r, pending[0], status(pending[0]), fails).registry.order
            == (if Removes(v, status(pending[0])) then kept else kept + [pending[0]]) + pending[1..]
  {
    var k := pending[0];
    SplitAfter(kept, pending);
    CheckKeepsOrder(v, bus, r, k, status(k), fails);
    if Removes(v, status(k)) {
      WithoutAt(r.order, |kept|);
    }
  }

  /** The key order seen at the first pending key: the passed keys, that
      key, then the rest. */
  lemma SplitAfter(kept: seq<string>, pending: seq<string>)
    requires pending != []
    ensures var s := kept + pending;
      && |kept| < |s| && s[|kept|] == pending[0]
      && s[..|kept|] == kept && s[|kept| + 1..] == pending[1..]
      && s == (kept + [pending[0]]) + pending[1..]
  {
    var s := kept + pending;
    assert s[..|kept|] == kept;
    assert s[|kept| + 1..] == pending[1..];
    assert s == (kept + [pending[0]]) + pending[1..];
  }

  /** Passing the first pending key moves it to the passed ones unless its
      reply removes it. */
  lemma SurvivorsStep(v: Variant, kept: seq<string>, pending: seq<string>, status: string -> Result<Batch>)
    requires pending != []
    ensures (if Removes(v, status(pending[0])) then kept else kept + [pending[0]]) + Survivors(v, pending[1..], status)
            == kept + Survivors(v, pending, status)
  {
    var k := pending[0];
    var removed := Removes(v, status(k));
    var rest := Survivors(v, pending[1..], status);
    assert Survivors(v, pending, status) == (if removed then [] else [k]) + rest;
    MoveOrDrop(kept, k, rest, removed);
  }

  /** Moving a key to the passed ones, or dropping it, before the rest. */
  lemma MoveOrDrop(kept: seq<string>, k: string, rest: seq<string>, removed: bool)
    ensures (if removed then kept else kept + [k]) + rest == kept + ((if removed then [] else [k]) + rest)
  {
    if removed {
      assert [] + rest == rest;
    } else {
      assert (kept + [k]) + rest == kept + ([k] + rest);
    }
  }

  /** The rest of a quiet pass over the tail of the key order: the keys
      already passed stay in front, and the pending ones that survive follow
      in their order. */
  lemma {:induction false} PassKeepsOrder<C>(v: Variant, bus: Bus<C>, r: Registry, kept: seq<string>,
                                             pending: seq<string>, status: string -> Result<Batch>,
                                             fails: (C, Value) -> bool)
    requires Valid(r) && r.order == kept + pending
    ensures PassOver(v, bus, r, pending, Quiet(|pending|), status, fails).registry.order
            == kept + Survivors(v, pending, status)
    decreases |pending|
  {
    if pending == [] {
      assert kept + [] == kept;
    } else {
      var k := pending[0];
      QuietPassStep(v, bus, r, pending, status, fails);
      CheckOrderStep(v, bus, r, kept, pending, status, fails);
      var c := Check(v, bus, r, k, status(k), fails);
      var kept' := if Removes(v, status(k)) then kept else kept + [k];
      PassKeepsOrder(v, bus, c.registry, kept', pending[1..], status, fails);
      SurvivorsStep(v, kept, pending, status);
      assert Quiet(|pending[1..]|) == Quiet(|pending| - 1);
    }
  }

  /** `del` keeps insertion order, so after a quiet pass the next pass visits
      the surviving jobs in the order this one did. */
  lemma QuietPassOrder<C>(v: Variant, bus: Bus<C>, r: Registry,
                          status: string -> Result<Batch>, fails: (C, Value) -> bool)
    requires Valid(r)
    ensures MonitorPass(v, bus, r, Quiet(|r.order|), status, fails).registry.order == Survivors(v, r.order, status)
  {
    PassKeepsOrder(v, bus, r, [], r.order, status, fails);
    assert [] + r.order == r.order;
  }

  /** One check on a bus with nobody subscribed to the published name: no
      callback runs, and the only exceptions are the status call's and the
      KeyError of a job that is gone. */
  lemma CheckWithoutSubscribers<C>(v: Variant, bus: Bus<C>, r: Registry, batchId: string,
                                   reply: Result<Batch>, fails: (C, Value) -> bool)
    requires Valid(r)
    requires Core.ProcessingCompleted !in bus.events && Legacy.BatchCompleted !in bus.events
    ensures var c := Check(v, bus, r, batchId, reply, fails);
      && c.invoked == []
      && (c.error.Some? ==> reply.Err? || c.error.value.KeyError?)
  {
  }

  /** A bus with nobody subscribed to the published name: the pass still
      deletes and publishes, but no callback runs and none can raise. */
  lemma {:induction false} PassWithoutSubscribers<C>(v: Variant, bus: Bus<C>, r: Registry, pending: seq<string>,
                                                     during: seq<seq<string>>, status: string -> Result<Batch>,
                                                     fails: (C, Value) -> bool)
    requires Valid(r) && |during| == |pending|
    requires Core.ProcessingCompleted !in bus.events && Legacy.BatchCompleted !in bus.events
    ensures var p := PassOver(v, bus, r, pending, during, status, fails);
      && p.invoked == []
      && forall f :: f in p.failures ==> status(f.batchId).Err? || f.error.KeyError?
    decreases |pending|
  {
    if pending != [] {
      var arrived := TrackAll(r, during[0]);
      CheckWithoutSubscribers(v, bus, arrived, pending[0], status(pending[0]), fails);
      var c := Check(v, bus, arrived, pending[0], status(pending[0]), fails);
      PassWithoutSubscribers(v, bus, c.registry, pending[1..], during[1..], status, fails);
    }
  }

  /** One loop iteration's environment: the status oracle for its pass, the
      ids submitted while it sleeps, and whether shutdown was requested
      meanwhile. */
  datatype Round = Round(status: string -> Result<Batch>, submitted: seq<string>, shutdownRequested: bool)

  datatype LoopResult = LoopResult(registry: Registry, passes: nat, published: seq<Core.Event>, aborted: bool)

  /** `monitor_batches` as a loop over rounds. The async loop tests the
      aborted flag at the top, so a request made during a pass lets that pass
      finish and prevents the next; the threaded loop has no condition. */
  function MonitorLoop<C>(v: Variant, bus: Bus<C>, r: Registry, aborted: bool, rounds: seq<Round>,
                          fails: (C, Value) -> bool): (res: LoopResult)
    requires Valid(r)
    ensures res.passes <= |rounds|
    decreases |rounds|
  {
    if (v == Async && aborted) || rounds == [] then LoopResult(r, 0, [], aborted)
    else
      var p := MonitorPass(v, bus, r, Quiet(|r.order|), rounds[0].status, fails);
      var flag := if rounds[0].shutdownRequested then Core.Shutdown(aborted) else aborted;
      var rest := MonitorLoop(v, bus, TrackAll(p.registry, rounds[0].submitted), flag, rounds[1..], fails);
      LoopResult(rest.registry, rest.passes + 1, p.published + rest.published, rest.aborted)
  }

  /** A round the loop enters runs one pass, then the loop goes on from the
      registry after that pass and the round's submissions, with the flag as
      the round left it. */
  lemma LoopStep<C>(v: Variant, bus: Bus<C>, r: Registry, aborted: bool, rounds: seq<Round>,
                    fails: (C, Value) -> bool)
    requires Valid(r) && !(v == Async && aborted) && rounds != []
    ensures var p := MonitorPass(v, bus, r, Quiet(|r.order|), rounds[0].status, fails);
      var flag := if rounds[0].shutdownRequested then Core.Shutdown(aborted) else aborted;
      var rest := MonitorLoop(v, bus, TrackAll(p.registry, rounds[0].submitted), flag, rounds[1..], fails);
      var res := MonitorLoop(v, bus, r, aborted, rounds, fails);
      && res.registry == rest.registry
      && res.passes == rest.passes + 1
      && res.published == p.published + rest.published
      && res.aborted == rest.aborted
  {
  }

  /** The index of the first round that requests shutdown, or the number of
      rounds when none does. */
  function FirstShutdown(rounds: seq<Round>): (f: nat)
    ensures f <= |rounds|
    ensures forall i :: 0 <= i < f ==> !rounds[i].shutdownRequested
    ensures f < |rounds| ==> rounds[f].shutdownRequested
  {
    if rounds == [] then 0
    else if rounds[0].shutdownRequested then 0
    else 1 + FirstShutdown(rounds[1..])
  }

  /** The async loop runs passes until the round in which shutdown is first
      requested, that round's pass included, and never starts one after it;
      with the flag already set it runs none. It ends with the flag set
      exactly when it started so or some round requested shutdown. */
  lemma {:induction false} AsyncLoopStops<C>(bus: Bus<C>, r: Registry, aborted: bool, rounds: seq<Round>,
                                             fails: (C, Value) -> bool)
    requires Valid(r)
    ensures var res := MonitorLoop(Async, bus, r, aborted, rounds, fails);
      && res.passes == (if aborted then 0
                        else if FirstShutdown(rounds) < |rounds| then FirstShutdown(rounds) + 1
                        else |rounds|)
      && res.aborted == (aborted || FirstShutdown(rounds) < |rounds|)
    decreases |rounds|
  {
    if !aborted && rounds != [] {
      var p := MonitorPass(Async, bus, r, Quiet(|r.order|), rounds[0].status, fails);
      var flag := if rounds[0].shutdownRequested then Core.Shutdown(aborted) else aborted;
      var r2 := TrackAll(p.registry, rounds[0].submitted);
      AsyncLoopStops(bus, r2, flag, rounds[1..], fails);
      LoopStep(Async, bus, r, aborted, rounds, fails);
      assert flag == rounds[0].shutdownRequested;
    }
  }

  /** The threaded loop never stops: it runs one pass per round, whatever the flag. */
  lemma {:induction false} ThreadedLoopNeverStops<C>(bus: Bus<C>, r: Registry, aborted: bool, rounds: seq<Round>,
                                                     fails: (C, Value) -> bool)
    requires Valid(r)
    ensures MonitorLoop(Threaded, bus, r, aborted, rounds, fails).passes == |rounds|
    decreases |rounds|
  {
    if rounds != [] {
      var p := MonitorPass(Threaded, bus, r, Quiet(|r.order|), rounds[0].status, fails);
      var flag := if rounds[0].shutdownRequested then Core.Shutdown(aborted) else aborted;
      ThreadedLoopNeverStops(bus, TrackAll(p.registry, rounds[0].submitted), flag, rounds[1..], fails);
    }
  }

  /** Every round reports the job as completed. */
  ghost predicate AlwaysCompleted(rounds: seq<Round>, batchId: string) {
    forall i :: 0 <= i < |rounds| ==> rounds[i].status(batchId).Ok? && rounds[i].status(batchId).value.status == "completed"
  }

  lemma AlwaysCompletedTail(rounds: seq<Round>, batchId: string)
    requires AlwaysCompleted(rounds, batchId) && rounds != []
    ensures AlwaysCompleted(rounds[1..], batchId)
  {
    forall i | 0 <= i < |rounds[1..]|
      ensures rounds[1..][i].status(batchId).Ok? && rounds[1..][i].status(batchId).value.status == "completed"
    {
      assert rounds[1..][i] == rounds[i + 1];
    }
  }

  /** The events about one batch id. */
  function CountAbout(events: seq<Core.Event>, batchId: string): nat {
    if events == [] then 0
    else (if Subscript(events[0].data, "batch_id") == Ok(Str(batchId)) then 1 else 0)
         + CountAbout(events[1..], batchId)
  }

  lemma {:induction false} CountAboutAppend(a: seq<Core.Event>, b: seq<Core.Event>, batchId: string)
    ensures CountAbout(a + b, batchId) == CountAbout(a, batchId) + CountAbout(b, batchId)
    decreases |a|
  {
    if a == [] {
      assert a + b == b;
    } else {
      assert (a + b)[0] == a[0];
      assert (a + b)[1..] == a[1..] + b;
      CountAboutAppend(a[1..], b, batchId);
    }
  }

  /** In the reference events of distinct keys, the event about one key comes
      from that key alone. */
  lemma {:induction false} ExpectedCountAbout(v: Variant, keys: seq<string>, status: string -> Result<Batch>, batchId: string)
    requires Distinct(keys)
    ensures CountAbout(ExpectedEvents(v, keys, status), batchId)
            == if batchId in keys && Publishes(v, status(batchId)) then 1 else 0
    decreases |keys|
  {
    if keys != [] {
      var head := if Publishes(v, status(keys[0])) then [EventFor(v, keys[0], status(keys[0]).value)] else [];
      assert ExpectedEvents(v, keys, status) == head + ExpectedEvents(v, keys[1..], status);
      CountAboutAppend(head, ExpectedEvents(v, keys[1..], status), batchId);
      DistinctTail(keys);
      ExpectedCountAbout(v, keys[1..], status, batchId);
      if head != [] {
        EventNamesItsJob(v, keys[0], status(keys[0]).value);
        assert head[1..] == [];
      }
    }
  }

  /** One round of the threaded loop on a job reported completed: the job is
      still registered afterwards and the pass published one event about it. */
  lemma ThreadedRoundKeepsCompleted<C>(bus: Bus<C>, r: Registry, round: Round, batchId: string,
                                       fails: (C, Value) -> bool)
    requires Valid(r) && batchId in r.jobs
    requires round.status(batchId).Ok? && round.status(batchId).value.status == "completed"
    ensures var p := MonitorPass(Threaded, bus, r, Quiet(|r.order|), round.status, fails);
      && batchId in TrackAll(p.registry, round.submitted).jobs
      && CountAbout(p.published, batchId) == 1
  {
    QuietPassRegistry(Threaded, bus, r, round.status, fails);
    ExpectedCountAbout(Threaded, r.order, round.status, batchId);
  }

  /** The threaded version never forgets a completed job: if every round
      reports it completed, it stays registered and the loop publishes one
      "batch_completed" event about it per pass. */
  lemma {:induction false} CompletedJobRepublished<C>(bus: Bus<C>, r: Registry, aborted: bool, rounds: seq<Round>,
                                                      batchId: string, fails: (C, Value) -> bool)
    requires Valid(r) && batchId in r.jobs
    requires AlwaysCompleted(rounds, batchId)
    ensures var res := MonitorLoop(Threaded, bus, r, aborted, rounds, fails);
      && batchId in res.registry.jobs
      && CountAbout(res.published, batchId) == |rounds|
    decreases |rounds|
  {
    if rounds != [] {
      var p := MonitorPass(Threaded, bus, r, Quiet(|r.order|), rounds[0].status, fails);
      ThreadedRoundKeepsCompleted(bus, r, rounds[0], batchId, fails);
      var flag := if rounds[0].shutdownRequested then Core.Shutdown(aborted) else aborted;
      var r2 := TrackAll(p.registry, rounds[0].submitted);
      AlwaysCompletedTail(rounds, batchId);
      CompletedJobRepublished(bus, r2, flag, rounds[1..], batchId, fails);
      LoopStep(Threaded, bus, r, aborted, rounds, fails);
      var rest := MonitorLoop(Threaded, bus, r2, flag, rounds[1..], fails);
      CountAboutAppend(p.published, rest.published, batchId);
    }
  }

  /** The async core's bookkeeping: the bus it publishes on, the registry it
      shares with the submit closure, and the closure. */
  datatype Monitoring<C> = Monitoring(bus: Bus<C>, registry: Registry, submitter: Submitter)

  /** `init_monitoring(bus)`: a fresh registry, the monitor started on it, and
      the submit closure bound to it with the default description. The bus is
      used as given; nothing is subscribed. */
  function InitMonitoring<C>(bus: Bus<C>): (m: Monitoring<C>)
    ensures m.bus == bus
    ensures Valid(m.registry) && forall k :: k !in m.registry.jobs
    ensures m.submitter.description == "batch prompts job"
  {
    Monitoring(bus, Empty(), GenSubmitBatchJob())
  }
}
