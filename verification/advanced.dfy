/** The relay layer (`openai_batch_sdk/advanced.py`). `init_monitoring_l2`
    subscribes a relay to "batch_processing_completed" on the application's
    bus and starts the core monitor on a second, fresh bus. The relay reads
    the event, fetches the result file or formats the error list, and
    publishes the same event again on the application's bus. Subscribing the
    relay schedules a task per event; a task is modelled as the event it
    will handle. */
module Advanced {
  import opened Py
  import opened EventBus
  import opened Jobs
  import Core
  import Monitor

  /** Subscribers on the application's bus: the relay, or any callback of
      the application. An application callback may raise; the tasks it might
      schedule are not modelled. */
  datatype AppSubscriber = Relay | External(tag: string)

  /** Only application callbacks can raise; the relay's callback just
      schedules a task. */
  function AppFails(external: (string, Value) -> bool): (AppSubscriber, Value) -> bool {
    (s: AppSubscriber, v: Value) => s.External? && external(s.tag, v)
  }

  /** `[f"{error.code}: {error.message}" for error in errors]`. */
  function FormatErrors(items: seq<Value>): (r: Result<seq<string>>)
    ensures r.Ok? <==> forall i :: 0 <= i < |items| ==> items[i].ErrorObject?
    ensures r.Ok? ==> |r.value| == |items|
    ensures r.Ok? ==> forall i :: 0 <= i < |items| ==> r.value[i] == items[i].code + ": " + items[i].message
    ensures r.Err? ==> r.error == AttributeError("code")
    decreases |items|
  {
    if items == [] then Ok([])
    else
      var parts :- ErrorParts(items[0]);
      var rest :- FormatErrors(items[1..]);
      Ok([parts.0 + ": " + parts.1] + rest)
  }

  /** What the relay did: the formatted errors (failure branch only) and the
      delivery of the event it published again. */
  datatype Relayed = Relayed(formattedErrors: Option<seq<string>>, delivery: Delivery<AppSubscriber, Value>)

  /** The "response_ready" branch: read `response["result_file_id"]`, fetch
      that file, and publish the event again. */
  function RelayReady(event: Value, bus: Bus<AppSubscriber>, retrieve: Value -> Result<seq<string>>,
                      external: (string, Value) -> bool): (r: Result<Relayed>)
    ensures r.Ok? <==>
      && Subscript(event, "response").Ok?
      && Subscript(Subscript(event, "response").value, "result_file_id").Ok?
      && retrieve(Subscript(Subscript(event, "response").value, "result_file_id").value).Ok?
    ensures r.Ok? ==> r.value == Relayed(None, Trigger(bus, Core.ProcessingCompleted, event, AppFails(external)))
  {
    var response :- Subscript(event, "response");
    var fileId :- Subscript(response, "result_file_id");
    var _ :- retrieve(fileId);
    Ok(Relayed(None, Trigger(bus, Core.ProcessingCompleted, event, AppFails(external))))
  }

  /** The other branch: read the counts, format the error list, and publish
      the event again. Any read or attribute that fails raises before the
      event is published. */
  function RelayFailure(event: Value, bus: Bus<AppSubscriber>, external: (string, Value) -> bool): (r: Result<Relayed>)
    ensures r.Ok? <==>
      && Subscript(event, "completed").Ok?
      && Subscript(event, "failed").Ok?
      && Subscript(event, "errors").Ok?
      && Iterate(Subscript(event, "errors").value).Ok?
      && FormatErrors(Iterate(Subscript(event, "errors").value).value).Ok?
    ensures r.Ok? ==>
      r.value == Relayed(Some(FormatErrors(Iterate(Subscript(event, "errors").value).value).value),
                         Trigger(bus, Core.ProcessingCompleted, event, AppFails(external)))
    ensures Subscript(event, "completed").Err? ==> r == Err(Subscript(event, "completed").error)
    ensures Subscript(event, "completed").Ok? && Subscript(event, "failed").Err? ==>
              r == Err(Subscript(event, "failed").error)
    ensures Subscript(event, "completed").Ok? && Subscript(event, "failed").Ok?
            && Subscript(event, "errors").Err? ==>
              r == Err(Subscript(event, "errors").error)
    ensures Subscript(event, "completed").Ok? && Subscript(event, "failed").Ok?
            && Subscript(event, "errors").Ok? && Iterate(Subscript(event, "errors").value).Err? ==>
              r == Err(Iterate(Subscript(event, "errors").value).error)
    ensures Subscript(event, "completed").Ok? && Subscript(event, "failed").Ok?
            && Subscript(event, "errors").Ok? && Iterate(Subscript(event, "errors").value).Ok?
            && FormatErrors(Iterate(Subscript(event, "errors").value).value).Err? ==>
              r == Err(AttributeError("code"))
  {
    var _ :- Subscript(event, "completed");
    var _ :- Subscript(event, "failed");
    var errs :- Subscript(event, "errors");
    var items :- Iterate(errs);
    var formatted :- FormatErrors(items);
    Ok(Relayed(Some(formatted), Trigger(bus, Core.ProcessingCompleted, event, AppFails(external))))
  }

  /** `retrieve_batches_results_handler_l2(event, bus)`. `retrieve` stands for
      fetching a result file and splitting its text into lines; the lines are
      only logged. Either branch ends by publishing the event unchanged under
      "batch_processing_completed" on `bus`, once. */
  function RetrieveBatchesResultsHandlerL2(event: Value, bus: Bus<AppSubscriber>,
                                           retrieve: Value -> Result<seq<string>>,
                                           external: (string, Value) -> bool): (r: Result<Relayed>)
    ensures r.Ok? ==> r.value.delivery == Trigger(bus, Core.ProcessingCompleted, event, AppFails(external))
    ensures r.Ok? ==> Subscript(event, "batch_id").Ok? && Subscript(event, "status").Ok?
    ensures r.Ok? ==> (r.value.formattedErrors.None? <==> Subscript(event, "status") == Ok(Str("response_ready")))
    ensures Subscript(event, "batch_id").Ok? && Subscript(event, "status") == Ok(Str("response_ready")) ==>
              r == RelayReady(event, bus, retrieve, external)
    ensures Subscript(event, "batch_id").Ok? && Subscript(event, "status").Ok?
            && Subscript(event, "status") != Ok(Str("response_ready")) ==>
              r == RelayFailure(event, bus, external)
  {
    var _ :- Subscript(event, "batch_id");
    var status :- Subscript(event, "status");
    if status == Str("response_ready") then RelayReady(event, bus, retrieve, external)
    else RelayFailure(event, bus, external)
  }

  /** A failure event in the shape the relay reads: a status, the batch id,
      the two counts and the error list, all at the top level. */
  function RelayFailureEvent(batchId: string, status: string, completed: int, failed: int,
                             errors: seq<Value>): (v: Value)
    ensures Subscript(v, "status") == Ok(Str(status))
    ensures Subscript(v, "batch_id") == Ok(Str(batchId))
    ensures Subscript(v, "completed") == Ok(Int(completed))
    ensures Subscript(v, "failed") == Ok(Int(failed))
    ensures Subscript(v, "errors") == Ok(List(errors))
  {
    var fields := [Field("status", Str(status)),
                   Field("batch_id", Str(batchId)),
                   Field("completed", Int(completed)),
                   Field("failed", Int(failed)),
                   Field("errors", List(errors))];
    SubscriptLiteral(fields, 0);
    SubscriptLiteral(fields, 1);
    SubscriptLiteral(fields, 2);
    SubscriptLiteral(fields, 3);
    SubscriptLiteral(fields, 4);
    Dict(fields)
  }

  /** On a failure event whose errors all carry a code and a message, the
      relay succeeds: it formats every error, in order, and publishes the
      event unchanged. */
  lemma RelayFormatsFailureEvent(batchId: string, status: string, completed: int, failed: int,
                                 errors: seq<Value>, bus: Bus<AppSubscriber>,
                                 retrieve: Value -> Result<seq<string>>, external: (string, Value) -> bool)
    requires status != "response_ready"
    requires forall i :: 0 <= i < |errors| ==> errors[i].ErrorObject?
    ensures var event := RelayFailureEvent(batchId, status, completed, failed, errors);
            var r := RetrieveBatchesResultsHandlerL2(event, bus, retrieve, external);
      && r.Ok?
      && r.value.formattedErrors.Some?
      && |r.value.formattedErrors.value| == |errors|
      && (forall i :: 0 <= i < |errors| ==>
            r.value.formattedErrors.value[i] == errors[i].code + ": " + errors[i].message)
      && r.value.delivery == Trigger(bus, Core.ProcessingCompleted, event, AppFails(external))
  {
    var event := RelayFailureEvent(batchId, status, completed, failed, errors);
    assert Subscript(event, "status") != Ok(Str("response_ready"));
    assert FormatErrors(errors).Ok?;
  }

  /** An event the core publishes always says "response_ready", so the relay
      never takes its failure branch on one; its response is the provider's
      batch object, which cannot be subscripted, so reading
      `response["result_file_id"]` raises TypeError. */
  lemma RelayOnCorePayload(batchId: string, reply: Batch, bus: Bus<AppSubscriber>,
                           retrieve: Value -> Result<seq<string>>, external: (string, Value) -> bool)
    ensures RetrieveBatchesResultsHandlerL2(Core.CorePayload(batchId, reply), bus, retrieve, external).Err?
    ensures RetrieveBatchesResultsHandlerL2(Core.CorePayload(batchId, reply), bus, retrieve, external).error.TypeError?
  {
  }

  /** The relay tasks a delivery schedules: one per relay callback it reached. */
  function RelayTasks(invoked: seq<Invocation<AppSubscriber, Value>>): (tasks: seq<Value>)
    ensures |tasks| <= |invoked|
    ensures forall i :: 0 <= i < |invoked| && invoked[i].callback == Relay ==> invoked[i].data in tasks
    ensures forall e :: e in tasks ==> Invocation(Relay, e) in invoked
  {
    if invoked == [] then []
    else
      (if invoked[0].callback == Relay then [invoked[0].data] else []) + RelayTasks(invoked[1..])
  }

  /** One invocation schedules one task if it reached the relay, none otherwise. */
  lemma RelayTasksOne(inv: Invocation<AppSubscriber, Value>)
    ensures RelayTasks([inv]) == if inv.callback == Relay then [inv.data] else []
  {
    assert [inv][1..] == [];
  }

  /** Tasks are scheduled in the order of the invocations: the tasks of two
      runs of invocations are those of the first, then those of the second. */
  lemma {:induction false} RelayTasksAppend(a: seq<Invocation<AppSubscriber, Value>>,
                                            b: seq<Invocation<AppSubscriber, Value>>)
    ensures RelayTasks(a + b) == RelayTasks(a) + RelayTasks(b)
    decreases |a|
  {
    if a == [] {
      assert a + b == b;
    } else {
      assert (a + b)[0] == a[0];
      assert (a + b)[1..] == a[1..] + b;
      RelayTasksAppend(a[1..], b);
    }
  }

  /** The two buses after `init_monitoring_l2`. */
  datatype Wiring = Wiring(app: Bus<AppSubscriber>, core: Monitor.Monitoring<AppSubscriber>)

  /** `init_monitoring_l2(app_bus)`: one relay subscription on the
      application's bus, and the core monitor started on a fresh bus. */
  function InitMonitoringL2(app: Bus<AppSubscriber>): (w: Wiring)
    ensures Subscribers(w.app, Core.ProcessingCompleted) == Subscribers(app, Core.ProcessingCompleted) + [Relay]
    ensures forall name :: name != Core.ProcessingCompleted ==> Subscribers(w.app, name) == Subscribers(app, name)
    ensures forall name :: name !in w.core.bus.events
    ensures Valid(w.core.registry) && forall k :: k !in w.core.registry.jobs
  {
    Wiring(Register(app, Core.ProcessingCompleted, Relay), Monitor.InitMonitoring(New()))
  }

  /** The core bus of the relay wiring has no subscriber, so a monitor pass
      over whatever the registry holds reaches no callback at all: the relay
      never hears of a core event. */
  lemma CoreEventsReachNoCallback(app: Bus<AppSubscriber>, r: Registry, during: seq<seq<string>>,
                                  status: string -> Result<Batch>, external: (string, Value) -> bool)
    requires Valid(r) && |during| == |r.order|
    ensures var w := InitMonitoringL2(app);
      Monitor.MonitorPass(Monitor.Async, w.core.bus, r, during, status, AppFails(external)).invoked == []
  {
    var w := InitMonitoringL2(app);
    Monitor.PassWithoutSubscribers(Monitor.Async, w.core.bus, r, r.order, during, status, AppFails(external));
  }

  /** The tasks handling one event schedules: those of the relay's
      republication when the handler's reads succeed, or the exception the
      handler raised reading the event. The republication is not guarded, so
      a subscriber that raises there makes the task end with that exception;
      the relay tasks created earlier in the same republication stay
      scheduled all the same. */
  function RelayOutcome(app: Bus<AppSubscriber>, event: Value, retrieve: Value -> Result<seq<string>>,
                        external: (string, Value) -> bool): (r: Result<seq<Value>>)
    ensures r.Ok? <==> RetrieveBatchesResultsHandlerL2(event, app, retrieve, external).Ok?
  {
    var relayed :- RetrieveBatchesResultsHandlerL2(event, app, retrieve, external);
    Ok(RelayTasks(relayed.delivery.invoked))
  }

  /** A subscriber that raises during the republication does not cancel
      the relay task created before it: when the relay sits at position `k`
      and no earlier subscriber raises, the event is scheduled again, whatever
      the subscribers after the relay do. */
  lemma RaiseKeepsEarlierRelayTask(app: Bus<AppSubscriber>, event: Value,
                                   retrieve: Value -> Result<seq<string>>,
                                   external: (string, Value) -> bool, k: nat)
    requires RetrieveBatchesResultsHandlerL2(event, app, retrieve, external).Ok?
    requires k < |Subscribers(app, Core.ProcessingCompleted)|
    requires Subscribers(app, Core.ProcessingCompleted)[k] == Relay
    requires forall i :: 0 <= i < k ==> !AppFails(external)(Subscribers(app, Core.ProcessingCompleted)[i], event)
    ensures RelayOutcome(app, event, retrieve, external).Ok?
    ensures event in RelayOutcome(app, event, retrieve, external).value
  {
    var subs := Subscribers(app, Core.ProcessingCompleted);
    var fails := AppFails(external);
    var d := RetrieveBatchesResultsHandlerL2(event, app, retrieve, external).value.delivery;
    assert d == Deliver(subs, event, fails);
    assert !fails(subs[k], event);
    assert k < |d.invoked| by {
      if d.raised.Some? {
        assert fails(subs[|d.invoked| - 1], event);
      }
    }
    assert d.invoked[k] == Invocation(Relay, event);
  }

  /** The relay first, then an application callback that raises on the
      event: the republication raises, and the relay task stays scheduled. */
  lemma RaiseAfterRelayStillSchedules(tag: string, event: Value, retrieve: Value -> Result<seq<string>>,
                                      external: (string, Value) -> bool)
    requires external(tag, event)
    requires RetrieveBatchesResultsHandlerL2(event, Register(InitMonitoringL2(New()).app, Core.ProcessingCompleted,
                                                             External(tag)), retrieve, external).Ok?
    ensures var app := Register(InitMonitoringL2(New()).app, Core.ProcessingCompleted, External(tag));
      && RetrieveBatchesResultsHandlerL2(event, app, retrieve, external).value.delivery.raised == Some(External(tag))
      && RelayOutcome(app, event, retrieve, external) == Ok([event])
  {
    RelayThenAppSubscribers(tag);
    RelayThenRaisingDelivery(tag, event, external);
  }

  /** The relay wiring on a fresh bus, then one application callback. */
  lemma RelayThenAppSubscribers(tag: string)
    ensures Subscribers(Register(InitMonitoringL2(New()).app, Core.ProcessingCompleted, External(tag)),
                        Core.ProcessingCompleted) == [Relay, External(tag)]
  {
    assert Subscribers(InitMonitoringL2(New()).app, Core.ProcessingCompleted) == [Relay];
  }

  /** Delivering to the relay and then to a callback that raises calls both,
      raises the callback's exception, and schedules one relay task. */
  lemma RelayThenRaisingDelivery(tag: string, event: Value, external: (string, Value) -> bool)
    requires external(tag, event)
    ensures var d := Deliver([Relay, External(tag)], event, AppFails(external));
      && d.invoked == [Invocation(Relay, event), Invocation(External(tag), event)]
      && d.raised == Some(External(tag))
      && RelayTasks(d.invoked) == [event]
  {
    var subs := [Relay, External(tag)];
    assert subs[1..] == [External(tag)];
    var d := Deliver(subs, event, AppFails(external));
    assert d.invoked == [Invocation(Relay, event), Invocation(External(tag), event)];
    RelayTasksAppend([Invocation(Relay, event)], [Invocation(External(tag), event)]);
    RelayTasksOne(Invocation(Relay, event));
    RelayTasksOne(Invocation(External(tag), event));
  }

  /** Run up to `steps` tasks from the queue, first in first out; each
      appends the tasks `handle` says it schedules. */
  function RunTasks(handle: Value -> Result<seq<Value>>, queue: seq<Value>, steps: nat): (q: seq<Value>)
    ensures (forall i :: 0 <= i < |queue| ==> handle(queue[i]).Err? || handle(queue[i]) == Ok([]))
            ==> q == queue[if steps < |queue| then steps else |queue|..]
    decreases steps
  {
    if steps == 0 || queue == [] then queue
    else
      match handle(queue[0])
      case Err(_) => RunTasks(handle, queue[1..], steps - 1)
      case Ok(tasks) => RunTasks(handle, queue[1..] + tasks, steps - 1)
  }

  /** The event loop's queue of relay tasks on the application's bus. */
  function RunRelayTasks(app: Bus<AppSubscriber>, queue: seq<Value>, steps: nat,
                         retrieve: Value -> Result<seq<string>>, external: (string, Value) -> bool): (q: seq<Value>)
    ensures Relay !in Subscribers(app, Core.ProcessingCompleted)
            ==> q == queue[if steps < |queue| then steps else |queue|..]
  {
    var handle := e => RelayOutcome(app, e, retrieve, external);
    assert Relay !in Subscribers(app, Core.ProcessingCompleted) ==>
             forall i :: 0 <= i < |queue| ==> handle(queue[i]).Err? || handle(queue[i]) == Ok([]) by {
      if Relay !in Subscribers(app, Core.ProcessingCompleted) {
        forall i | 0 <= i < |queue|
          ensures handle(queue[i]).Err? || handle(queue[i]) == Ok([])
        {
          RelayOutcomeWithoutRelay(app, queue[i], retrieve, external);
        }
      }
    }
    RunTasks(handle, queue, steps)
  }

  /** Without the relay among the subscribers, handling a relay task
      schedules no further task. */
  lemma RelayOutcomeWithoutRelay(app: Bus<AppSubscriber>, event: Value,
                                 retrieve: Value -> Result<seq<string>>, external: (string, Value) -> bool)
    requires Relay !in Subscribers(app, Core.ProcessingCompleted)
    ensures RelayOutcome(app, event, retrieve, external).Err? || RelayOutcome(app, event, retrieve, external) == Ok([])
  {
    var h := RetrieveBatchesResultsHandlerL2(event, app, retrieve, external);
    if h.Ok? {
      var invoked := h.value.delivery.invoked;
      assert forall i :: 0 <= i < |invoked| ==> invoked[i].callback != Relay;
      RelayTasksNone(invoked);
    }
  }

  /** Invocations that never reached the relay schedule no task. */
  lemma {:induction false} RelayTasksNone(invoked: seq<Invocation<AppSubscriber, Value>>)
    requires forall i :: 0 <= i < |invoked| ==> invoked[i].callback != Relay
    ensures RelayTasks(invoked) == []
    decreases |invoked|
  {
    if invoked != [] {
      RelayTasksNone(invoked[1..]);
    }
  }

  /** A task that schedules itself again, and only itself, keeps a queue
      of copies of it non-empty for ever. */
  lemma {:induction false} SelfSchedulingNeverDrains(handle: Value -> Result<seq<Value>>, event: Value,
                                                     queue: seq<Value>, steps: nat)
    requires handle(event).Ok? && event in handle(event).value
    requires forall i :: 0 <= i < |handle(event).value| ==> handle(event).value[i] == event
    requires queue != [] && forall i :: 0 <= i < |queue| ==> queue[i] == event
    ensures var q := RunTasks(handle, queue, steps);
      q != [] && forall i :: 0 <= i < |q| ==> q[i] == event
    decreases steps
  {
    if steps > 0 {
      var tasks := handle(event).value;
      var next := queue[1..] + tasks;
      assert RunTasks(handle, queue, steps) == RunTasks(handle, next, steps - 1);
      forall i | 0 <= i < |next|
        ensures next[i] == event
      {
        if i < |queue| - 1 {
          assert next[i] == queue[i + 1];
        } else {
          assert next[i] == tasks[i - (|queue| - 1)];
        }
      }
      SelfSchedulingNeverDrains(handle, event, next, steps - 1);
    }
  }

  /** A task that schedules exactly itself leaves the queue as it found it. */
  lemma {:induction false} SelfSchedulingFixedPoint(handle: Value -> Result<seq<Value>>, event: Value, steps: nat)
    requires handle(event) == Ok([event])
    ensures RunTasks(handle, [event], steps) == [event]
    decreases steps
  {
    if steps > 0 {
      assert [event][1..] + [event] == [event];
      SelfSchedulingFixedPoint(handle, event, steps - 1);
    }
  }

  /** The relay sits at position `k` of the subscribers of the name it
      republishes on, and no application callback before it raises on the
      event, so the delivery reaches it. */
  ghost predicate RelayReached(app: Bus<AppSubscriber>, event: Value, k: nat, external: (string, Value) -> bool) {
    && k < |Subscribers(app, Core.ProcessingCompleted)|
    && Subscribers(app, Core.ProcessingCompleted)[k] == Relay
    && forall j :: 0 <= j < k ==> !AppFails(external)(Subscribers(app, Core.ProcessingCompleted)[j], event)
  }

  /** Handling an accepted event whose republication reaches the relay
      schedules that event again, and schedules nothing else. */
  lemma RelayReschedules(app: Bus<AppSubscriber>, event: Value, k: nat,
                         retrieve: Value -> Result<seq<string>>, external: (string, Value) -> bool)
    requires RelayReached(app, event, k, external)
    requires RetrieveBatchesResultsHandlerL2(event, app, retrieve, external).Ok?
    ensures var tasks := RelayTasks(RetrieveBatchesResultsHandlerL2(event, app, retrieve, external).value.delivery.invoked);
      && event in tasks
      && forall i :: 0 <= i < |tasks| ==> tasks[i] == event
  {
    var cbs := Subscribers(app, Core.ProcessingCompleted);
    var d := RetrieveBatchesResultsHandlerL2(event, app, retrieve, external).value.delivery;
    assert d == Deliver(cbs, event, AppFails(external));
    assert k < |d.invoked|;
    assert d.invoked[k] == Invocation(Relay, event);
    var tasks := RelayTasks(d.invoked);
    forall i | 0 <= i < |tasks|
      ensures tasks[i] == event
    {
      assert Invocation(Relay, tasks[i]) in d.invoked;
    }
  }

  /** The relay listens to, and republishes on, the same name of the same
      bus. As long as each republication reaches it and it accepts the event,
      a queue of relay tasks holding that event only ever holds that event
      again, and never drains, whatever other application callbacks share the
      name. Only relay tasks are counted: an application callback may raise
      but schedules nothing here. */
  lemma RelayQueueNeverDrains(app: Bus<AppSubscriber>, event: Value, k: nat, queue: seq<Value>, steps: nat,
                              retrieve: Value -> Result<seq<string>>, external: (string, Value) -> bool)
    requires RelayReached(app, event, k, external)
    requires RetrieveBatchesResultsHandlerL2(event, app, retrieve, external).Ok?
    requires queue != [] && forall i :: 0 <= i < |queue| ==> queue[i] == event
    ensures var q := RunRelayTasks(app, queue, steps, retrieve, external);
      q != [] && forall i :: 0 <= i < |q| ==> q[i] == event
  {
    RelayReschedules(app, event, k, retrieve, external);
    SelfSchedulingNeverDrains(e => RelayOutcome(app, e, retrieve, external), event, queue, steps);
  }

  /** The driver's wiring: an application handler registered on a fresh bus,
      then `init_monitoring_l2`. The relay comes second, and the delivery
      reaches it exactly when the application handler does not raise. */
  lemma DriverWiringReachesRelay(tag: string, event: Value, external: (string, Value) -> bool)
    ensures var app := InitMonitoringL2(Register(New(), Core.ProcessingCompleted, External(tag))).app;
      && Subscribers(app, Core.ProcessingCompleted) == [External(tag), Relay]
      && (RelayReached(app, event, 1, external) <==> !external(tag, event))
  {
    var app := InitMonitoringL2(Register(New(), Core.ProcessingCompleted, External(tag))).app;
    var subs := Subscribers(app, Core.ProcessingCompleted);
    assert subs == [External(tag)] + [Relay];
    assert AppFails(external)(subs[0], event) == external(tag, event);
    if !external(tag, event) {
      assert forall j :: 0 <= j < 1 ==> !AppFails(external)(subs[j], event);
    }
  }

  /** With the relay as the only subscriber, the queue is exactly that one
      event after any number of steps. */
  lemma RelayRepublishesForever(app: Bus<AppSubscriber>, event: Value, steps: nat,
                                retrieve: Value -> Result<seq<string>>, external: (string, Value) -> bool)
    requires Subscribers(app, Core.ProcessingCompleted) == [Relay]
    requires RetrieveBatchesResultsHandlerL2(event, app, retrieve, external).Ok?
    ensures RunRelayTasks(app, [event], steps, retrieve, external) == [event]
  {
    RelayReschedules(app, event, 0, retrieve, external);
    var d := RetrieveBatchesResultsHandlerL2(event, app, retrieve, external).value.delivery;
    var tasks := RelayTasks(d.invoked);
    assert |tasks| <= |d.invoked| <= 1;
    assert tasks == [event];
    SelfSchedulingFixedPoint(e => RelayOutcome(app, e, retrieve, external), event, steps);
  }

  /** The application's bus as `init_monitoring_l2` leaves a fresh one. */
  lemma FreshAppBusHasOnlyRelay()
    ensures Subscribers(InitMonitoringL2(New()).app, Core.ProcessingCompleted) == [Relay]
  {
  }
}
