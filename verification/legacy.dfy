/** The threaded first version (`batch_processor.py`). It classifies replies
    differently from the async core: only "validating" waits, "completed"
    publishes an event but keeps the job registered, "failed" deletes the job
    and publishes a shorter event, and every other status does nothing. */
module Legacy {
  import opened Py
  import opened EventBus
  import opened Jobs
  import Core

  /** The event name this version publishes on. */
  const BatchCompleted: string := "batch_completed"

  /** `{"status": "completed", "batch_id": id, "result_file_id": output_file_id}`. */
  function CompletedPayload(batchId: string, outputFileId: Option<string>): (v: Value)
    ensures v.Dict? && DistinctKeys(v.fields)
    ensures Subscript(v, "status") == Ok(Str("completed"))
    ensures Subscript(v, "batch_id") == Ok(Str(batchId))
    ensures outputFileId.Some? ==> Subscript(v, "result_file_id") == Ok(Str(outputFileId.value))
    ensures outputFileId.None? ==> Subscript(v, "result_file_id") == Ok(NoneValue)
    ensures Subscript(v, "request_counts") == Err(KeyError("request_counts"))
  {
    var fileId := if outputFileId.Some? then Str(outputFileId.value) else NoneValue;
    var fields := [Field("status", Str("completed")),
                   Field("batch_id", Str(batchId)),
                   Field("result_file_id", fileId)];
    SubscriptLiteral(fields, 0);
    SubscriptLiteral(fields, 1);
    SubscriptLiteral(fields, 2);
    assert Lookup(fields, "request_counts") == None;
    Dict(fields)
  }

  /** `{"status": "failed", "batch_id": id}`: no counts, no errors. */
  function FailedPayload(batchId: string): (v: Value)
    ensures v.Dict? && DistinctKeys(v.fields)
    ensures Subscript(v, "status") == Ok(Str("failed"))
    ensures Subscript(v, "batch_id") == Ok(Str(batchId))
    ensures Subscript(v, "request_counts") == Err(KeyError("request_counts"))
    ensures Subscript(v, "errors") == Err(KeyError("errors"))
  {
    var fields := [Field("status", Str("failed")), Field("batch_id", Str(batchId))];
    SubscriptLiteral(fields, 0);
    SubscriptLiteral(fields, 1);
    Dict(fields)
  }

  /** `check_batches_results` of the threaded version, given the provider's
      reply to the status call (or the exception it raised). */
  function CheckBatchesResults<C>(bus: Bus<C>, r: Registry, batchId: string,
                                  reply: Result<Batch>, fails: (C, Value) -> bool): (c: Core.CheckResult<C>)
    requires Valid(r)
    ensures Valid(c.registry)
    ensures reply.Err? ==> c == Core.CheckResult(r, [], [], Some(reply.error))
    ensures reply.Ok? && reply.value.status !in {"completed", "failed"} ==> c == Core.CheckResult(r, [], [], None)
    ensures reply.Ok? && reply.value.status == "completed" ==>
              var payload := CompletedPayload(batchId, reply.value.outputFileId);
              var d := Trigger(bus, BatchCompleted, payload, fails);
              && c.registry == r
              && c.published == [Core.Event(BatchCompleted, payload)]
              && c.invoked == d.invoked
              && (c.error.Some? <==> d.raised.Some?)
    ensures reply.Ok? && reply.value.status == "failed" && batchId !in r.jobs ==>
              c == Core.CheckResult(r, [], [], Some(KeyError(batchId)))
    ensures reply.Ok? && reply.value.status == "failed" && batchId in r.jobs ==>
              var d := Trigger(bus, BatchCompleted, FailedPayload(batchId), fails);
              && c.registry.jobs == r.jobs - {batchId}
              && c.registry.order == Without(r.order, batchId)
              && c.published == [Core.Event(BatchCompleted, FailedPayload(batchId))]
              && c.invoked == d.invoked
              && (c.error.Some? <==> d.raised.Some?)
  {
    match reply
    case Err(e) => Core.CheckResult(r, [], [], Some(e))
    case Ok(batch) =>
      if batch.status == "validating" then Core.CheckResult(r, [], [], None)
      else if batch.status == "completed" then
        var payload := CompletedPayload(batchId, batch.outputFileId);
        var d := Trigger(bus, BatchCompleted, payload, fails);
        Core.CheckResult(r, [Core.Event(BatchCompleted, payload)], d.invoked, Core.SubscriberError(d))
      else if batch.status == "failed" then
        match Delete(r, batchId)
        case Err(e) => Core.CheckResult(r, [], [], Some(e))
        case Ok(r') =>
          var d := Trigger(bus, BatchCompleted, FailedPayload(batchId), fails);
          Core.CheckResult(r', [Core.Event(BatchCompleted, FailedPayload(batchId))], d.invoked, Core.SubscriberError(d))
      else Core.CheckResult(r, [], [], None)
  }

  /** Statuses the async core stops on but this version ignores. */
  lemma ThreadedIgnoresOtherStopStatuses<C>(bus: Bus<C>, r: Registry, batchId: string,
                                            reply: Batch, fails: (C, Value) -> bool)
    requires Valid(r)
    requires reply.status in {"cancelled", "cancelling", "expired", "in_progress", "finalizing"}
    ensures CheckBatchesResults(bus, r, batchId, Ok(reply), fails) == Core.CheckResult(r, [], [], None)
  {
  }

  /** `[lines, None]` or `[None, errors]`. */
  datatype Outcome = Outcome(lines: Option<seq<string>>, errors: Option<seq<Value>>)

  /** The reads of the "completed" branch succeed: the event names a result
      file and fetching it works. */
  predicate ReadsResultFile(event: Value, retrieve: Value -> Result<seq<string>>) {
    && Subscript(event, "result_file_id").Ok?
    && retrieve(Subscript(event, "result_file_id").value).Ok?
  }

  /** The reads of the other branch succeed: the counts hold "completed" and
      "failed", and the error list is iterable. */
  predicate ReadsErrors(event: Value) {
    && Subscript(event, "request_counts").Ok?
    && Subscript(Subscript(event, "request_counts").value, "completed").Ok?
    && Subscript(Subscript(event, "request_counts").value, "failed").Ok?
    && Subscript(event, "errors").Ok?
    && Iterate(Subscript(event, "errors").value).Ok?
  }

  /** `retrieve_batches_results(event)`: on status "completed" fetch the result
      file and return its lines; otherwise read the request counts and return
      a copy of the error list. `retrieve` stands for fetching a result file
      and splitting its text into lines. Every read that fails raises, and
      the first one to fail decides the exception. */
  function RetrieveBatchesResults(event: Value, retrieve: Value -> Result<seq<string>>): (r: Result<Outcome>)
    ensures r.Ok? <==>
      && Subscript(event, "batch_id").Ok?
      && Subscript(event, "status").Ok?
      && (if Subscript(event, "status").value == Str("completed") then ReadsResultFile(event, retrieve)
          else ReadsErrors(event))
    ensures r.Ok? ==> (r.value.lines.Some? <==> r.value.errors.None?)
    ensures r.Ok? && r.value.lines.Some? ==>
              && Subscript(event, "status") == Ok(Str("completed"))
              && retrieve(Subscript(event, "result_file_id").value) == Ok(r.value.lines.value)
    ensures r.Ok? && r.value.errors.Some? ==>
              && Subscript(event, "status") != Ok(Str("completed"))
              && Iterate(Subscript(event, "errors").value) == Ok(r.value.errors.value)
    ensures Subscript(event, "batch_id").Err? ==> r == Err(Subscript(event, "batch_id").error)
    ensures Subscript(event, "batch_id").Ok? && Subscript(event, "status").Err? ==>
              r == Err(Subscript(event, "status").error)
    ensures Subscript(event, "batch_id").Ok? && Subscript(event, "status") == Ok(Str("completed")) ==>
              var fileId := Subscript(event, "result_file_id");
              && (fileId.Err? ==> r == Err(fileId.error))
              && (fileId.Ok? && retrieve(fileId.value).Err? ==> r == Err(retrieve(fileId.value).error))
    ensures Subscript(event, "batch_id").Ok? && Subscript(event, "status").Ok?
            && Subscript(event, "status") != Ok(Str("completed")) ==>
              var counts := Subscript(event, "request_counts");
              var errs := Subscript(event, "errors");
              && (counts.Err? ==> r == Err(counts.error))
              && (counts.Ok? && Subscript(counts.value, "completed").Err? ==>
                    r == Err(Subscript(counts.value, "completed").error))
              && (counts.Ok? && Subscript(counts.value, "completed").Ok?
                  && Subscript(counts.value, "failed").Err? ==>
                    r == Err(Subscript(counts.value, "failed").error))
              && (counts.Ok? && Subscript(counts.value, "completed").Ok?
                  && Subscript(counts.value, "failed").Ok? && errs.Err? ==>
                    r == Err(errs.error))
              && (counts.Ok? && Subscript(counts.value, "completed").Ok?
                  && Subscript(counts.value, "failed").Ok? && errs.Ok? && Iterate(errs.value).Err? ==>
                    r == Err(Iterate(errs.value).error))
  {
    var _ :- Subscript(event, "batch_id");
    var status :- Subscript(event, "status");
    if status == Str("completed") then
      var fileId :- Subscript(event, "result_file_id");
      var lines :- retrieve(fileId);
      Ok(Outcome(Some(lines), None))
    else
      var counts :- Subscript(event, "request_counts");
      var _ :- Subscript(counts, "completed");
      var _ :- Subscript(counts, "failed");
      var errs :- Subscript(event, "errors");
      var items :- Iterate(errs);
      Ok(Outcome(None, Some(items)))
  }

  /** `{"completed": c, "failed": f}`, the request counts of a batch. */
  function RequestCounts(completed: int, failed: int): (v: Value)
    ensures Subscript(v, "completed") == Ok(Int(completed))
    ensures Subscript(v, "failed") == Ok(Int(failed))
  {
    var fields := [Field("completed", Int(completed)), Field("failed", Int(failed))];
    SubscriptLiteral(fields, 0);
    SubscriptLiteral(fields, 1);
    Dict(fields)
  }

  /** A failure event as the provider describes a failed batch: a status
      other than "completed", the batch id, the request counts and the error
      list. */
  function FailureEvent(batchId: string, status: string, completed: int, failed: int, errors: seq<Value>): (v: Value)
    ensures v.Dict? && DistinctKeys(v.fields)
    ensures Subscript(v, "status") == Ok(Str(status))
    ensures Subscript(v, "batch_id") == Ok(Str(batchId))
    ensures Subscript(v, "request_counts") == Ok(RequestCounts(completed, failed))
    ensures Subscript(v, "errors") == Ok(List(errors))
  {
    var fields := [Field("status", Str(status)),
                   Field("batch_id", Str(batchId)),
                   Field("request_counts", RequestCounts(completed, failed)),
                   Field("errors", List(errors))];
    SubscriptLiteral(fields, 0);
    SubscriptLiteral(fields, 1);
    SubscriptLiteral(fields, 2);
    SubscriptLiteral(fields, 3);
    Dict(fields)
  }

  /** On a failure event that carries its counts and errors, retrieval
      returns the error list, every entry in its order. */
  lemma FailureEventReturnsErrors(batchId: string, status: string, completed: int, failed: int,
                                  errors: seq<Value>, retrieve: Value -> Result<seq<string>>)
    requires status != "completed"
    ensures RetrieveBatchesResults(FailureEvent(batchId, status, completed, failed, errors), retrieve)
            == Ok(Outcome(None, Some(errors)))
  {
    var event := FailureEvent(batchId, status, completed, failed, errors);
    assert Subscript(event, "status").value != Str("completed");
    assert ReadsErrors(event);
  }

  /** The "failed" event this version publishes lacks "request_counts", so
      retrieving results for it always raises KeyError. */
  lemma FailedEventCannotBeRetrieved(batchId: string, retrieve: Value -> Result<seq<string>>)
    ensures RetrieveBatchesResults(FailedPayload(batchId), retrieve) == Err(KeyError("request_counts"))
  {
  }

  /** On the "completed" event the lines come from the output file the reply named. */
  lemma CompletedEventRetrievesOutputFile(batchId: string, fileId: string, retrieve: Value -> Result<seq<string>>)
    requires retrieve(Str(fileId)).Ok?
    ensures RetrieveBatchesResults(CompletedPayload(batchId, Some(fileId)), retrieve)
            == Ok(Outcome(Some(retrieve(Str(fileId)).value), None))
  {
  }

  /** Subscribers on the threaded bus: the result handler `init_monitoring`
      registers, or any other callback of the application. */
  datatype Subscriber = RetrieveResultsHandler | External(tag: string)

  datatype Monitoring = Monitoring(bus: Bus<Subscriber>, registry: Registry, submitter: Submitter)

  /** `init_monitoring(bus)`: subscribe the result handler to "batch_completed",
      start the monitor on a fresh registry and hand back the submit closure
      bound to that registry, with the default description. */
  function InitMonitoring(bus: Bus<Subscriber>): (m: Monitoring)
    ensures Subscribers(m.bus, BatchCompleted) == Subscribers(bus, BatchCompleted) + [RetrieveResultsHandler]
    ensures forall name :: name != BatchCompleted ==> Subscribers(m.bus, name) == Subscribers(bus, name)
    ensures Valid(m.registry) && forall k :: k !in m.registry.jobs
    ensures m.submitter.description == "batch prompts job"
  {
    Monitoring(Register(bus, BatchCompleted, RetrieveResultsHandler), Empty(), GenSubmitBatchJob())
  }
}
