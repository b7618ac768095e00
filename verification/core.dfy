/** The asyncio core (`openai_batch_sdk/core.py`): the two status sets, the
    per-job status check and the event it publishes, the core result handler
    and the shutdown flag. The monitor pass and loop built on the check are in
    module Monitor. */
module Core {
  import opened Py
  import opened EventBus
  import opened Jobs

  /** Statuses on which the monitor keeps waiting. */
  const ResumeStatuses: set<string> := {"validating", "in_progress", "finalizing"}

  /** Statuses on which the monitor stops tracking the job. */
  const StopStatuses: set<string> := {"cancelled", "cancelling", "expired", "completed", "failed"}

  /** The event name the core publishes on. */
  const ProcessingCompleted: string := "batch_processing_completed"

  /** `resume_processing_status(status)`: the status is, letter for letter,
      one of those of a batch still being validated or run. */
  predicate ResumeProcessingStatus(status: string): (b: bool)
    ensures b <==> status == "validating" || status == "in_progress" || status == "finalizing"
  {
    status in ResumeStatuses
  }

  /** `stop_processing_status(status)`: the status is, letter for letter,
      one of those of a batch the provider will not work on any more. */
  predicate StopProcessingStatus(status: string): (b: bool)
    ensures b <==> || status == "cancelled" || status == "cancelling" || status == "expired"
                   || status == "completed" || status == "failed"
  {
    status in StopStatuses
  }

  /** What a check does with a reply status. */
  datatype Disposition = KeepWaiting | StopTracking | NoAction

  /** The `if resume ... elif stop ...` of `check_batches_results`: resume is
      tested first, and a status in neither set does nothing. Membership is
      exact string equality, so "Completed" or "VALIDATING" are in neither set. */
  function Classify(status: string): (d: Disposition)
    ensures d == KeepWaiting <==> status in {"validating", "in_progress", "finalizing"}
    ensures d == StopTracking <==> status in {"cancelled", "cancelling", "expired", "completed", "failed"}
    ensures d == NoAction <==> !ResumeProcessingStatus(status) && !StopProcessingStatus(status)
  {
    if ResumeProcessingStatus(status) then KeepWaiting
    else if StopProcessingStatus(status) then StopTracking
    else NoAction
  }

  /** The two sets have no status in common, so the order of the tests never
      changes a classification. */
  lemma StatusSetsDisjoint(status: string)
    ensures !(ResumeProcessingStatus(status) && StopProcessingStatus(status))
    ensures Classify(status) == StopTracking <==> StopProcessingStatus(status)
  {
  }

  /** `{"status": "response_ready", "batch_id": id, "response": reply}`: the same
      payload whatever the stop status was. */
  function CorePayload(batchId: string, reply: Batch): (v: Value)
    ensures v.Dict? && DistinctKeys(v.fields)
    ensures Subscript(v, "status") == Ok(Str("response_ready"))
    ensures Subscript(v, "batch_id") == Ok(Str(batchId))
    ensures Subscript(v, "response") == Ok(BatchObject(reply))
  {
    var fields := [Field("status", Str("response_ready")),
                   Field("batch_id", Str(batchId)),
                   Field("response", BatchObject(reply))];
    SubscriptLiteral(fields, 0);
    SubscriptLiteral(fields, 1);
    SubscriptLiteral(fields, 2);
    Dict(fields)
  }

  /** The core event carries no key besides those three: reading any other
      one raises KeyError. */
  lemma CorePayloadHasNoOtherKey(batchId: string, reply: Batch, key: string)
    requires key !in {"status", "batch_id", "response"}
    ensures Subscript(CorePayload(batchId, reply), key) == Err(KeyError(key))
  {
  }

  datatype Event = Event(name: string, data: Value)

  /** What one check did: the registry after it, the events it published, the
      callbacks those events reached, and the exception it raised, if any. */
  datatype CheckResult<C> = CheckResult(
    registry: Registry,
    published: seq<Event>,
    invoked: seq<Invocation<C, Value>>,
    error: Option<Error>)

  /** The error a raising subscriber leaves behind in the check. */
  function SubscriberError<C>(d: Delivery<C, Value>): Option<Error> {
    if d.raised.Some? then Some(CallbackError("event subscriber raised")) else None
  }

  /** `check_batches_results(bus, registry, batch_id)` given the provider's reply
      to the status call (or the exception it raised). A stop status deletes the
      key and then publishes one event; a subscriber that raises does so after
      the deletion, so the job is gone either way. */
  function CheckBatchesResults<C>(bus: Bus<C>, r: Registry, batchId: string,
                                  reply: Result<Batch>, fails: (C, Value) -> bool): (c: CheckResult<C>)
    requires Valid(r)
    ensures Valid(c.registry)
    ensures reply.Err? ==> c == CheckResult(r, [], [], Some(reply.error))
    ensures reply.Ok? && Classify(reply.value.status) != StopTracking ==> c == CheckResult(r, [], [], None)
    ensures reply.Ok? && Classify(reply.value.status) == StopTracking && batchId !in r.jobs ==>
              c == CheckResult(r, [], [], Some(KeyError(batchId)))
    ensures reply.Ok? && Classify(reply.value.status) == StopTracking && batchId in r.jobs ==>
              var d := Trigger(bus, ProcessingCompleted, CorePayload(batchId, reply.value), fails);
              && c.registry.jobs == r.jobs - {batchId}
              && c.registry.order == Without(r.order, batchId)
              && |c.registry.order| == |r.order| - 1
              && c.published == [Event(ProcessingCompleted, CorePayload(batchId, reply.value))]
              && c.invoked == d.invoked
              && (c.error.Some? <==> d.raised.Some?)
  {
    match reply
    case Err(e) => CheckResult(r, [], [], Some(e))
    case Ok(batch) =>
      match Classify(batch.status)
      case KeepWaiting => CheckResult(r, [], [], None)
      case NoAction => CheckResult(r, [], [], None)
      case StopTracking =>
        match Delete(r, batchId)
        case Err(e) => CheckResult(r, [], [], Some(e))
        case Ok(r') =>
          var payload := CorePayload(batchId, batch);
          var d := Trigger(bus, ProcessingCompleted, payload, fails);
          CheckResult(r', [Event(ProcessingCompleted, payload)], d.invoked, SubscriberError(d))
  }

  /** A completed job and a failed one lead to the same registry and to the
      same kind of event, "response_ready" under the same name with the same
      batch id; only the carried reply differs. The core does not tell
      success from failure. */
  lemma StopEventIgnoresOutcome<C>(bus: Bus<C>, r: Registry, batchId: string,
                                   completed: Batch, failed: Batch, fails: (C, Value) -> bool)
    requires Valid(r) && batchId in r.jobs
    requires completed.status == "completed" && failed.status == "failed"
    ensures var cc := CheckBatchesResults(bus, r, batchId, Ok(completed), fails);
            var cf := CheckBatchesResults(bus, r, batchId, Ok(failed), fails);
      && cc.registry == cf.registry
      && |cc.published| == 1 && |cf.published| == 1
      && cc.published[0].name == cf.published[0].name == ProcessingCompleted
      && Subscript(cc.published[0].data, "status") == Subscript(cf.published[0].data, "status")
         == Ok(Str("response_ready"))
      && Subscript(cc.published[0].data, "batch_id") == Subscript(cf.published[0].data, "batch_id")
         == Ok(Str(batchId))
      && Subscript(cc.published[0].data, "response") == Ok(BatchObject(completed))
      && Subscript(cf.published[0].data, "response") == Ok(BatchObject(failed))
  {
  }

  /** `retrieve_batches_results_handler(event)`: read the batch id (for the
      log line) and return the event's response. */
  function RetrieveBatchesResultsHandler(event: Value): (r: Result<Value>)
    ensures Subscript(event, "batch_id").Err? ==> r.Err? && r.error == Subscript(event, "batch_id").error
    ensures Subscript(event, "batch_id").Ok? ==> r == Subscript(event, "response")
  {
    var _ :- Subscript(event, "batch_id");
    Subscript(event, "response")
  }

  /** On the event the core publishes, the handler returns the provider reply. */
  lemma HandlerReturnsResponse(batchId: string, reply: Batch)
    ensures RetrieveBatchesResultsHandler(CorePayload(batchId, reply)) == Ok(BatchObject(reply))
  {
  }

  /** `shutdown()`: set the aborted flag. */
  function Shutdown(aborted: bool): (r: bool)
    ensures r
  {
    true
  }

  /** Requesting shutdown twice is the same as requesting it once. */
  lemma ShutdownIdempotent(aborted: bool)
    ensures Shutdown(Shutdown(aborted)) == Shutdown(aborted)
  {
  }
}
