# OpenAI batch processing: a Dafny model

This project models the job-tracking core of an asynchronous batch-processing
helper for the OpenAI Batch API, and proves properties about it. Each part
below has its own Dafny module:

- **EventBus** (`event_bus.dfy`): the in-process event bus. Event names map to
  ordered callback lists. Registration only appends. A trigger runs the
  callbacks synchronously, in order, and stops at the first one that raises.
- **Jobs** (`jobs.dfy`): the registry of monitored jobs and the submit closure
  (`gen_submit_batch_job` / `add_batch_job`). The registry is an
  insertion-ordered dict: a key list plus a map.
- **Core** (`core.dfy`): the asyncio core.
  - The resume and stop status sets, and the per-job status check.
  - The `"batch_processing_completed"` event the check publishes.
  - The core result handler, and the shutdown flag.
- **Monitor** (`monitor.dfy`): the monitor built on top of the check.
  - One pass of `monitor_batches` over a snapshot of the keys, shared by the
    async core and the threaded version. Submissions from other threads may
    arrive before any check in the pass.
  - The loop of passes.
- **Legacy** (`legacy.dfy`): the threaded first version. It has its own status
  check, its own `"batch_completed"` payloads, the branch in its result
  retrieval, and its `init_monitoring`.
- **Advanced** (`advanced.dfy`): the relay layer.
  - `retrieve_batches_results_handler_l2` reads an event, fetches the result
    file or formats the error list, and publishes the event again.
  - `init_monitoring_l2` wires the application bus and a fresh core bus.
- **Conversation**, **Jsonl** and **LogFormat**: the pure helpers.
  - Chat roles and messages.
  - The batch request record, and the text the JSONL writer leaves in the file.
  - The log-record rewrites: level emoji, `child` field, centring, and child
    logger names.

The model is built on a few Python semantics, gathered in module **Py**
(`py_values.dfy`):

- Event payloads are Python values. A dict keeps its keys in insertion order.
- Subscripting a non-dict raises TypeError, and a missing key raises KeyError.
- Iteration follows the Python rules for lists, dicts and strings.
- A provider error entry exposes `code` and `message`.

Everything external is a parameter:

- The provider's status call is `status: string -> Result<Batch>`. It is one
  function per pass, because a pass asks about each key once.
- The submit call is `submit: (string, string) -> Result<string>`.
- Fetching and splitting a result file is `retrieve: Value -> Result<seq<string>>`.
- Whether a subscriber raises on given data is `fails: (C, Value) -> bool`,
  over abstract callbacks `C`.

Batch ids are strings, so `str(batch_id)` is the id itself.

Some behaviour of the code that a reader might not expect, and which the
model keeps as written:

- `del registry[k]` on a missing key raises KeyError. Removal is not
  idempotent. The model proves that a pass never reaches this case
  (`Monitor.PassFailures`).
- Whether a job stays registered after its check raised depends on the
  version:
  - In the async core (`src/openai_batch_sdk/core.py:155-166`), a stop status
    deletes the job before the trigger, so a subscriber that raises leaves it
    deleted. There, a job whose check raised stays registered only when the
    status call itself raised (`Monitor.PassRegistry`).
  - In the threaded version (`src/batch_processor.py:99-111`), "completed"
    publishes without deleting, so a job whose subscriber raises on that event
    stays registered too. "failed" deletes before it publishes, as in the
    core (`Legacy.CheckBatchesResults`).
- The `child` field of a log record is empty for four logger names: `""`,
  `"APP"`, `"APP."` and `"APP.APP"`. The reason is that `"APP."` is removed
  first and only then is the rest compared with `"APP"`. So `"APP"` is not the only
  name with an empty field (`LogFormat.Child`).
- The centring factory is defined but never installed; only the emoji factory
  is. `LogFormat.CenteredLevelGetsEmoji` shows the two would still compose.

The provider's batch reply is modelled as a batch object, not a dict, so it
cannot be subscripted. This is a modelling choice: the relay reads
`response["result_file_id"]` from a core event. With the provider client's
reply object, that read raises TypeError (`Advanced.RelayOnCorePayload`).

## Model

| member | source | states |
|---|---|---|
| EventBus.New | src/openai_batch_sdk/event_handler.py:33-37 | a new bus has no event name registered |
| EventBus.Register | src/openai_batch_sdk/event_handler.py:39-52 | registering adds the name if absent and appends the callback at the end of that name's list; every other name's list is unchanged |
| EventBus.Deliver | src/openai_batch_sdk/event_handler.py:66-68 | callbacks are called in list order with the same data; if none raises all are called, otherwise the delivery stops right after the first one that raises and none before it raised |
| EventBus.DeliverRaisesIff | src/openai_batch_sdk/event_handler.py:66-68 | a delivery raises exactly when some subscriber raises on the data |
| EventBus.Trigger | src/openai_batch_sdk/event_handler.py:54-68 | triggering an unregistered name calls nothing; otherwise the i-th call is the i-th registered callback with the given data, and all are called when none raises |
| EventBus.TriggerCallsAllInOrder | src/openai_batch_sdk/event_handler.py:66-68 | with no raising callback the called sequence is exactly the registered list, so each callback is called as many times as it is registered |
| EventBus.RegisterTimesCount | src/openai_batch_sdk/event_handler.py:50-52 | no deduplication: k registrations of one callback add k copies to that name's list and leave other names alone |
| EventBus.RaiseStopsDelivery | src/openai_batch_sdk/event_handler.py:67-68 | if the k-th subscriber raises, the exception escapes the trigger and no subscriber after position k is called |
| Jobs.Empty | src/openai_batch_sdk/core.py:223 | the registry starts empty and well formed |
| Jobs.Set | src/openai_batch_sdk/core.py:67-69 | assignment binds the key, keeps every other binding, keeps an existing key in its position and appends a new one at the end |
| Jobs.Without | src/openai_batch_sdk/core.py:158 | removing a key from the key order keeps exactly the other keys and their distinctness, and drops exactly one entry when the key occurs once |
| Jobs.WithoutAt | src/openai_batch_sdk/core.py:158 | removing the key at position i of a list without repeats leaves the keys before i followed by the keys after i |
| Jobs.WithoutKeepsOrder | src/openai_batch_sdk/core.py:158 | removing a key that occurs once cuts it out where it stands, so the remaining keys keep their relative order |
| Jobs.Delete | src/openai_batch_sdk/core.py:158 | `del` fails with KeyError exactly when the key is absent; otherwise exactly that key's binding is gone, the other bindings are kept, and the remaining keys keep their insertion order |
| Jobs.GenSubmitBatchJob | src/openai_batch_sdk/core.py:43-72 | the returned closure submits every file with the description it was built with, whatever the registry it is used on |
| Jobs.TrackAll | src/openai_batch_sdk/core.py:67-69 | a series of submissions registers each id under itself and leaves other jobs untouched |
| Jobs.AddBatchJob | src/openai_batch_sdk/core.py:55-70 | the provider is asked with the file path and the bound description; on success the id is registered under itself and nothing else changes; on failure the registry is unchanged and the error is returned |
| Jobs.DefaultDescription | src/openai_batch_sdk/core.py:43 | without an explicit description the provider is asked with "batch prompts job" |
| Core.StopProcessingStatus | src/openai_batch_sdk/core.py:109-126 | a status stops tracking exactly when it is, letter for letter, "cancelled", "cancelling", "expired", "completed" or "failed" |
| Core.ResumeProcessingStatus | src/openai_batch_sdk/core.py:129-140 | a status keeps the job waiting exactly when it is, letter for letter, "validating", "in_progress" or "finalizing" |
| Core.Classify | src/openai_batch_sdk/core.py:109-140 | a status waits exactly when it is one of the three resume statuses, stops tracking exactly when it is one of the five stop statuses, and does nothing otherwise; matching is exact |
| Core.StatusSetsDisjoint | src/openai_batch_sdk/core.py:119-140 | no status is in both sets, so testing resume first never hides a stop status |
| Core.CorePayload | src/openai_batch_sdk/core.py:159-166 | the published event holds status "response_ready", the batch id and the provider reply under three distinct keys |
| Core.CorePayloadHasNoOtherKey | src/openai_batch_sdk/core.py:159-166 | any key other than those three raises KeyError on the published event |
| Core.CheckBatchesResults | src/openai_batch_sdk/core.py:143-166 | a failing status call changes nothing and raises; a resume or unknown status changes nothing and publishes nothing; a stop status deletes exactly that job (KeyError if it is absent), keeps the other keys in their order, and publishes exactly one event; a subscriber that raises leaves the job deleted |
| Core.StopEventIgnoresOutcome | src/openai_batch_sdk/core.py:157-166 | a completed job and a failed one lead to the same registry and to exactly one event each, under the same name with status "response_ready" and the same batch id; only the carried reply differs |
| Core.RetrieveBatchesResultsHandler | src/openai_batch_sdk/core.py:91-103 | the handler fails when the event has no batch id and otherwise returns the event's response, or the KeyError for it |
| Core.HandlerReturnsResponse | src/openai_batch_sdk/core.py:101-103 | on a core event the handler returns the provider reply it carries |
| Core.Shutdown | src/openai_batch_sdk/core.py:229-233 | after shutdown the aborted flag is set |
| Core.ShutdownIdempotent | src/openai_batch_sdk/core.py:229-233 | requesting shutdown twice is the same as once |
| Legacy.CompletedPayload | src/batch_processor.py:99-105 | the "completed" event holds status, batch id and the output file id (None when the reply has none), and no request counts |
| Legacy.FailedPayload | src/batch_processor.py:106-111 | the "failed" event holds only status and batch id: no counts, no errors |
| Legacy.CheckBatchesResults | src/batch_processor.py:92-111 | only "completed" and "failed" act; "completed" publishes without removing the job; "failed" deletes the job (KeyError if it is absent), keeps the other keys in their order and then publishes; every other status changes nothing |
| Legacy.ThreadedIgnoresOtherStopStatuses | src/batch_processor.py:97-111 | "cancelled", "cancelling", "expired", "in_progress" and "finalizing" change nothing and publish nothing in this version |
| Legacy.RetrieveBatchesResults | src/batch_processor.py:67-87 | retrieval succeeds exactly when the batch id and status can be read and then, for "completed", the result file id and the file can be read, or, for any other status, the two request counts and the error list can be read; exactly one of lines and errors is returned; lines come from the file the event names; errors are the event's list in order; the first read that fails (batch id, status, result file id, file fetch, request counts, either count, error list, its iteration) decides the exception, which is exactly that read's |
| Legacy.FailureEventReturnsErrors | src/batch_processor.py:79-87 | on a failure event that carries its request counts and error list, retrieval returns exactly that list |
| Legacy.FailedEventCannotBeRetrieved | src/batch_processor.py:79-81 | on the "failed" event this version publishes, retrieval raises KeyError("request_counts") |
| Legacy.CompletedEventRetrievesOutputFile | src/batch_processor.py:70-78 | on a "completed" event with an output file, retrieval returns that file's lines |
| Legacy.InitMonitoring | src/batch_processor.py:129-136 | exactly one result handler is added under "batch_completed", other names are unchanged, the registry starts empty and the closure uses the default description |
| Monitor.CheckRegistered | src/openai_batch_sdk/core.py:155-166 | for a registered job, either version's check removes it exactly when its reply removes, keeps every other job's record, publishes the reply's event if any, and raises only the status call's or a subscriber's exception |
| Monitor.PassOver | src/openai_batch_sdk/core.py:185-207 | a pass keeps the registry well formed whatever the replies and subscribers do |
| Monitor.MonitorPass | src/openai_batch_sdk/core.py:183-189 | a pass over the snapshot of the keys keeps the registry well formed |
| Monitor.PassFailures | src/openai_batch_sdk/core.py:186-207 | every caught exception belongs to a snapshot key and comes from its status call or a subscriber, never from `del`; every failing status call is caught and the pass goes on |
| Monitor.PassFailuresExplained | src/openai_batch_sdk/core.py:186-207 | each caught exception belongs to a snapshot key and is its status call's or a subscriber's |
| Monitor.PassReportsStatusErrors | src/openai_batch_sdk/core.py:186-207 | each snapshot key whose status call fails has that error caught and reported for it |
| Monitor.PassPublishes | src/openai_batch_sdk/core.py:183-189 | a pass publishes exactly the reference events: one per snapshot key whose reply publishes, in snapshot order, whatever the subscribers do |
| Monitor.EventNamesItsJob | src/openai_batch_sdk/core.py:159-166 | every published event carries the id of the job it is about |
| Monitor.PassRegistry | src/openai_batch_sdk/core.py:185-189 | after a pass a job is registered exactly when it was before and its reply does not remove it, or it was submitted during the pass; surviving jobs keep their records |
| Monitor.QuietPassRegistry | src/openai_batch_sdk/core.py:183-189 | with no concurrent submissions a job survives exactly when its reply does not remove it, and the events are the reference events of the key order |
| Monitor.CheckKeepsOrder | src/openai_batch_sdk/core.py:155-158 | a check removes its key from the key order exactly when the reply removes the job, and otherwise leaves the order as it was |
| Monitor.PassKeepsOrder | src/openai_batch_sdk/core.py:185-189 | without concurrent submissions, the rest of a pass leaves the keys already passed in place, followed by the pending keys whose reply does not remove them, in their order |
| Monitor.QuietPassOrder | src/openai_batch_sdk/core.py:183-189 | without concurrent submissions, the key order after a pass is the old order with the removed keys cut out |
| Monitor.PassWithoutSubscribers | src/openai_batch_sdk/event_handler.py:66-68 | on a bus with no subscriber for the published name, a pass calls no callback and no subscriber error arises |
| Monitor.MonitorLoop | src/openai_batch_sdk/core.py:172-210 | the loop runs at most one pass per round |
| Monitor.AsyncLoopStops | src/openai_batch_sdk/core.py:172-210 | the async loop runs no pass when the abort flag is already set; otherwise it runs exactly the passes up to and including the first round in which shutdown is requested (all rounds if none is), and it ends aborted exactly when it started aborted or some round requested shutdown |
| Monitor.FirstShutdown | src/openai_batch_sdk/core.py:181 | the index of the first round whose shutdown request the loop condition sees: no earlier round requests shutdown, and the round at that index does |
| Monitor.ThreadedLoopNeverStops | src/batch_processor.py:115-127 | the threaded loop runs one pass per round whatever the flag |
| Monitor.ThreadedRoundKeepsCompleted | src/batch_processor.py:99-105 | one threaded round on a job reported "completed" keeps it registered and publishes exactly one event about it |
| Monitor.CompletedJobRepublished | src/batch_processor.py:99-105 | in the threaded version a job that always reports "completed" stays registered and produces one event per pass |
| Monitor.InitMonitoring | src/openai_batch_sdk/core.py:213-226 | the core monitor starts on an empty registry, subscribes nothing and binds the closure to the default description |
| Advanced.FormatErrors | src/openai_batch_sdk/advanced.py:78-81 | each error becomes "code: message", keeping count and order; an entry without those attributes raises AttributeError |
| Advanced.RelayReady | src/openai_batch_sdk/advanced.py:65-74 | the ready branch succeeds exactly when the response, its result file id and the file fetch all succeed, and then publishes the event unchanged |
| Advanced.RelayFailure | src/openai_batch_sdk/advanced.py:75-86 | the other branch succeeds exactly when both counts, the error list and every error's code and message can be read; it then carries the formatted errors and publishes the event unchanged; otherwise the first read that fails decides the exception: the missing "completed" or "failed" count's KeyError, the "errors" read's, the iteration's, or AttributeError for an entry without code and message |
| Advanced.RelayFormatsFailureEvent | src/openai_batch_sdk/advanced.py:75-86 | on a failure event whose errors all carry a code and a message, the relay succeeds, formats each error as "code: message" in order, and publishes the event unchanged |
| Advanced.RetrieveBatchesResultsHandlerL2 | src/openai_batch_sdk/advanced.py:55-86 | the relay needs a batch id and status; status "response_ready" takes the ready branch and any other status the failure branch; a successful relay publishes the same event once under "batch_processing_completed" |
| Advanced.RelayOnCorePayload | src/openai_batch_sdk/advanced.py:64-67 | on a core event the relay takes the ready branch and fails with TypeError, because the response is a batch object |
| Advanced.RelayTasks | src/openai_batch_sdk/advanced.py:100-105 | each call reaching the relay schedules one task for its event, and nothing else is scheduled |
| Advanced.RelayTasksOne | src/openai_batch_sdk/advanced.py:100-105 | a single call schedules one task with its event when it reached the relay, and none otherwise |
| Advanced.RelayTasksAppend | src/openai_batch_sdk/advanced.py:100-105 | the tasks of two runs of calls are those of the first run, then those of the second |
| Advanced.RelayOutcome | src/openai_batch_sdk/advanced.py:55-105 | handling a relay task schedules tasks exactly when the handler's reads of the event succeed; a subscriber raising during the republication does not undo the tasks scheduled before it |
| Advanced.RaiseKeepsEarlierRelayTask | src/openai_batch_sdk/advanced.py:74-105 | the republication is not guarded: when the relay is reached before any subscriber raises, the event is scheduled again whatever the later subscribers do |
| Advanced.RaiseAfterRelayStillSchedules | src/openai_batch_sdk/advanced.py:86-105 | with the relay first and a raising application callback second, the republication raises that callback's exception and still leaves exactly one new relay task for the event |
| Advanced.RunRelayTasks | src/openai_batch_sdk/advanced.py:100-105 | the event loop runs relay tasks first in first out; its own contract covers only a bus without the relay, where each task schedules nothing, so n steps consume exactly the first n tasks (a case the program reaches only with an empty queue); with the relay subscribed, RelayQueueNeverDrains and RelayRepublishesForever state what the queue does |
| Advanced.RelayReschedules | src/openai_batch_sdk/advanced.py:100-105 | when the relay is subscribed and no application callback before it raises, handling an event it accepts schedules that event again and nothing else |
| Advanced.RelayQueueNeverDrains | src/openai_batch_sdk/advanced.py:100-105 | under the same conditions, a queue of relay tasks holding only that event never drains and only ever holds that event, whatever other callbacks share the name; the queue counts relay tasks only, not tasks that application callbacks schedule |
| Advanced.InitMonitoringL2 | src/openai_batch_sdk/advanced.py:89-106 | exactly one relay is added to the application bus under "batch_processing_completed"; the core runs on a bus without subscriptions and an empty registry |
| Advanced.CoreEventsReachNoCallback | src/openai_batch_sdk/advanced.py:99-106 | a core monitor pass under this wiring reaches no callback at all |
| Advanced.DriverWiringReachesRelay | scripts/main_l2.py:55-59 | when the application registers its own handler before `init_monitoring_l2`, the relay is the second subscriber, and a republication reaches it exactly when that handler does not raise on the event (the driver's own callback only schedules a task, so with it the relay is reached on every republication) |
| Advanced.RelayRepublishesForever | src/openai_batch_sdk/advanced.py:100-105 | on the wiring of a fresh application bus, where the relay is the only subscriber, a queue of one accepted event is that same one event after any number of steps |
| Advanced.FreshAppBusHasOnlyRelay | src/openai_batch_sdk/advanced.py:100-105 | on a fresh application bus the relay is the only subscriber of the name it republishes on |
| Conversation.RoleFromValue | src/utils/gpt_conversation_handler.py:26-33 | exactly "user", "system" and "assistant" name a role, case-sensitively; the found role's value is the string; any other string raises ValueError |
| Conversation.RoleRoundTrip | src/utils/gpt_conversation_handler.py:26-33 | each role is found again from its value, and distinct roles have distinct values |
| Conversation.CreateMessage | src/utils/gpt_conversation_handler.py:50-64 | a role member is kept as is; a role string is converted by value lookup or raises ValueError; the content is stored unchanged |
| Conversation.CreateConversation | src/utils/gpt_conversation_handler.py:67-80 | one entry per message, in order, each with a valid role string and the message's content |
| Conversation.ConversationRoundTrip | src/utils/gpt_conversation_handler.py:67-80 | rebuilding a message from each entry gives back the original messages |
| Jsonl.CreateJsonLine | src/utils/jsonl_handler.py:23-51 | the record keeps the custom id, uses POST to "/v1/chat/completions", passes model and token limit through, and its messages rebuild the given conversation in order |
| Jsonl.DefaultRequestSettings | src/utils/jsonl_handler.py:26-27 | the defaults are model "gpt-4" and 1500 tokens |
| Jsonl.FileContentAppend | src/utils/jsonl_handler.py:66-68 | writing two lists in sequence writes one file's text after the other's |
| Jsonl.FileContentNewlines | src/utils/jsonl_handler.py:66-68 | n lines add exactly n newlines to the ones they carry |
| Jsonl.FileContentRoundTrip | src/utils/jsonl_handler.py:66-68 | for lines without a newline, splitting the written text at newlines gives back the lines |
| Jsonl.WriteJsonlFile | src/utils/jsonl_handler.py:55-68 | the file holds exactly the written text whatever it held before, and other files are untouched |
| LogFormat.RemovePrefix | src/utils/logging.py:69 | with the prefix present, the result is what follows it; otherwise the string is unchanged |
| LogFormat.Child | src/utils/logging.py:69-73 | the field is empty exactly for "", "APP", "APP." and "APP.APP"; otherwise it is the name after one leading "APP.", or the whole name when that prefix is absent |
| LogFormat.ChildOfGetChild | src/utils/logging.py:69-73 | a record from a child logger of "APP" carries that child's suffix, except for a child named "APP" |
| LogFormat.ModuleLoggerName | src/utils/logging.py:179-189 | a module logger's records carry the module name as their child field |
| LogFormat.LibLoggerName | src/utils/logging.py:172-176 | a library logger's records carry the bracketed path below the project's source directory |
| LogFormat.AdProcessingLoggerName | src/utils/logging.py:202-205 | an ad-processing logger's records carry "[📲🤖" + stage + "]" |
| LogFormat.StripLeft | src/utils/logging.py:76 | the result is the longest suffix that does not start with whitespace; everything dropped is whitespace |
| LogFormat.StripRight | src/utils/logging.py:76 | the result is the longest prefix that does not end with whitespace; everything dropped is whitespace |
| LogFormat.Center | src/utils/logging.py:94 | text at least as wide as the width is unchanged; shorter text sits at the left margin inside a string of exactly the width, padded only with spaces |
| LogFormat.EmojiLevelname | src/utils/logging.py:76 | a level name whose stripped form is in the table shows that emoji; any other keeps its original, unstripped text |
| LogFormat.EmojiRecord | src/utils/logging.py:56-79 | the record's name is always the globe emoji; its child field is the child of the logger name, empty exactly for the four names above; its level is the emoji mapping of the level name, an emoji from the table or the original text |
| LogFormat.CenteredLevelname | src/utils/logging.py:82-95 | the centred level name is max(7, length) characters long |
| LogFormat.StripCenter | src/utils/logging.py:94 | centring adds only spaces, so stripping afterwards gives what stripping gives before |
| LogFormat.CenteredLevelGetsEmoji | src/utils/logging.py:76 | a centred standard level name still maps to its emoji |
| LogFormat.AdProcessingInfoRecord | src/utils/logging.py:56-79 | an INFO record from an ad-processing logger shows the globe as its name, the megaphone as its level, and "[📲🤖" + stage + "]" as its child |

## Left out

- Graceful shutdown is not modelled: the timed sleep, cancelling and gathering tasks, stopping the loop, and signal registration (`graceful_shutdown`, `setup_signal_handlers` and their `_l2` forwards). These are concurrency and OS plumbing. Shutdown is the boolean flag only.
- Scheduling is not modelled: `asyncio.create_task`, the daemon thread, `run_coroutine_threadsafe` in the threaded result handler, and the 30-second sleeps. Callbacks run synchronously, and a pass is the unit of time. A relay task is the event it will handle.
- Application callbacks that schedule tasks are not modelled. An application subscriber (`External`) may raise but never schedules anything. So `RunRelayTasks`, `RelayQueueNeverDrains` and `RelayRepublishesForever` count relay tasks only. Under the wiring of `scripts/main_l2.py:55-59`, the event loop also holds a `handle_event` task for each handled event, and that task republishes the event once more.
- The provider client is not modelled (`src/deps/oai/batch_api/batch_api.py`). Submit, status and retrieve are oracle parameters that may fail. All provider exception classes collapse into one `ProviderError`, since the monitor handles every class the same way.
- `retrieve_batches_results` (core) and `retrieve_batches_results_v2` (relay) have no member of their own. Each only forwards to the retrieve oracle.
- Log calls are not modelled: they change no state. `json.dumps` is not modelled: the record is modelled before serialisation. Reading, decoding and splitting a result file are folded into the retrieve oracle.
- Logger configuration is not modelled: `setup_logging` handlers, levels, `FeatureFilter`, `basicConfig`, and the formatter's layout string, which only concatenates the record fields. Environment loading is not modelled either. `get_project_root` is not part of this model: `LibLoggerName` takes the length of its result as a parameter.
- Some files are outside the model:
  - `src/advanced_batch_processor.py` duplicates the relay layer and imports a module that is not part of this model.
  - `src/gpt_conversation_handler.py` is a copy of the utils version.
  - `src/result_handler.py`, `src/main_l2.py`, the scripts, the mock-data generator, `setup.py`, and the threaded version's `test_script` and `main` are drivers or packaging. Only the bus wiring of `scripts/main_l2.py` is modelled, by `Advanced.DriverWiringReachesRelay`. The callback that driver registers does not raise: it only schedules a task running `handle_event`, which awaits the relay handler on the same application bus and so republishes the event a second time. That task is not modelled (see the next line).
- Callbacks are modelled as effect-free apart from raising. A subscriber cannot register callbacks during a trigger, and it cannot change the registry. In Python a callback appended to the list during a trigger would also be called by the running loop, and a subscriber could delete registry keys.
- Only exceptions derived from `Exception` are caught by the monitor (`src/openai_batch_sdk/core.py:206`). A `BaseException` such as `KeyboardInterrupt` or `asyncio.CancelledError` would escape the pass. The model has no such exceptions.
- `src/batch_processor.py:19` imports `EventHandler` from a top-level `event_handler` module, which is not part of this model. Legacy assumes it behaves like the bus in `src/openai_batch_sdk/event_handler.py`.
- Advanced.RelayReschedules, Advanced.RelayQueueNeverDrains: they assume that no application callback registered before the relay raises on the event. If one does, the trigger stops before the relay and the task schedules nothing.
- Monitor.MonitorLoop: between passes, submissions arrive only at the end of a round. Interleaving within a pass is modelled by the pass lemmas, not by the loop. The loop is run for a given finite list of rounds, so "never stops" means "one pass per round given".
- Monitor.PassOver, Monitor.MonitorPass: their own contracts only keep the registry well formed. What a pass does is stated by the Pass lemmas.
- Jsonl.CreateJsonLine: the messages are typed `{"role", "content"}` entries, not general dicts. `custom_id` is a string, although the mock-data generator passes an int.
