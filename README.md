# hpOneView task monitor and logical-interconnect payloads, in Dafny

This project models two parts of the hpOneView Python client for HPE OneView.

The first is the **task monitor** (`hpOneView/resources/task_monitor.py`). An appliance
operation returns a task handle. The monitor turns that handle into a synchronous result:

- It polls the task until its `taskState` leaves the pending states.
- Between polls it sleeps 1, 2, … seconds, capped at 10.
- It gives up with a timeout error once an optional deadline has passed.
- It then resolves the finished task. The outcome is a task error, `True` for a deletion,
  the resource the task affected, or the raw task.

The second is the **local logic of the logical-interconnect resource**
(`hpOneView/resources/networking/logical_interconnects.py`):

- the defaults `update_settings` puts into a settings payload;
- the first-match choice of `get_by_name`;
- the URIs of `delete_interconnect` and of the firmware endpoint.

Modules:

- `Json`: the JSON values that responses and payloads are made of, and Python truthiness.
- `Exceptions`: the library's exception classes, plus the built-in `KeyError`, `TypeError`
  and `AttributeError` the code can raise, and a `Result` type.
- `PyOps`: the Python operations the code applies to JSON values. These are `in`,
  subscripting, `len`, `[0]`, `.get` and `.startswith`, each with the error Python raises
  on a value of the wrong kind.
- `Text`: `str()` of an integer, its inverse, Python's substring test, and the last
  position of a character.
- `TaskMonitor`: the constants, the resolver and association functions, the poll loop,
  and the `TaskMonitor` class.
  - The class has the request log and the clock as fields.
  - The connection is an oracle `Server = (uri, n) -> object`. It gives the appliance's
    answer to the n-th request of the session.
  - The clock is an integer that a sleep of `i` seconds advances by `i`.
  - `PollRun` is a predicate that describes a complete wait. It records how many pending
    polls there were, the log afterwards, the time taken, and whether the wait timed out.
- `TaskMonitorProperties`: lemmas about the sleep schedule, waits, the failure message and
  the resolver's decision table.
- `LogicalInterconnects`: a heap-allocated `Dict` class, so that the in-place update of the
  shared `ethernetSettings` dict is visible. It also holds `update_settings`, the name
  lookup and the URI builders, each with lemmas.

## Model

| member | source | states |
|---|---|---|
| TaskMonitor.Get | hpOneView/resources/task_monitor.py:175-187 | a task with a `uri` costs one request for that uri and yields the appliance's answer; without one, no request is made and the lookup raises (KeyError('uri') for a dict) |
| TaskMonitor.IsTaskRunning | hpOneView/resources/task_monitor.py:158-173 | with a `uri`: exactly one request, and the result is True exactly when the fetched `taskState` is one of the six pending states; without a `uri`: no request, False (TypeError when `in` cannot be applied) |
| TaskMonitor.TaskFailure | hpOneView/resources/task_monitor.py:128-142 | a failed task raises HPOneViewTaskError with a truthy message or 'Unknown Exception', and error code None when there are no `taskErrors`; otherwise the Python error that reading `taskErrors` raises |
| TaskMonitor.ResolveTaskResource | hpOneView/resources/task_monitor.py:207-212 | the TaskResourceV2 branch: a support-dump URI is returned itself without a request, an empty URI gives `{}`, any other string URI is fetched once; the task is returned unchanged, and an error leaves the log as it was |
| TaskMonitor.ResolveBackup | hpOneView/resources/task_monitor.py:214-216 | the BACKUP branch: one request for `taskUri`, then the entity named by that task's `uri` (a second request, or `{}` when empty); the replaced task is the one fetched; a missing `uri` raises KeyError after the first request |
| TaskMonitor.GetAssociatedResource | hpOneView/resources/task_monitor.py:189-225 | a falsy task raises UnknownType(MSG_INVALID_TASK), and a category other than 'tasks'/'backups' raises UnknownType(MSG_UNKNOWN_OBJECT_TYPE); a type other than TaskResourceV2/BACKUP raises InvalidResource carrying that type; all three happen before any request. A support-dump URI is returned without a fetch. BACKUP fetches `taskUri` and then that task's `uri`; an empty URI gives `{}` |
| TaskMonitor.CompletedResponse | hpOneView/resources/task_monitor.py:151-156 | no request; True exactly when the name is 'Delete', otherwise the task itself |
| TaskMonitor.GetTaskResponse | hpOneView/resources/task_monitor.py:126-156 | a missing `taskState` raises KeyError; a failed state raises TaskFailure before any request; a task error comes only from a failed state; a missing `name` raises KeyError; a 'Delete' task gives True; at most two requests are made |
| TaskMonitor.PollUntilSettled | hpOneView/resources/task_monitor.py:113-124 | the loop ends in a PollRun: every poll but the last saw a pending task within the deadline; the last poll saw the task finished, or saw it pending with the sleep after it passing the deadline; the log holds one request per poll and the clock advanced by exactly the sleeps |
| TaskMonitor.TaskMonitor.WaitTaskCompletion | hpOneView/resources/task_monitor.py:104-124 | a falsy task raises UnknownType(MSG_INVALID_TASK) before any request or clock reading; a task without `uri` ends at once; otherwise the wait is a PollRun, and it succeeds or raises Timeout with the formatted message exactly when the run timed out |
| TaskMonitor.TaskMonitor.WaitForTask | hpOneView/resources/task_monitor.py:67-87 | waits; if the wait raised, passes the error on; otherwise fetches the task once more and returns what the resolver makes of that snapshot, with the resolver's log; a timeout implies a limited deadline that passed |
| TaskMonitor.TaskMonitor.GetCompletedTask | hpOneView/resources/task_monitor.py:89-102 | waits, then returns the task as fetched by one more request |
| TaskMonitorProperties.BackoffIsCapped | hpOneView/resources/task_monitor.py:113-122 | the sleep after the n-th pending poll is min(n, 10) seconds |
| TaskMonitorProperties.BackoffNonDecreasing | hpOneView/resources/task_monitor.py:113-122 | the sleeps never shrink, never exceed 10 seconds, and are at least 1 second after a poll |
| TaskMonitorProperties.SleptBounds | hpOneView/resources/task_monitor.py:113-122 | after n pending polls the wait has slept between n and 10n seconds |
| TaskMonitorProperties.SleptClosedForm | hpOneView/resources/task_monitor.py:113-122 | the total sleep is n(n+1)/2 up to ten polls, and then 55 plus 10 seconds per further poll |
| TaskMonitorProperties.PollRunIsDeterministic | hpOneView/resources/task_monitor.py:113-124 | two runs of a wait from the same log agree on the number of polls, the log, the time taken and whether they timed out |
| TaskMonitorProperties.UnlimitedWaitNeverTimesOut | hpOneView/resources/task_monitor.py:123-124 | with timeout -1 the wait never times out, and its last poll saw the task finished |
| TaskMonitorProperties.DeadlineBoundsTheWait | hpOneView/resources/task_monitor.py:114-124 | a limited wait makes at most timeout + 1 requests; when it times out, the deadline has passed by at most 10 seconds |
| TaskMonitorProperties.FinishedTaskIsPolledOnce | hpOneView/resources/task_monitor.py:114-124 | a task already finished costs one request and no sleep, and the wait does not time out |
| TaskMonitorProperties.TaskFailureMessagePriority | hpOneView/resources/task_monitor.py:128-142 | for well-formed `taskErrors`: the message is the first entry's truthy `message`, else a truthy `taskStatus`, else 'Unknown Exception'; the code is the first entry's `errorCode` or None |
| TaskMonitorProperties.ResolverFollowsDecisionTable | hpOneView/resources/task_monitor.py:126-156 | the resolver matches the decision table (error state, then a `Task...` type that is not a delete name, then 'Delete', then anything else), and only association makes requests |
| TaskMonitorProperties.BackupTaskIsNotAssociated | hpOneView/resources/task_monitor.py:146-156 | a finished BACKUP task is never associated by the resolver: it resolves to True or to itself, without a request |
| LogicalInterconnects.WithDefault | hpOneView/resources/networking/logical_interconnects.py:191-194 | the key is added with the default only when absent; an existing value and every other key are unchanged |
| LogicalInterconnects.WithDefaultIsIdempotent | hpOneView/resources/networking/logical_interconnects.py:191-192 | defaulting the same key again changes nothing |
| LogicalInterconnects.WithDefaultExtends | hpOneView/resources/networking/logical_interconnects.py:191-194 | the defaulted dict equals the original exactly when the key was present |
| LogicalInterconnects.UpdateSettings | hpOneView/resources/networking/logical_interconnects.py:190-196 | returns a fresh copy with 'type' defaulted to 'InterconnectSettingsV3' and every other entry unchanged. A shared `ethernetSettings` dict lacking 'type' is changed in place to 'EthernetInterconnectSettingsV3' and is still shared; no other dict changes, and the caller's dict changes only when it is its own `ethernetSettings`. A non-dict `ethernetSettings` without 'type' raises TypeError. The URI is the settings URI |
| LogicalInterconnects.FilterByName | hpOneView/resources/networking/logical_interconnects.py:103 | succeeds exactly when every element is a dict with a `name`; its elements all come from the list and carry the name sought |
| LogicalInterconnects.GetByName | hpOneView/resources/networking/logical_interconnects.py:102-104 | succeeds exactly when every element has a name; a result that is not None is an element with that name |
| LogicalInterconnects.FilterStartsAtFirstMatch | hpOneView/resources/networking/logical_interconnects.py:103-104 | the filtered list begins with the first element whose name matches |
| LogicalInterconnects.FilterWithoutMatchIsEmpty | hpOneView/resources/networking/logical_interconnects.py:103-104 | with no matching element the filtered list is empty |
| LogicalInterconnects.FilterFailsAtFirstUnnamed | hpOneView/resources/networking/logical_interconnects.py:103 | the error is the one of the first element without a name, even when a match came earlier: KeyError for a dict, TypeError otherwise |
| LogicalInterconnects.GetByNameIsFirstMatch | hpOneView/resources/networking/logical_interconnects.py:102-104 | get_by_name returns the first element with the name, None when there is none, or the error of the first unnamed element |
| LogicalInterconnects.LocationRoundTrip | hpOneView/resources/networking/logical_interconnects.py:274-276 | the `Enclosure:` part of the delete URI reads back as the enclosure URI and bay it was built from |
| LogicalInterconnects.DeleteInterconnectUriRoundTrip | hpOneView/resources/networking/logical_interconnects.py:274-276 | the enclosure URI and the bay can be read back from the delete URI, even when the enclosure URI contains ",Bay:" |
| LogicalInterconnects.DeleteInterconnectUriIsInjective | hpOneView/resources/networking/logical_interconnects.py:274-276 | distinct enclosure and bay pairs give distinct delete URIs |
| LogicalInterconnects.SettingsUriDeterminesResource | hpOneView/resources/networking/logical_interconnects.py:196 | two ids with the same settings URI have the same resource URI: the endpoint determines the resource |
| LogicalInterconnects.FirmwareUriDeterminesResource | hpOneView/resources/networking/logical_interconnects.py:304-305 | two ids with the same firmware URI have the same resource URI: the endpoint determines the resource |
| LogicalInterconnects.FirmwareAndSettingsUrisDiffer | hpOneView/resources/networking/logical_interconnects.py:304-305 | the firmware and settings endpoints never coincide, whatever build_uri returns |

## Left out

- Real time, `time.sleep` and `get_current_seconds`: replaced by the integer field `now`, which a sleep of `i` seconds advances by `i`. Time spent in requests is not modelled.
- Logging calls (`logger.debug`, `logger.warning`): they have no effect on results.
- The HTTP connection and `ResourceClient` are not part of this model:
  - the connection is the `Server` oracle, and every response is a JSON object;
  - `build_uri` is a function parameter, taken to be total;
  - `update`, `delete`, `get_all` and `create` are not called. `UpdateSettings` returns the payload and URI it would send, and `GetByName` takes the list that `get_all` returned.
- TaskMonitor.TaskMonitor.WaitTaskCompletion: with timeout -1 it requires that the task eventually leaves the pending states. The source then polls forever, which a terminating method cannot express.
- TaskMonitor.TaskMonitor.WaitForTask: waits through WaitTaskCompletion, so with timeout -1 it carries the same requirement that the task eventually settles.
- TaskMonitor.TaskMonitor.GetCompletedTask: waits through WaitTaskCompletion, so with timeout -1 it carries the same requirement that the task eventually settles.
- TaskMonitor.PollUntilSettled: the loop runs over the log and the clock passed as values. WaitTaskCompletion writes them back to the fields.
- TaskMonitor.GetAssociatedResource: HPOneViewInvalidResource keeps the offending type value itself, not the text `MSG_TASK_TYPE_UNRECONIZED % type`, because `str()` of a JSON value is not modelled.
- `TASK_COMPLETED_STATES` is declared but never consulted by the code, so it only appears as a constant.
- The exception classes of `hpOneView.exceptions` become the `Error` datatype. Only their kind and arguments are kept.
- A task without `uri`: the docstring of `get` only says the task dict must have a 'uri' key. The code behaves as follows, and the model follows it:
  - a falsy task raises HPOneViewUnknownType;
  - a non-empty dict without `uri` passes through the wait without a request;
  - the following `get` then raises KeyError('uri').
- LogicalInterconnects.GetByName: `==` on names is structural equality of JSON values, so Python's `1 == True` is not modelled.
- LogicalInterconnects.DeleteInterconnectUriRoundTrip: the bay is an integer, so `str()` of another kind of bay value is not modelled.
- LogicalInterconnects.UpdateSettings:
  - it requires a dict `ethernetSettings` to be held as `Nested`, the form every Python dict takes, and it then changes that shared dict in place; a dict written as `Leaf(JObj(..))` is not a Python value the model gives meaning to;
  - dicts deeper inside the payload are plain JSON values, which update_settings never changes;
  - the `force` and `timeout` arguments are passed to `update` unchanged, so they are not modelled.
- The other methods of `logical_interconnects.py` only append a path to `build_uri` and pass the call on, and `interconnects.py` and `examples/logical_downlinks.py` only call the client. These are not part of this model.
