/** The task-completion tracker: it waits until an asynchronous appliance task
    leaves the pending states, then turns the finished task into the caller's
    result (the affected resource, `True` for a deletion, the raw task, or an error). */
module TaskMonitor {
  import opened Json
  import opened Exceptions
  import opened PyOps
  import Text

  // ------------------------------------------------------------------------
  // State vocabulary, names and messages

  const TASK_PENDING_STATES: seq<Json> :=
    [JStr("New"), JStr("Starting"), JStr("Pending"), JStr("Running"), JStr("Suspended"), JStr("Stopping")]
  const TASK_ERROR_STATES: seq<Json> := [JStr("Error"), JStr("Warning"), JStr("Terminated"), JStr("Killed")]
  /** Declared beside the other two state lists; the monitor itself never consults it. */
  const TASK_COMPLETED_STATES: seq<Json> :=
    [JStr("Error"), JStr("Warning"), JStr("Completed"), JStr("Terminated"), JStr("Killed")]

  /** Task names that mark a delete-style operation. */
  const DELETE_TASK_NAMES: seq<Json> := [JStr("Delete"), JStr("Remove"), JStr("Delete server hardware type")]
  const SUPPORT_DUMPS_PREFIX := "/rest/appliance/support-dumps/"

  const MSG_UNKNOWN_OBJECT_TYPE := "Unknown object type"
  const MSG_UNKNOWN_EXCEPTION := "Unknown Exception"
  const MSG_INVALID_TASK := "Invalid task was provided"

  /** The timeout value meaning "wait for as long as it takes". */
  const UNLIMITED_TIMEOUT := -1
  /** The ceiling of the wait between two polls, in seconds. */
  const MAX_WAIT := 10

  /** MSG_TIMEOUT with the configured timeout filled in. */
  function TimeoutMessage(timeout: int): string
  {
    "Waited " + Text.IntToString(timeout) + " seconds for task to complete, aborting"
  }

  // ------------------------------------------------------------------------
  // The connection

  /** The appliance as the monitor sees it: the object it returns to the n-th
      request of the session (counting from 0) when that request is for `uri`. */
  type Server = (Json, nat) -> Object

  /** A result together with the session's request log after the operation. */
  datatype Reply<T> = Reply(result: Result<T>, log: seq<Json>)

  predicate HasUri(task: Json)
  {
    task.JObj? && "uri" in task.fields
  }

  function UriOf(task: Json): Json
    requires HasUri(task)
  {
    task.fields["uri"]
  }

  /** `get`: re-fetch a task by its `uri`. */
  function Get(task: Json, server: Server, log: seq<Json>): (r: Reply<Object>)
    ensures HasUri(task) ==> r == Reply(Ok(server(UriOf(task), |log|)), log + [UriOf(task)])
    ensures !HasUri(task) ==> r.log == log && r.result.Err?
    ensures !HasUri(task) && task.JObj? ==> r.result == Err(KeyError(JStr("uri")))
  {
    match Subscript(task, "uri")
    case Err(e) => Reply(Err(e), log)
    case Ok(uri) => Reply(Ok(server(uri, |log|)), log + [uri])
  }

  /** Python's `x in xs` on a list: a linear search for an equal element. */
  predicate Among(x: Json, xs: seq<Json>)
  {
    |xs| > 0 && (x == xs[0] || Among(x, xs[1..]))
  }

  /** A task snapshot whose `taskState` is one of the pending states. */
  predicate IsPending(snapshot: Object)
  {
    "taskState" in snapshot && Among(snapshot["taskState"], TASK_PENDING_STATES)
  }

  /** `is_task_running`: fetch the task once and report whether it is still pending;
      a task without a `uri` is reported as not running, without a request. */
  function IsTaskRunning(task: Json, server: Server, log: seq<Json>): (r: Reply<bool>)
    ensures HasUri(task) ==>
              r == Reply(Ok(IsPending(server(UriOf(task), |log|))), log + [UriOf(task)])
    ensures !HasUri(task) ==> r.log == log
    ensures !HasUri(task) ==> r.result == (if In("uri", task) == Ok(false) then Ok(false) else Err(TypeError))
  {
    match In("uri", task)
    case Err(e) => Reply(Err(e), log)
    case Ok(hasUri) =>
      if !hasUri then Reply(Ok(false), log)
      else
        var fetched := Get(task, server, log);
        match fetched.result
        case Err(e) => Reply(Err(e), fetched.log)
        case Ok(current) => Reply(Ok(IsPending(current)), fetched.log)
  }

  // ------------------------------------------------------------------------
  // Resolving a finished task

  /** A task whose state is an error state other than 'Warning'. */
  predicate IsFailedState(task: Object)
  {
    "taskState" in task && task["taskState"] in TASK_ERROR_STATES && task["taskState"] != JStr("Warning")
  }

  /** `msg` and `error_code` as read from the first entry of `taskErrors`
      (JNull for None), or the Python error that reading them raises. */
  function FirstTaskError(task: Object): Result<(Json, Json)>
  {
    if "taskErrors" !in task then Ok((JNull, JNull))
    else
      var errors := task["taskErrors"];
      var count :- Len(errors);
      if count == 0 then Ok((JNull, JNull))
      else
        var err :- Index0(errors);
        var hasMessage :- In("message", err);
        var msg :- if hasMessage then Subscript(err, "message") else Ok(JNull);
        var code :- DictGet(err, "errorCode");
        Ok((msg, code))
  }

  /** The exception raised for a failed task: an HPOneViewTaskError whose message is
      never empty, unless reading `taskErrors` itself fails. */
  function TaskFailure(task: Object): (e: Error)
    ensures e.TaskError? || e.KeyError? || e == TypeError || e == AttributeError
    ensures e.TaskError? ==> Truthy(e.reason) || e.reason == JStr(MSG_UNKNOWN_EXCEPTION)
    ensures e.TaskError? && "taskErrors" !in task ==> e.errorCode == JNull
  {
    match FirstTaskError(task)
    case Err(e) => e
    case Ok((msg, code)) =>
      if Truthy(msg) then TaskError(msg, code)
      else if "taskStatus" in task && Truthy(task["taskStatus"]) then TaskError(task["taskStatus"], code)
      else TaskError(JStr(MSG_UNKNOWN_EXCEPTION), code)
  }

  /** `task['associatedResource']['resourceUri']`, when both lookups succeed. */
  function AssociatedResourceUri(task: Object): Option<Json>
  {
    if "associatedResource" in task && task["associatedResource"].JObj?
       && "resourceUri" in task["associatedResource"].fields
    then Some(task["associatedResource"].fields["resourceUri"])
    else None
  }

  predicate SupportedCategory(category: Json)
  {
    category == JStr("tasks") || category == JStr("backups")
  }

  /** A task whose category is supported and whose type is the given one. */
  predicate HasKind(task: Json, taskType: string)
  {
    task.JObj? && "category" in task.fields && SupportedCategory(task.fields["category"])
    && "type" in task.fields && task.fields["type"] == JStr(taskType)
  }

  /** The tail of get_associated_resource: `{}` for an empty URI, otherwise the fetched entity. */
  function FetchEntity(task: Json, resourceUri: Json, server: Server, log: seq<Json>): Reply<(Json, Json)>
  {
    if Truthy(resourceUri) then Reply(Ok((task, JObj(server(resourceUri, |log|)))), log + [resourceUri])
    else Reply(Ok((task, JObj(map[]))), log)
  }

  /** The TaskResourceV2 branch of get_associated_resource: the support-dump URI itself,
      or the entity behind `associatedResource.resourceUri`. */
  function ResolveTaskResource(task: Json, server: Server, log: seq<Json>): (r: Reply<(Json, Json)>)
    ensures r.result.Err? ==> r.log == log && !r.result.error.IsLibraryError()
    ensures r.result.Ok? ==> r.result.value.0 == task
    ensures r.log == log || (r.result.Ok? && |r.log| == |log| + 1 && r.log[..|log|] == log)
    ensures task.JObj? && AssociatedResourceUri(task.fields).Some? ==>
              var uri := AssociatedResourceUri(task.fields).value;
              if uri.JStr? && SUPPORT_DUMPS_PREFIX <= uri.s then r == Reply(Ok((task, uri)), log)
              else if !Truthy(uri) then r == Reply(Ok((task, JObj(map[]))), log)
              else if uri.JStr? then r == Reply(Ok((task, JObj(server(uri, |log|)))), log + [uri])
              else r == Reply(Err(AttributeError), log)
  {
    match Subscript(task, "associatedResource")
    case Err(e) => Reply(Err(e), log)
    case Ok(associated) =>
      match Subscript(associated, "resourceUri")
      case Err(e) => Reply(Err(e), log)
      case Ok(resourceUri) =>
        if Truthy(resourceUri) then
          match StartsWith(resourceUri, SUPPORT_DUMPS_PREFIX)
          case Err(e) => Reply(Err(e), log)
          case Ok(isSupportDump) =>
            if isSupportDump then Reply(Ok((task, resourceUri)), log)
            else FetchEntity(task, resourceUri, server, log)
        else FetchEntity(task, resourceUri, server, log)
  }

  /** The BACKUP branch of get_associated_resource: fetch the task behind `taskUri`, then
      the entity that task names in its `uri`. */
  function ResolveBackup(task: Json, server: Server, log: seq<Json>): (r: Reply<(Json, Json)>)
    ensures r.result.Err? ==> !r.result.error.IsLibraryError()
    ensures !(task.JObj? && "taskUri" in task.fields) ==> r == Reply(Err(if task.JObj? then KeyError(JStr("taskUri")) else TypeError), log)
    ensures task.JObj? && "taskUri" in task.fields ==>
              var taskUri := task.fields["taskUri"];
              var backup := server(taskUri, |log|);
              if "uri" !in backup then r == Reply(Err(KeyError(JStr("uri"))), log + [taskUri])
              else if Truthy(backup["uri"]) then
                r == Reply(Ok((JObj(backup), JObj(server(backup["uri"], |log| + 1)))), log + [taskUri, backup["uri"]])
              else r == Reply(Ok((JObj(backup), JObj(map[]))), log + [taskUri])
  {
    match Subscript(task, "taskUri")
    case Err(e) => Reply(Err(e), log)
    case Ok(taskUri) =>
      var backup := server(taskUri, |log|);
      match Lookup(backup, "uri")
      case Err(e) => Reply(Err(e), log + [taskUri])
      case Ok(resourceUri) => FetchEntity(JObj(backup), resourceUri, server, log + [taskUri])
  }

  /** `get_associated_resource`: the (possibly replaced) task and the entity it affected. */
  function GetAssociatedResource(task: Json, server: Server, log: seq<Json>): (r: Reply<(Json, Json)>)
    // an empty task, an unsupported category or an unknown type is refused before any request
    ensures !Truthy(task) ==> r == Reply(Err(UnknownType(MSG_INVALID_TASK)), log)
    ensures (Truthy(task) && task.JObj? && "category" in task.fields && !SupportedCategory(task.fields["category"]))
              ==> r == Reply(Err(UnknownType(MSG_UNKNOWN_OBJECT_TYPE)), log)
    ensures (&& Truthy(task) && task.JObj? && "category" in task.fields && SupportedCategory(task.fields["category"])
             && "type" in task.fields && task.fields["type"] !in [JStr("TaskResourceV2"), JStr("BACKUP")])
              ==> r == Reply(Err(InvalidResource(task.fields["type"])), log)
    ensures r.result.Ok? ==> HasKind(task, "TaskResourceV2") || HasKind(task, "BACKUP")
    ensures r.result.Err? ==> !r.result.error.TaskError? && !r.result.error.Timeout?
    // TaskResourceV2: the support-dump URI itself, `{}`, or the one fetched resource
    ensures HasKind(task, "TaskResourceV2") && AssociatedResourceUri(task.fields).Some? ==>
              var uri := AssociatedResourceUri(task.fields).value;
              if uri.JStr? && SUPPORT_DUMPS_PREFIX <= uri.s then r == Reply(Ok((task, uri)), log)
              else if !Truthy(uri) then r == Reply(Ok((task, JObj(map[]))), log)
              else if uri.JStr? then r == Reply(Ok((task, JObj(server(uri, |log|)))), log + [uri])
              else r == Reply(Err(AttributeError), log)
    ensures HasKind(task, "TaskResourceV2") ==> r.log == log || (r.result.Ok? && |r.log| == |log| + 1 && r.log[..|log|] == log)
    // BACKUP: first the task behind `taskUri`, then the resource that task names in its `uri`
    ensures HasKind(task, "BACKUP") && "taskUri" in task.fields ==>
              var taskUri := task.fields["taskUri"];
              var backup := server(taskUri, |log|);
              if "uri" !in backup then r == Reply(Err(KeyError(JStr("uri"))), log + [taskUri])
              else if Truthy(backup["uri"]) then
                r == Reply(Ok((JObj(backup), JObj(server(backup["uri"], |log| + 1)))), log + [taskUri, backup["uri"]])
              else r == Reply(Ok((JObj(backup), JObj(map[]))), log + [taskUri])
  {
    if !Truthy(task) then Reply(Err(UnknownType(MSG_INVALID_TASK)), log)
    else match Subscript(task, "category")
    case Err(e) => Reply(Err(e), log)
    case Ok(category) =>
      if category != JStr("tasks") && category != JStr("backups") then
        Reply(Err(UnknownType(MSG_UNKNOWN_OBJECT_TYPE)), log)
      else match Subscript(task, "type")
      case Err(e) => Reply(Err(e), log)
      case Ok(taskType) =>
        if taskType == JStr("TaskResourceV2") then
          ResolveTaskResource(task, server, log)
        else if taskType == JStr("BACKUP") then
          ResolveBackup(task, server, log)
        else Reply(Err(InvalidResource(taskType)), log)
  }

  /** The last two branches of the resolver: `True` for a 'Delete' task, else the task itself. */
  function CompletedResponse(task: Object, name: Json, log: seq<Json>): (r: Reply<Json>)
    ensures r.log == log && r.result.Ok?
    ensures r.result.value == JBool(true) <==> name == JStr("Delete")
    ensures name != JStr("Delete") ==> r.result.value == JObj(task)
  {
    if name == JStr("Delete") then Reply(Ok(JBool(true)), log) else Reply(Ok(JObj(task)), log)
  }

  /** `__get_task_response`: classify a finished task. */
  function GetTaskResponse(task: Object, server: Server, log: seq<Json>): (r: Reply<Json>)
    ensures "taskState" !in task ==> r == Reply(Err(KeyError(JStr("taskState"))), log)
    // a failed task always raises, before any request
    ensures IsFailedState(task) ==> r == Reply(Err(TaskFailure(task)), log)
    // a task error comes from a failed state only: 'Warning' and 'Completed' never raise one
    ensures r.result.Err? && r.result.error.TaskError? ==> IsFailedState(task)
    ensures r.result.Err? ==> !r.result.error.Timeout?
    // `name` is read before it is tested for
    ensures ("taskState" in task && !IsFailedState(task) && "name" !in task)
              ==> r == Reply(Err(KeyError(JStr("name"))), log)
    ensures (&& "taskState" in task && !IsFailedState(task) && "name" in task && task["name"] == JStr("Delete")
             && ("type" !in task || task["type"].JStr?))
              ==> r == Reply(Ok(JBool(true)), log)
    // at most the two requests of an association
    ensures |log| <= |r.log| <= |log| + 2 && r.log[..|log|] == log
  {
    match Lookup(task, "taskState")
    case Err(e) => Reply(Err(e), log)
    case Ok(state) =>
      if state in TASK_ERROR_STATES && state != JStr("Warning") then Reply(Err(TaskFailure(task)), log)
      else match Lookup(task, "name")
      case Err(e) => Reply(Err(e), log)
      case Ok(name) =>
        var deletedResource := name in DELETE_TASK_NAMES;
        if "type" in task then
          match StartsWith(task["type"], "Task")
          case Err(e) => Reply(Err(e), log)
          case Ok(isTaskType) =>
            // `'name' in task` holds here: the name was read above
            if isTaskType && !deletedResource then
              var associated := GetAssociatedResource(JObj(task), server, log);
              match associated.result
              case Err(e) => Reply(Err(e), associated.log)
              case Ok((_, entity)) => Reply(Ok(entity), associated.log)
            else CompletedResponse(task, name, log)
        else CompletedResponse(task, name, log)
  }

  // ------------------------------------------------------------------------
  // The polling schedule

  /** The counter update between two polls: `i + 1 if i < 10 else 10`. */
  function NextWait(i: nat): nat
  {
    if i < MAX_WAIT then i + 1 else MAX_WAIT
  }

  /** The counter after n pending polls; it starts at 0 and is also the seconds slept after the n-th. */
  function Backoff(n: nat): nat
  {
    if n == 0 then 0 else NextWait(Backoff(n - 1))
  }

  /** The seconds slept in total after n pending polls. */
  function Slept(n: nat): nat
  {
    if n == 0 then 0 else Slept(n - 1) + Backoff(n)
  }

  /** `timeout != UNLIMITED_TIMEOUT and start_time + timeout < now`, with elapsed = now - start_time. */
  predicate DeadlinePassed(timeout: int, elapsed: int)
  {
    timeout != UNLIMITED_TIMEOUT && timeout < elapsed
  }

  /** Poll number m (from 0) of a wait that started with `base` requests in the log
      saw a pending task and the deadline had not passed after the sleep that followed. */
  predicate KeepsPolling(server: Server, uri: Json, base: nat, timeout: int, m: nat)
  {
    IsPending(server(uri, base + m)) && !DeadlinePassed(timeout, Slept(m + 1))
  }

  /** Each of the first n polls of a wait kept it polling. */
  predicate KeptPolling(server: Server, uri: Json, base: nat, timeout: int, n: nat)
  {
    forall m: nat :: m < n ==> KeepsPolling(server, uri, base, timeout, m)
  }

  /** Some request from index `from` on finds the task no longer pending. */
  ghost predicate EventuallySettles(server: Server, uri: Json, from: nat)
  {
    exists n: nat :: from <= n && !IsPending(server(uri, n))
  }

  function Repeat(uri: Json, count: nat): (s: seq<Json>)
    ensures |s| == count && forall k :: 0 <= k < count ==> s[k] == uri
  {
    seq(count, _ => uri)
  }

  /** The log after a wait that polled `polls + 1` times. */
  function PollLog(before: seq<Json>, uri: Json, polls: nat): seq<Json>
  {
    before + Repeat(uri, polls + 1)
  }

  /** What a wait on `uri` did: it polled polls + 1 times and continued after each of
      the first `polls` polls; then either the last poll found the task finished, after
      Slept(polls) seconds, or it found the task pending and the sleep that followed took
      the wait past its deadline (`timedOut`). */
  predicate PollRun(server: Server, uri: Json, timeout: int, before: seq<Json>,
                    polls: nat, after: seq<Json>, elapsed: int, timedOut: bool)
  {
    && after == PollLog(before, uri, polls)
    && KeptPolling(server, uri, |before|, timeout, polls)
    && timedOut == IsPending(server(uri, |before| + polls))
    && if timedOut then DeadlinePassed(timeout, Slept(polls + 1)) && elapsed == Slept(polls + 1)
       else elapsed == Slept(polls)
  }

  /** The schedule one poll further on. */
  lemma ScheduleStep(n: nat)
    ensures Backoff(n + 1) == NextWait(Backoff(n))
    ensures Slept(n + 1) == Slept(n) + Backoff(n + 1)
  {
  }

  /** A poll that finds the task pending is not the one that finds it settled. */
  lemma BeforeSettling(server: Server, uri: Json, k: nat, settle: nat)
    requires IsPending(server(uri, k)) && !IsPending(server(uri, settle)) && k <= settle
    ensures k < settle
  {
  }

  /** The loop's state after `polls` pending polls: the log, the backoff counter and
      the clock, and every one of those polls kept the wait going. */
  predicate Waiting(server: Server, uri: Json, timeout: int, before: seq<Json>, startTime: int,
                    polls: nat, requests: seq<Json>, clock: int, i: nat)
  {
    && requests == PollLog(before, uri, polls)
    && i == Backoff(polls)
    && clock == startTime + Slept(polls)
    && KeptPolling(server, uri, |before|, timeout, polls)
  }

  lemma WaitingStep(server: Server, uri: Json, timeout: int, before: seq<Json>, startTime: int,
                    polls: nat, requests: seq<Json>, clock: int, i: nat)
    requires Waiting(server, uri, timeout, before, startTime, polls, requests, clock - i, Backoff(polls))
    requires i == NextWait(Backoff(polls))
    requires IsPending(server(uri, |before| + polls)) && !DeadlinePassed(timeout, clock - startTime)
    ensures Waiting(server, uri, timeout, before, startTime, polls + 1, requests + [uri], clock, i)
    ensures |requests| == |before| + polls + 1
  {
    PollStep(server, uri, timeout, before, polls);
  }

  /** One more pending poll, with the deadline not passed after the sleep, extends the run. */
  lemma PollStep(server: Server, uri: Json, timeout: int, before: seq<Json>, polls: nat)
    requires KeptPolling(server, uri, |before|, timeout, polls)
    requires IsPending(server(uri, |before| + polls)) && !DeadlinePassed(timeout, Slept(polls + 1))
    ensures KeptPolling(server, uri, |before|, timeout, polls + 1)
    ensures PollLog(before, uri, polls) + [uri] == PollLog(before, uri, polls + 1)
  {
    assert Repeat(uri, polls + 1) + [uri] == Repeat(uri, polls + 2);
  }

  /** The loop of `__wait_task_completion` for a task with a `uri`, started at clock
      reading `startTime` with `before` as the request log: it returns whether it stopped
      because the deadline passed, the log and the clock reading when it stopped. */
  method PollUntilSettled(server: Server, task: Json, timeout: int, before: seq<Json>, startTime: int)
    returns (timedOut: bool, ghost polls: nat, requests: seq<Json>, clock: int)
    requires HasUri(task)
    requires timeout == UNLIMITED_TIMEOUT ==> EventuallySettles(server, UriOf(task), |before|)
    ensures PollRun(server, UriOf(task), timeout, before, polls, requests, clock - startTime, timedOut)
  {
    ghost var uri := UriOf(task);
    ghost var settle: nat := 0;
    if timeout == UNLIMITED_TIMEOUT {
      settle :| |before| <= settle && !IsPending(server(uri, settle));
    }
    clock := startTime;
    var i: nat := 0;
    polls := 0;
    timedOut := false;
    var running := IsTaskRunning(task, server, before);
    requests := running.log;
    while running.result == Ok(true)
      invariant Waiting(server, uri, timeout, before, startTime, polls, requests, clock, i)
      invariant running.result == Ok(IsPending(server(uri, |before| + polls)))
      invariant timeout == UNLIMITED_TIMEOUT ==> |before| + polls <= settle
      decreases if timeout == UNLIMITED_TIMEOUT then settle - |before| - polls else startTime + timeout - clock
    {
      if timeout == UNLIMITED_TIMEOUT {
        BeforeSettling(server, uri, |before| + polls, settle);
      }
      ScheduleStep(polls);
      i := if i < MAX_WAIT then i + 1 else MAX_WAIT;
      clock := clock + i;  // time.sleep(i), then get_current_seconds()
      if timeout != UNLIMITED_TIMEOUT && startTime + timeout < clock {
        timedOut := true;
        break;
      }
      WaitingStep(server, uri, timeout, before, startTime, polls, requests, clock, i);
      running := IsTaskRunning(task, server, requests);
      requests := running.log;
      polls := polls + 1;
    }
  }

  // ------------------------------------------------------------------------
  // The monitor

  class TaskMonitor {
    /** The connection: what the appliance answers to each request. */
    const server: Server
    /** The URIs requested so far, in order. */
    var log: seq<Json>
    /** The clock `get_current_seconds` reads, in whole seconds. */
    var now: int

    constructor (server: Server, now: int)
      ensures this.server == server && log == [] && this.now == now
    {
      this.server := server;
      log := [];
      this.now := now;
    }

    /** `__wait_task_completion`: poll until the task is no longer pending, sleeping
        1, 2, ... up to 10 seconds between polls, and give up once the deadline has passed. */
    method WaitTaskCompletion(task: Json, timeout: int) returns (r: Result<()>, ghost polls: nat)
      requires timeout == UNLIMITED_TIMEOUT && HasUri(task) ==> EventuallySettles(server, UriOf(task), |log|)
      modifies this
      ensures !Truthy(task) ==> r == Err(UnknownType(MSG_INVALID_TASK)) && log == old(log) && now == old(now)
      ensures Truthy(task) && !HasUri(task) ==>
                && log == old(log) && now == old(now)
                && r == (if In("uri", task) == Ok(false) then Ok(()) else Err(TypeError))
      ensures HasUri(task) ==>
                && (r == Ok(()) || r == Err(Timeout(TimeoutMessage(timeout))))
                && PollRun(server, UriOf(task), timeout, old(log), polls, log, now - old(now), r.Err?)
    {
      polls := 0;
      if !Truthy(task) {
        r := Err(UnknownType(MSG_INVALID_TASK));
        return;
      }
      if !HasUri(task) {
        // is_task_running answers without a request, so the loop is never entered
        var running := IsTaskRunning(task, server, log);
        r := if running.result.Err? then Err(running.result.error) else Ok(());
        return;
      }
      var timedOut;
      timedOut, polls, log, now := PollUntilSettled(server, task, timeout, log, now);
      r := if timedOut then Err(Timeout(TimeoutMessage(timeout))) else Ok(());
    }

    /** `wait_for_task`: wait, fetch the task once more and resolve it. */
    method WaitForTask(task: Json, timeout: int) returns (r: Result<Json>, ghost polls: nat, ghost completion: Result<()>)
      requires timeout == UNLIMITED_TIMEOUT && HasUri(task) ==> EventuallySettles(server, UriOf(task), |log|)
      modifies this
      ensures !Truthy(task) ==> r == Err(UnknownType(MSG_INVALID_TASK)) && log == old(log) && now == old(now)
      ensures Truthy(task) && !HasUri(task) ==> r.Err? && log == old(log) && now == old(now)
      ensures Truthy(task) && task.JObj? && !HasUri(task) ==> r == Err(KeyError(JStr("uri")))
      ensures HasUri(task) ==>
                PollRun(server, UriOf(task), timeout, old(log), polls, PollLog(old(log), UriOf(task), polls),
                        now - old(now), completion.Err?)
      ensures HasUri(task) && completion.Err? ==>
                r == Err(completion.error) && log == PollLog(old(log), UriOf(task), polls)
      ensures HasUri(task) && completion.Ok? ==>
                var mid := PollLog(old(log), UriOf(task), polls);
                var resolved := GetTaskResponse(server(UriOf(task), |mid|), server, mid + [UriOf(task)]);
                r == resolved.result && log == resolved.log
      ensures r.Err? && r.error.Timeout? ==> timeout != UNLIMITED_TIMEOUT && old(now) + timeout < now
    {
      var waited;
      waited, polls := WaitTaskCompletion(task, timeout);
      completion := waited;
      if waited.Err? {
        r := Err(waited.error);
        return;
      }
      var fetched := Get(task, server, log);
      log := fetched.log;
      if fetched.result.Err? {
        r := Err(fetched.result.error);
        return;
      }
      var resolved := GetTaskResponse(fetched.result.value, server, log);
      log := resolved.log;
      r := resolved.result;
    }

    /** `get_completed_task`: wait, then return the task as fetched once more. */
    method GetCompletedTask(task: Json, timeout: int) returns (r: Result<Object>, ghost polls: nat, ghost completion: Result<()>)
      requires timeout == UNLIMITED_TIMEOUT && HasUri(task) ==> EventuallySettles(server, UriOf(task), |log|)
      modifies this
      ensures !Truthy(task) ==> r == Err(UnknownType(MSG_INVALID_TASK)) && log == old(log) && now == old(now)
      ensures Truthy(task) && !HasUri(task) ==> r.Err? && log == old(log) && now == old(now)
      ensures Truthy(task) && task.JObj? && !HasUri(task) ==> r == Err(KeyError(JStr("uri")))
      ensures HasUri(task) ==>
                PollRun(server, UriOf(task), timeout, old(log), polls, PollLog(old(log), UriOf(task), polls),
                        now - old(now), completion.Err?)
      ensures HasUri(task) && completion.Err? ==>
                r == Err(completion.error) && log == PollLog(old(log), UriOf(task), polls)
      ensures HasUri(task) && completion.Ok? ==>
                var mid := PollLog(old(log), UriOf(task), polls);
                r == Ok(server(UriOf(task), |mid|)) && log == mid + [UriOf(task)]
    {
      var waited;
      waited, polls := WaitTaskCompletion(task, timeout);
      completion := waited;
      if waited.Err? {
        r := Err(waited.error);
        return;
      }
      var fetched := Get(task, server, log);
      log := fetched.log;
      r := fetched.result;
    }
  }
}
