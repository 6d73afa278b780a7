/** What the task monitor promises, stated over the model's schedule, poll runs and
    resolver: the sleep schedule, the deadline, the determinism of a wait, the priority
    of a failure's message and the four ways a finished task is resolved. */
module TaskMonitorProperties {
  import opened Json
  import opened Exceptions
  import opened TaskMonitor

  // ------------------------------------------------------------------------
  // The sleep schedule

  /** The n-th pending poll is followed by a sleep of min(n, 10) seconds. */
  lemma {:induction false} BackoffIsCapped(n: nat)
    ensures Backoff(n) == if n < MAX_WAIT then n else MAX_WAIT
  {
    if n > 0 {
      BackoffIsCapped(n - 1);
    }
  }

  /** The sleeps never shrink, and each one after a poll lasts between 1 and 10 seconds. */
  lemma BackoffNonDecreasing(m: nat, n: nat)
    requires m <= n
    ensures Backoff(m) <= Backoff(n) <= MAX_WAIT
    ensures n > 0 ==> 1 <= Backoff(n)
  {
    BackoffIsCapped(m);
    BackoffIsCapped(n);
  }

  /** After n pending polls the wait has slept at least n seconds and at most 10n. */
  lemma {:induction false} SleptBounds(n: nat)
    ensures n <= Slept(n) <= MAX_WAIT * n
  {
    if n > 0 {
      SleptBounds(n - 1);
      BackoffNonDecreasing(n, n);
    }
  }

  /** The total sleep after n pending polls, in closed form: 1 + 2 + ... + n up to ten
      polls, then 10 seconds per further poll. */
  lemma {:induction false} SleptClosedForm(n: nat)
    ensures n <= MAX_WAIT ==> 2 * Slept(n) == n * (n + 1)
    ensures n > MAX_WAIT ==> Slept(n) == 55 + MAX_WAIT * (n - MAX_WAIT)
  {
    if n > 0 {
      SleptClosedForm(n - 1);
      BackoffIsCapped(n);
      if n <= MAX_WAIT {
        assert 2 * Slept(n) == (n - 1) * n + 2 * n;
      }
    }
  }

  // ------------------------------------------------------------------------
  // Runs of the poll loop

  /** A wait is determined by what the appliance answers: two runs from the same log
      poll equally often, leave the same log, take the same time and end the same way. */
  lemma PollRunIsDeterministic(server: Server, uri: Json, timeout: int, before: seq<Json>,
                               polls1: nat, after1: seq<Json>, elapsed1: int, timedOut1: bool,
                               polls2: nat, after2: seq<Json>, elapsed2: int, timedOut2: bool)
    requires PollRun(server, uri, timeout, before, polls1, after1, elapsed1, timedOut1)
    requires PollRun(server, uri, timeout, before, polls2, after2, elapsed2, timedOut2)
    ensures polls1 == polls2 && after1 == after2 && elapsed1 == elapsed2 && timedOut1 == timedOut2
  {
    // the shorter run's last poll is one the longer run kept polling after
    assert polls1 < polls2 ==> KeepsPolling(server, uri, |before|, timeout, polls1);
    assert polls2 < polls1 ==> KeepsPolling(server, uri, |before|, timeout, polls2);
  }

  /** With an unlimited timeout a wait never gives up. */
  lemma UnlimitedWaitNeverTimesOut(server: Server, uri: Json, before: seq<Json>,
                                   polls: nat, after: seq<Json>, elapsed: int, timedOut: bool)
    requires PollRun(server, uri, UNLIMITED_TIMEOUT, before, polls, after, elapsed, timedOut)
    ensures !timedOut && !IsPending(server(uri, |before| + polls))
  {
  }

  /** A limited wait polls at most `timeout + 1` times, and one that gives up does so
      after the deadline and at most 10 seconds past it. */
  lemma DeadlineBoundsTheWait(server: Server, uri: Json, timeout: int, before: seq<Json>,
                              polls: nat, after: seq<Json>, elapsed: int, timedOut: bool)
    requires timeout != UNLIMITED_TIMEOUT
    requires PollRun(server, uri, timeout, before, polls, after, elapsed, timedOut)
    ensures polls <= if timeout < 0 then 0 else timeout
    ensures |after| <= |before| + (if timeout < 0 then 0 else timeout) + 1
    ensures timedOut ==> timeout < elapsed <= (if timeout < 0 then 0 else timeout) + MAX_WAIT
  {
    SleptBounds(polls);
    if polls > 0 {
      assert KeepsPolling(server, uri, |before|, timeout, polls - 1);
      assert Slept(polls) <= timeout;
    }
    BackoffNonDecreasing(polls + 1, polls + 1);
  }

  /** A task that is already finished costs one request and no sleep. */
  lemma FinishedTaskIsPolledOnce(server: Server, uri: Json, timeout: int, before: seq<Json>,
                                 polls: nat, after: seq<Json>, elapsed: int, timedOut: bool)
    requires !IsPending(server(uri, |before|))
    requires PollRun(server, uri, timeout, before, polls, after, elapsed, timedOut)
    ensures polls == 0 && after == before + [uri] && elapsed == 0 && !timedOut
  {
    assert polls > 0 ==> KeepsPolling(server, uri, |before|, timeout, 0);
  }

  // ------------------------------------------------------------------------
  // The failure of a task

  /** The first truthy candidate, or the fallback when none is. */
  function FirstTruthy(candidates: seq<Json>, fallback: Json): (r: Json)
    ensures r == fallback || r in candidates
    ensures r != fallback ==> Truthy(r)
  {
    if |candidates| == 0 then fallback
    else if Truthy(candidates[0]) then candidates[0]
    else FirstTruthy(candidates[1..], fallback)
  }

  /** `taskErrors` is absent, an empty list, or a list whose first entry is a dict. */
  predicate WellFormedErrors(task: Object)
  {
    "taskErrors" in task ==>
      task["taskErrors"].JArr? && (task["taskErrors"].items == [] || task["taskErrors"].items[0].JObj?)
  }

  /** The first entry of a well-formed `taskErrors`, or an empty dict when there is none. */
  function FirstErrorEntry(task: Object): Object
    requires WellFormedErrors(task)
  {
    if "taskErrors" in task && task["taskErrors"].items != [] then task["taskErrors"].items[0].fields
    else map[]
  }

  /** A dict entry, or JNull (Python's None) when the key is missing. */
  function Field(d: Object, key: string): Json
  {
    if key in d then d[key] else JNull
  }

  /** The message priority of a failed task: the first entry's `message` if truthy, else
      a truthy `taskStatus`, else 'Unknown Exception'; the code is the first entry's
      `errorCode`, or None. */
  lemma TaskFailureMessagePriority(task: Object)
    requires WellFormedErrors(task)
    ensures var entry := FirstErrorEntry(task);
            TaskFailure(task)
              == TaskError(FirstTruthy([Field(entry, "message"), Field(task, "taskStatus")], JStr(MSG_UNKNOWN_EXCEPTION)),
                           Field(entry, "errorCode"))
  {
  }

  // ------------------------------------------------------------------------
  // Resolving a finished task

  /** The four outcomes of `__get_task_response`. */
  datatype Resolution = RaisesTaskError | ReturnsTrue | ReturnsAssociated | ReturnsTask

  /** The resolver's decision table for a task with a state, a name and, optionally, a
      string type: an error state other than 'Warning' raises; a `Task...` type that is
      not a deletion is associated; a 'Delete' returns True; anything else is returned. */
  function Decide(state: Json, name: Json, taskType: Option<string>): Resolution
  {
    if state in [JStr("Error"), JStr("Terminated"), JStr("Killed")] then RaisesTaskError
    else if taskType.Some? && "Task" <= taskType.value
            && name !in [JStr("Delete"), JStr("Remove"), JStr("Delete server hardware type")]
    then ReturnsAssociated
    else if name == JStr("Delete") then ReturnsTrue
    else ReturnsTask
  }

  /** The resolver follows the decision table: only an association makes requests, and
      its result is the entity that get_associated_resource returns. */
  lemma ResolverFollowsDecisionTable(task: Object, server: Server, log: seq<Json>)
    requires "taskState" in task && "name" in task && ("type" in task ==> task["type"].JStr?)
    ensures var r := GetTaskResponse(task, server, log);
            match Decide(task["taskState"], task["name"], if "type" in task then Some(task["type"].s) else None)
            case RaisesTaskError => r == Reply(Err(TaskFailure(task)), log)
            case ReturnsTrue => r == Reply(Ok(JBool(true)), log)
            case ReturnsTask => r == Reply(Ok(JObj(task)), log)
            case ReturnsAssociated =>
              var a := GetAssociatedResource(JObj(task), server, log);
              r == Reply(if a.result.Ok? then Ok(a.result.value.1) else Err(a.result.error), a.log)
  {
  }

  /** A finished BACKUP task is never associated by the resolver: 'BACKUP' does not start
      with 'Task', so it resolves to True or to the task itself, without a request. */
  lemma BackupTaskIsNotAssociated(task: Object, server: Server, log: seq<Json>)
    requires "taskState" in task && !IsFailedState(task) && "name" in task
    requires "type" in task && task["type"] == JStr("BACKUP")
    ensures var r := GetTaskResponse(task, server, log);
            r.log == log && (r.result == Ok(JBool(true)) || r.result == Ok(JObj(task)))
  {
    assert !("Task" <= "BACKUP") by {
      assert "BACKUP"[0] != "Task"[0];
    }
    ResolverFollowsDecisionTable(task, server, log);
  }
}
