/**
 * The older task entity and factory: a task that keeps the times it was
 * started and stopped, with `start`, `kill`, `complete` and `fail`.
 */
module DomainAsync {
  import opened Values
  import Domain

  /** The attributes of the older `Task`, as a value. */
  datatype TaskRecord = TaskRecord(
    taskId: Value,
    status: Value,
    message: Value,
    request: Option<Domain.Request>,
    parameters: Value,
    result: Value,
    createdAt: Value,
    updatedAt: Value,
    startedAt: Value,
    stoppedAt: Value)

  /** The constructor's only check: the status must be one of the four task statuses. */
  function StatusCheck(status: Value): (o: Outcome<Error>)
    ensures o == Pass <==> status in Domain.TaskStatuses
    ensures o.Fail? ==> o.error == InvalidTaskStatus(status)
  {
    if status in Domain.TaskStatuses then Pass else Fail(InvalidTaskStatus(status))
  }

  /** The runner a task hands itself to; the ghost counters record the calls. */
  class Runner {
    ghost var runs: nat
    ghost var kills: nat

    constructor ()
      ensures runs == 0 && kills == 0
    {
      runs, kills := 0, 0;
    }

    method Run(task: Task)
      modifies this
      ensures runs == old(runs) + 1 && kills == old(kills)
    {
      runs := runs + 1;
    }

    method Kill(task: Task)
      modifies this
      ensures kills == old(kills) + 1 && runs == old(runs)
    {
      kills := kills + 1;
    }
  }

  /** The message `kill` records when it is given none. */
  const ForcedQuitMessage: string := "Task was forced to quit."

  class Task {
    var taskId: Value
    var status: Value
    var message: Value
    var request: Option<Domain.Request>
    var parameters: Value
    var result: Value
    var createdAt: Value
    var updatedAt: Value
    var startedAt: Value
    var stoppedAt: Value
    var runner: Runner?

    function State(): TaskRecord
      reads this
    {
      TaskRecord(taskId, status, message, request, parameters, result, createdAt, updatedAt, startedAt, stoppedAt)
    }

    constructor (init: TaskRecord, runner: Runner?)
      requires StatusCheck(init.status) == Pass
      ensures State() == init && this.runner == runner
    {
      taskId, status, message, request, parameters := init.taskId, init.status, init.message, init.request, init.parameters;
      result, createdAt, updatedAt, startedAt, stoppedAt := init.result, init.createdAt, init.updatedAt, init.startedAt, init.stoppedAt;
      this.runner := runner;
    }

    /**
     * `start`: status `inprogress` and `started_at` stamped, then the runner
     * runs the task; without a runner the call raises AttributeError after
     * both have changed.
     */
    method Start(now: Value) returns (o: Outcome<Error>)
      modifies this, runner
      ensures State() == old(State()).(status := JStr("inprogress"), startedAt := now) && runner == old(runner)
      ensures old(runner) == null ==> o == Outcome.Fail(AttributeError("NoneType", "run"))
      ensures old(runner) != null ==> o == Pass && runner.runs == old(runner.runs) + 1 && runner.kills == old(runner.kills)
    {
      status := JStr("inprogress");
      startedAt := now;
      if runner == null {
        return Outcome.Fail(AttributeError("NoneType", "run"));
      }
      runner.Run(this);
      return Pass;
    }

    /**
     * `kill`: status `failure` from any state, with the given message or,
     * when that is falsy, the forced-quit message; then the runner kills the
     * task.  The timestamps are not touched.
     */
    method Kill(message: Value) returns (o: Outcome<Error>)
      modifies this, runner
      ensures State() == old(State()).(status := JStr("failure"), message := Or(message, JStr(ForcedQuitMessage)))
      ensures runner == old(runner)
      ensures old(runner) == null ==> o == Outcome.Fail(AttributeError("NoneType", "kill"))
      ensures old(runner) != null ==> o == Pass && runner.kills == old(runner.kills) + 1 && runner.runs == old(runner.runs)
    {
      status := JStr("failure");
      this.message := Or(message, JStr(ForcedQuitMessage));
      if runner == null {
        return Outcome.Fail(AttributeError("NoneType", "kill"));
      }
      runner.Kill(this);
      return Pass;
    }

    /** `complete`: status `success`, the result, and `stopped_at`; `started_at` is kept. */
    method Complete(result: Value, now: Value)
      modifies this`status, this`result, this`stoppedAt
      ensures State() == old(State()).(status := JStr("success"), result := result, stoppedAt := now)
    {
      status := JStr("success");
      this.result := result;
      stoppedAt := now;
    }

    /** `fail`: status `failure`, the message, and `stopped_at`; `started_at` is kept. */
    method Fail(message: Value, now: Value)
      modifies this`status, this`message, this`stoppedAt
      ensures State() == old(State()).(status := JStr("failure"), message := message, stoppedAt := now)
    {
      status := JStr("failure");
      this.message := message;
      stoppedAt := now;
    }
  }

  /** `Task(...)`: the status check, then the task. */
  method NewTaskObject(init: TaskRecord, runner: Runner?) returns (r: Result<Task, Error>)
    ensures StatusCheck(init.status).Fail? ==> r == Err(InvalidTaskStatus(init.status))
    ensures StatusCheck(init.status) == Pass ==>
      r.Ok? && fresh(r.value) && r.value.State() == init && r.value.runner == runner
  {
    var check := StatusCheck(init.status);
    if check.Fail? {
      return Err(check.error);
    }
    var t := new Task(init, runner);
    return Ok(t);
  }

  /** `if not request`: only a missing request is falsy. */
  const MissingRequest: Error := TypeError("new_task() takes at least one argument ('request')")

  /**
   * `TaskFactory.new_task` as written: after the request check it calls the
   * eleven-parameter constructor with ten arguments (the runner is missing),
   * so Python raises TypeError on every call.
   */
  function NewTaskAsWritten(taskId: Value, request: Option<Domain.Request>, parameters: Value, freshId: Value, now: Value)
    : Result<TaskRecord, Error>
  {
    if request.None? then Err(MissingRequest)
    else Err(TypeError("__init__() takes exactly 12 arguments (11 given)"))
  }

  /** The factory as written never produces a task. */
  lemma NewTaskAsWrittenAlwaysFails(taskId: Value, request: Option<Domain.Request>, parameters: Value, freshId: Value, now: Value)
    ensures NewTaskAsWritten(taskId, request, parameters, freshId, now).Err?
    ensures NewTaskAsWritten(taskId, request, parameters, freshId, now).error.TypeError?
    ensures request.Some? ==>
      NewTaskAsWritten(taskId, request, parameters, freshId, now) == Err(TypeError("__init__() takes exactly 12 arguments (11 given)"))
  {
  }

  /**
   * `TaskFactory.new_task` with the constructor called as intended: the
   * supplied id unless it is falsy, status pending, parameters defaulting to
   * `{}`, no message, result or start and stop times, created and updated at
   * `now`.
   */
  function NewTaskResult(taskId: Value, request: Option<Domain.Request>, parameters: Value, freshId: Value, now: Value)
    : Result<TaskRecord, Error>
  {
    if request.None? then Err(MissingRequest)
    else
      Ok(TaskRecord(
        taskId := Or(taskId, freshId),
        status := JStr("pending"),
        message := JNull,
        request := request,
        parameters := Or(parameters, JObj(map[])),
        result := JNull,
        createdAt := now,
        updatedAt := now,
        startedAt := JNull,
        stoppedAt := JNull))
  }

  /** The intended factory fails exactly for a missing request, and otherwise sets the documented defaults. */
  lemma NewTaskDefaults(taskId: Value, request: Option<Domain.Request>, parameters: Value, freshId: Value, now: Value)
    ensures NewTaskResult(taskId, request, parameters, freshId, now).Err? <==> request.None?
    ensures request.None? ==> NewTaskResult(taskId, request, parameters, freshId, now) == Err(MissingRequest)
    ensures NewTaskResult(taskId, request, parameters, freshId, now).Ok? ==>
      var t := NewTaskResult(taskId, request, parameters, freshId, now).value;
      && StatusCheck(t.status) == Pass && t.status == JStr("pending")
      && (Truthy(taskId) ==> t.taskId == taskId) && (!Truthy(taskId) ==> t.taskId == freshId)
      && (Truthy(parameters) ==> t.parameters == parameters) && (!Truthy(parameters) ==> t.parameters == JObj(map[]))
      && t.message == JNull && t.result == JNull && t.startedAt == JNull && t.stoppedAt == JNull
      && t.createdAt == t.updatedAt && t.request == request
  {
  }

  /** A task of the intended factory, handed the runner it is to use. */
  method NewTask(taskId: Value, request: Option<Domain.Request>, parameters: Value, freshId: Value, now: Value, runner: Runner?)
    returns (r: Result<Task, Error>)
    ensures NewTaskResult(taskId, request, parameters, freshId, now).Err? ==> r == Err(MissingRequest)
    ensures NewTaskResult(taskId, request, parameters, freshId, now).Ok? ==>
      && r.Ok? && fresh(r.value) && r.value.runner == runner
      && r.value.State() == NewTaskResult(taskId, request, parameters, freshId, now).value
  {
    if request.None? {
      return Err(MissingRequest);
    }
    var init := TaskRecord(Or(taskId, freshId), JStr("pending"), JNull, request, Or(parameters, JObj(map[])),
                           JNull, now, now, JNull, JNull);
    r := NewTaskObject(init, runner);
  }
}
