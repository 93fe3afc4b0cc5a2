/**
 * The eventlet executor: it checks a task's type against the configured
 * list of task types, picks the script for the type, and hands the script's
 * `execute` to a green thread.  The green-thread pool is the list of jobs
 * submitted so far.
 */
module EventletExecutor {
  import opened Values
  import Domain

  /** The scripts a task type can select. */
  datatype Script = ImageImporter | ImageExporter

  /** A call `spawn_n(script.execute, context, task_id)` handed to the pool. */
  datatype Job = Job(script: Script, context: Domain.Context, taskId: Value)

  /** The default of the `valid_tasks_type` option. */
  const DefaultValidTasksType: seq<Value> := [JStr("import"), JStr("export")]

  /** `load_script`: the importer for "import", the exporter for "export", nothing else. */
  function LoadScript(taskType: Value): (s: Option<Script>)
    ensures s == Some(ImageImporter) <==> taskType == JStr("import")
    ensures s == Some(ImageExporter) <==> taskType == JStr("export")
    ensures s.None? <==> taskType != JStr("import") && taskType != JStr("export")
  {
    if taskType == JStr("export") then Some(ImageExporter)
    else if taskType == JStr("import") then Some(ImageImporter)
    else None
  }

  /**
   * The executor as intended.  As written it subclasses a base class its
   * package does not define, and nothing sets the context it passes on;
   * here the constructor takes the context.
   */
  class TaskEventletExecutor {
    const context: Domain.Context
    /** The configured `valid_tasks_type`. */
    const validTasksType: seq<Value>
    /** The jobs handed to `spawn_n`, in order. */
    var submitted: seq<Job>

    constructor (context: Domain.Context, validTasksType: seq<Value>)
      ensures this.context == context && this.validTasksType == validTasksType && submitted == []
    {
      this.context, this.validTasksType := context, validTasksType;
      submitted := [];
    }

    /**
     * `run`: a type outside the configured list raises InvalidTaskType
     * before anything is submitted; an allowed type with a script submits
     * exactly one job; an allowed type without one only logs a warning.
     */
    method Run(taskId: Value, taskStatus: Value, taskType: Value, taskInput: Value) returns (o: Outcome<Error>)
      modifies this`submitted
      ensures taskType !in validTasksType ==> o == Fail(InvalidTaskType(taskType)) && submitted == old(submitted)
      ensures taskType in validTasksType && LoadScript(taskType).Some? ==>
        o == Pass && submitted == old(submitted) + [Job(LoadScript(taskType).value, context, taskId)]
      ensures taskType in validTasksType && LoadScript(taskType).None? ==> o == Pass && submitted == old(submitted)
    {
      if taskType !in validTasksType {
        return Fail(InvalidTaskType(taskType));
      }
      var script := LoadScript(taskType);
      if script.Some? {
        submitted := submitted + [Job(script.value, context, taskId)];
      }
      return Pass;
    }
  }

  /** With the default configuration every allowed type has a script, so every accepted run submits a job. */
  lemma DefaultTypesAllHaveScripts(taskType: Value)
    requires taskType in DefaultValidTasksType
    ensures LoadScript(taskType).Some?
  {
  }
}
