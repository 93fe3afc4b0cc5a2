/**
 * The base task executor: it marks a task as being processed and then,
 * having no way to run it, fails it.
 */
module AsyncExecutor {
  import opened Values
  import Domain
  import Repos

  /** The message `_run` fails every task with. */
  const InternalErrorMessage: string := "Internal error occurred while trying to process task."

  class TaskExecutor {
    const context: Domain.Context
    const taskRepo: Repos.TaskRepo
    /** Kept by the constructor; neither method touches it. */
    const imageRepo: Repos.ImageRepo

    constructor (context: Domain.Context, taskRepo: Repos.TaskRepo, imageRepo: Repos.ImageRepo)
      ensures this.context == context && this.taskRepo == taskRepo && this.imageRepo == imageRepo
    {
      this.context, this.taskRepo, this.imageRepo := context, taskRepo, imageRepo;
    }

    /**
     * `begin_processing(task_id)`: fetch, `begin_processing`, save, then
     * `_run`, which re-fetches the saved task, fails it and saves it again.
     * A missing task raises NotFound before anything is saved.
     */
    method BeginProcessing(taskId: Value) returns (o: Outcome<Error>)
      requires taskRepo.Valid()
      modifies taskRepo
      ensures taskRepo.Valid()
      ensures taskId !in old(taskRepo.tasks) ==>
        && o.Fail? && o.error.NotFound?
        && taskRepo.tasks == old(taskRepo.tasks) && taskRepo.saved == old(taskRepo.saved)
      ensures taskId in old(taskRepo.tasks) ==>
        var started := old(taskRepo.tasks)[taskId].Perform(Repos.BeginProcessingCall);
        var failed := started.Perform(Repos.FailCall(JStr(InternalErrorMessage)));
        && o == Pass
        && taskRepo.saved == old(taskRepo.saved) + [started, failed]
        && taskRepo.tasks == old(taskRepo.tasks)[taskId := failed]
    {
      var r := taskRepo.Get(taskId);
      if r.Err? {
        return Fail(r.error);
      }
      var task := r.value.Perform(Repos.BeginProcessingCall);
      taskRepo.Save(task);
      o := Run(taskId, task.taskType);
    }

    /** `_run(task_id, task_type)`: the stored task is failed with the internal-error message and saved. */
    method Run(taskId: Value, taskType: Value) returns (o: Outcome<Error>)
      requires taskRepo.Valid()
      modifies taskRepo
      ensures taskRepo.Valid()
      ensures taskId !in old(taskRepo.tasks) ==>
        && o.Fail? && o.error.NotFound?
        && taskRepo.tasks == old(taskRepo.tasks) && taskRepo.saved == old(taskRepo.saved)
      ensures taskId in old(taskRepo.tasks) ==>
        var failed := old(taskRepo.tasks)[taskId].Perform(Repos.FailCall(JStr(InternalErrorMessage)));
        && o == Pass
        && taskRepo.saved == old(taskRepo.saved) + [failed]
        && taskRepo.tasks == old(taskRepo.tasks)[taskId := failed]
    {
      var r := taskRepo.Get(taskId);
      if r.Err? {
        return Fail(r.error);
      }
      var task := r.value.Perform(Repos.FailCall(JStr(InternalErrorMessage)));
      taskRepo.Save(task);
      return Pass;
    }
  }
}
