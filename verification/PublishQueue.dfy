/** The task queue between publishing runs: what it makes of the end of a run, and what the sweep makes of that. */
module PublishQueue {
  import opened Options
  import opened PublishContract
  import opened PublishStates
  import PublishEngine
  import PublishSweeps

  /** The runner's decision for an error, and the state the queue puts the task in. */
  function FailTask(task: PublishEngine.Task, errorClass: ErrorClass, terminal: bool): PublishSweeps.JobState {
    var decision := if terminal then GiveUp else DecisionFor(errorClass);
    if decision == NeedsUser then PublishSweeps.WaitingForUser
    else if decision == Retry && task.attempts < task.maxAttempts then PublishSweeps.Retrying
    else PublishSweeps.JobState.Failed
  }

  /** The task after a run that was not cut short; a deferral carries the receipt's id in its step. */
  function JobAfter(task: PublishEngine.Task, end: PublishEngine.RunEnd, receiptId: string, message: string): PublishSweeps.Job {
    match end
    case Completed(ref, url) => PublishSweeps.Job(PublishSweeps.JobState.Completed, None, None, None, false, ref, url)
    case Deferred(_, _) =>
      PublishSweeps.Job(PublishSweeps.Waiting, None, None, Some(PublishSweeps.POLL_STEP + receiptId), false, None, None)
    case Raised(cls, terminal) =>
      var state := FailTask(task, cls, terminal);
      PublishSweeps.Job(state, Some(message), if state.WaitingForUser? then Some(message) else None, None, false, None, None)
    case Skipped => PublishSweeps.Job(PublishSweeps.JobState.Completed, None, None, None, true, None, None)
    case Crashed => PublishSweeps.Job(PublishSweeps.JobState.Running, None, None, None, false, None, None)
  }

  /** A task runs again exactly when the queue puts it back for a retry. */
  lemma RetryingRunsAgain(task: PublishEngine.Task, end: PublishEngine.RunEnd)
    requires end.Raised?
    ensures PublishEngine.RunsAgain(task, end) <==> FailTask(task, end.errorClass, end.terminal).Retrying?
  {
  }

  /**
   * Engine, queue and sweep agree: after a run that was not cut short, the sweep finds the variant where its task says it
   * should be and changes nothing, whatever else the row holds.
   */
  lemma NothingToSweep(v: PublishEngine.Variant, task: PublishEngine.Task, end: PublishEngine.RunEnd, receiptId: string,
                       message: string, row: PublishSweeps.Row, jobs: map<nat, PublishSweeps.Job>)
    requires PublishEngine.Awaits(v, task, end) && (end.Completed? || end.Deferred? || end.Raised?)
    requires row.state == v.state && row.task.Some? && row.task.value in jobs
    requires jobs[row.task.value] == JobAfter(task, end, receiptId, message)
    ensures PublishSweeps.Reconciled(row, jobs) == row
  {
    if end.Raised? {
      RetryingRunsAgain(task, end);
    }
  }
}
