/**
 The task row: its status machine, the repository's update, and the database sessions in
 which activities and the API change it.

 A session is atomic: it reads the row, checks, writes and commits, or raises and leaves
 the row as it was. Each session is a method over the repository object, and a function on
 the row that says what the method does; the functions are what `DurableTask` interleaves.
 */
module TaskRows {
  import opened Wrappers
  import opened EngineChoices

  datatype Status = Queued | Running | Paused | Succeeded | Failed | Cancelled

  const ALLOWED_TRANSITIONS: map<Status, set<Status>> := map[
    Queued := {Running, Cancelled},
    Running := {Paused, Succeeded, Failed, Cancelled},
    Paused := {Running, Cancelled},
    Failed := {Running},
    Succeeded := {},
    Cancelled := {}
  ]

  predicate CanTransition(current: Status, target: Status) {
    current == target || (current in ALLOWED_TRANSITIONS && target in ALLOWED_TRANSITIONS[current])
  }

  datatype TaskRow = TaskRow(status: Status, engineRequested: string, engineSelected: Option<string>,
                             engineSelectionReason: Option<string>, report: Option<string>)

  datatype TaskError = TaskNotFound | InvalidTransition(current: Status, target: Status)

  // ---- Sessions as functions on the row ----

  /** A session's answer, and the row that it leaves. A session that raises changes nothing. */
  datatype Session<T> = Session(row: Option<TaskRow>, answer: Result<T, TaskError>)

  function OrKeep<T>(update: Option<T>, current: Option<T>): Option<T> {
    if update.Some? then update else current
  }

  function UpdateRow(row: TaskRow, status: Status, engineSelected: Option<string>, reason: Option<string>,
                     report: Option<string>): Result<TaskRow, TaskError> {
    if CanTransition(row.status, status) then
      Success(row.(status := status, engineSelected := OrKeep(engineSelected, row.engineSelected),
                   engineSelectionReason := OrKeep(reason, row.engineSelectionReason),
                   report := OrKeep(report, row.report)))
    else Failure(InvalidTransition(row.status, status))
  }

  function Answer<T>(before: TaskRow, updated: Result<TaskRow, TaskError>, value: T): Session<T> {
    match updated
    case Success(after) => Session(Some(after), Success(value))
    case Failure(error) => Session(Some(before), Failure(error))
  }

  /** The answer says whether the task was started by this session. */
  function InitializeSession(row: Option<TaskRow>, engineRequested: string): Session<bool> {
    match row
    case None => Session(row, Failure(TaskNotFound))
    case Some(r) =>
      if r.status != Queued then Session(row, Success(false))
      else
        var selected := if engineRequested == AUTO then None else Some(engineRequested);
        Answer(r, UpdateRow(r, Running, selected, None, None), true)
  }

  /** A missing task is not an error here: the update finds nothing to change. */
  function SelectEngineSession(row: Option<TaskRow>, engine: string, reason: string): Session<()> {
    match row
    case None => Session(row, Success(()))
    case Some(r) => Answer(r, UpdateRow(r, Running, Some(engine), Some(reason), None), ())
  }

  datatype FinalizeAnswer = FinalizeAnswer(report: string, committed: bool)

  function FinalizeSession(row: Option<TaskRow>, report: string): Session<FinalizeAnswer> {
    match row
    case None => Session(row, Failure(TaskNotFound))
    case Some(r) =>
      if r.status == Succeeded then
        var existing := if r.report.Some? && r.report.value != "" then r.report.value else report;
        Session(row, Success(FinalizeAnswer(existing, false)))
      else Answer(r, UpdateRow(r, Succeeded, None, None, Some(report)), FinalizeAnswer(report, true))
  }

  /** The answer is the status that the caller reports; `None` stands for a missing task. */
  function MarkFailedSession(row: Option<TaskRow>): Session<Option<Status>> {
    match row
    case None => Session(row, Success(None))
    case Some(r) =>
      if r.status in {Succeeded, Cancelled, Failed} then Session(row, Success(Some(r.status)))
      else
        var started := if r.status in {Queued, Paused} then UpdateRow(r, Running, None, None, None) else Success(r);
        match started
        case Failure(error) => Session(row, Failure(error))
        case Success(s) => Answer(r, UpdateRow(s, Failed, None, None, None), Some(Failed))
  }

  /** Pausing and resuming a task through the API. */
  function PersistStatusSession(row: Option<TaskRow>, target: Status): Session<()> {
    match row
    case None => Session(row, Failure(TaskNotFound))
    case Some(r) => Answer(r, UpdateRow(r, target, None, None, None), ())
  }

  /** The API's compensation when the workflow could not be scheduled. */
  function SchedulingFailedSession(row: Option<TaskRow>): Session<()> {
    match row
    case None => Session(row, Success(()))
    case Some(r) =>
      var started := if r.status == Queued then UpdateRow(r, Running, None, None, None) else Success(r);
      match started
      case Failure(error) => Session(row, Failure(error))
      case Success(s) =>
        if s.status == Running then Answer(r, UpdateRow(s, Failed, None, None, None), ())
        else Session(Some(s), Success(()))
  }

  /** The text that finalize stores: the workflow's report, or a stub for none or an empty one. */
  function ReportText(report: Option<string>, taskId: string): (text: string)
    ensures text != ""
  {
    if report.Some? && report.value != "" then report.value else "Stub report for task " + taskId
  }

  // ---- Laws of the sessions ----

  /** A report is there exactly when the task has succeeded, and then it is not empty. */
  predicate RowOk(row: TaskRow) {
    && (row.report.Some? <==> row.status == Succeeded)
    && (row.report.Some? ==> row.report.value != "")
  }

  predicate OptionalRowOk(row: Option<TaskRow>) {
    row.Some? ==> RowOk(row.value)
  }

  /** A session makes one legal transition, or it starts a waiting task to mark it failed. */
  predicate LegalChange(current: Status, target: Status) {
    CanTransition(current, target)
    || (current in {Queued, Paused} && target == Failed
        && CanTransition(current, Running) && CanTransition(Running, Failed))
  }

  /** What every session keeps: a row stays, its change is legal, it stays well formed, a
      success is final, and its requested engine is fixed. */
  predicate GoodChange(before: Option<TaskRow>, after: Option<TaskRow>) {
    && before.Some? == after.Some?
    && (before.Some? ==>
          && LegalChange(before.value.status, after.value.status)
          && (RowOk(before.value) ==> RowOk(after.value))
          && (before.value.status == Succeeded ==> after == before)
          && after.value.engineRequested == before.value.engineRequested)
  }

  lemma SessionsAreGood(row: Option<TaskRow>, engine: string, reason: string, report: string, target: Status)
    requires report != "" && target in {Running, Paused} && OptionalRowOk(row)
    ensures GoodChange(row, InitializeSession(row, engine).row)
    ensures GoodChange(row, SelectEngineSession(row, engine, reason).row)
    ensures GoodChange(row, FinalizeSession(row, report).row)
    ensures GoodChange(row, MarkFailedSession(row).row)
    ensures GoodChange(row, PersistStatusSession(row, target).row)
    ensures GoodChange(row, SchedulingFailedSession(row).row)
  {
  }

  // ---- What each session does, on the row's fields ----

  /** The transitions, by where they lead. */
  lemma TransitionsExactly(current: Status, target: Status)
    ensures CanTransition(current, target) <==>
              || current == target
              || match target
                 case Queued => false
                 case Running => current in {Queued, Paused, Failed}
                 case Paused => current == Running
                 case Succeeded => current == Running
                 case Failed => current == Running
                 case Cancelled => current in {Queued, Running, Paused}
  {
  }

  /** A legal update sets the status, and each given field; all else stays. */
  lemma UpdateChangesExactly(row: TaskRow, status: Status, engineSelected: Option<string>, reason: Option<string>,
                             report: Option<string>)
    ensures var r := UpdateRow(row, status, engineSelected, reason, report);
            if !CanTransition(row.status, status) then r == Failure(InvalidTransition(row.status, status))
            else
              && r.Success? && r.value.status == status && r.value.engineRequested == row.engineRequested
              && (if engineSelected.Some? then r.value.engineSelected == engineSelected
                  else r.value.engineSelected == row.engineSelected)
              && (if reason.Some? then r.value.engineSelectionReason == reason
                  else r.value.engineSelectionReason == row.engineSelectionReason)
              && (if report.Some? then r.value.report == report else r.value.report == row.report)
  {
  }

  /** What a session raises for a missing task, or for one that must not change to `target`. */
  function Refusal(row: Option<TaskRow>, target: Status): TaskError {
    if row.None? then TaskNotFound else InvalidTransition(row.value.status, target)
  }

  /** Only a queued task is started: it then runs, with the engine of a manual choice. */
  lemma InitializeStartsExactly(row: Option<TaskRow>, engine: string)
    ensures var s := InitializeSession(row, engine);
            && (s.answer.Success? <==> row.Some?)
            && (s.answer.Success? ==>
                  var r := row.value;
                  && (s.answer.value <==> r.status == Queued)
                  && s.row == Some(if r.status != Queued then r
                                   else if engine == AUTO then r.(status := Running)
                                   else r.(status := Running, engineSelected := Some(engine))))
            && (s.answer.Failure? ==> s.row == row && s.answer.error == Refusal(row, Running))
  {
  }

  /** Routing succeeds unless the task is over, and then the task runs under the chosen engine. */
  lemma SelectEngineExactly(row: Option<TaskRow>, engine: string, reason: string)
    ensures var s := SelectEngineSession(row, engine, reason);
            && (s.answer.Failure? <==> row.Some? && row.value.status in {Succeeded, Cancelled})
            && (s.answer.Failure? ==> s.answer.error == Refusal(row, Running))
            && s.row == if row.None? || s.answer.Failure? then row
                        else Some(row.value.(status := Running, engineSelected := Some(engine),
                                             engineSelectionReason := Some(reason)))
  {
  }

  /** Finalizing answers with success exactly for a task that runs or has succeeded. Then the
      task has succeeded, and a well-formed row stores the answered report; nothing else
      changes. The answer says whether this session did it, with its own report. */
  lemma FinalizeSucceedsExactly(row: Option<TaskRow>, report: string)
    requires report != ""
    ensures var s := FinalizeSession(row, report);
            && (s.answer.Success? <==> row.Some? && row.value.status in {Running, Succeeded})
            && (s.answer.Failure? ==> s.row == row && s.answer.error == Refusal(row, Succeeded))
            && (s.answer.Success? ==>
                  && s.row.Some? && s.row.value.status == Succeeded
                  && (RowOk(row.value) ==> s.row == Some(row.value.(status := Succeeded,
                                                                    report := Some(s.answer.value.report))))
                  && (s.answer.value.committed <==> row.value.status == Running)
                  && (s.answer.value.committed ==> s.answer.value.report == report)
                  && (!s.answer.value.committed ==> s.row == row))
  {
  }

  /** Pausing succeeds exactly for a task that runs or is paused, resuming for every task that
      is not over; only the status changes. */
  lemma PersistStatusExactly(row: Option<TaskRow>, target: Status)
    requires target in {Running, Paused}
    ensures var s := PersistStatusSession(row, target);
            && (s.answer.Success? <==>
                  && row.Some?
                  && if target == Paused then row.value.status in {Running, Paused}
                     else row.value.status !in {Succeeded, Cancelled})
            && (s.answer.Failure? ==> s.answer.error == Refusal(row, target))
            && s.row == if s.answer.Success? then Some(row.value.(status := target)) else row
  {
  }

  /** The compensation fails a task that waits or runs, and leaves any other alone. */
  lemma SchedulingFailedExactly(row: Option<TaskRow>)
    ensures var s := SchedulingFailedSession(row);
            && s.answer.Success?
            && s.row == if row.Some? && row.value.status in {Queued, Running}
                        then Some(row.value.(status := Failed)) else row
  {
  }

  /** Marking a failure never raises. It fails a task that has not ended, changing nothing
      else, and the answer is the status that the task then has. */
  lemma MarkFailedAlwaysSettles(row: Option<TaskRow>)
    ensures var s := MarkFailedSession(row);
            && s.answer == Success(if s.row.Some? then Some(s.row.value.status) else None)
            && s.row == if row.Some? && row.value.status in {Queued, Running, Paused}
                        then Some(row.value.(status := Failed)) else row
  {
  }

  // ---- The repository ----

  datatype StepRow = StepRow(taskId: string, stepName: string, status: string, output: string)

  datatype AuditRow = AuditRow(taskId: string, engine: string, step: string, status: string, payload: string)

  /** The tables, with their unique keys. */
  class TaskRepository {
    var tasks: map<string, TaskRow>
    var steps: map<string, StepRow>
    var audits: map<string, AuditRow>

    constructor ()
      ensures tasks == map[] && steps == map[] && audits == map[]
    {
      tasks, steps, audits := map[], map[], map[];
    }

    function GetTask(taskId: string): Option<TaskRow>
      reads this
    {
      if taskId in tasks then Some(tasks[taskId]) else None
    }

    /** The task table with another row for one task. */
    ghost function WithRow(taskId: string, row: Option<TaskRow>): map<string, TaskRow>
      reads this
    {
      if row.Some? then tasks[taskId := row.value] else tasks
    }

    method UpdateTaskStatus(taskId: string, status: Status, engineSelected: Option<string>, reason: Option<string>,
                            report: Option<string>)
      returns (r: Result<Option<TaskRow>, TaskError>)
      modifies this`tasks
      ensures match old(GetTask(taskId))
              case None => r == Success(None) && tasks == old(tasks)
              case Some(row) =>
                match UpdateRow(row, status, engineSelected, reason, report)
                case Success(updated) => r == Success(Some(updated)) && tasks == old(tasks)[taskId := updated]
                case Failure(error) => r == Failure(error) && tasks == old(tasks)
    {
      if taskId !in tasks {
        return Success(None);
      }
      var task := tasks[taskId];
      if !CanTransition(task.status, status) {
        return Failure(InvalidTransition(task.status, status));
      }
      task := task.(status := status);
      if engineSelected.Some? {
        task := task.(engineSelected := engineSelected);
      }
      if reason.Some? {
        task := task.(engineSelectionReason := reason);
      }
      if report.Some? {
        task := task.(report := report);
      }
      tasks := tasks[taskId := task];
      return Success(Some(task));
    }

    /** Write-once: a key that is taken is left alone. */
    method RecordStep(key: string, row: StepRow) returns (created: bool)
      modifies this`steps
      ensures created <==> key !in old(steps)
      ensures steps == if created then old(steps)[key := row] else old(steps)
    {
      if key in steps {
        return false;
      }
      steps := steps[key := row];
      return true;
    }

    method RecordAuditEvent(key: string, row: AuditRow) returns (created: bool)
      modifies this`audits
      ensures created <==> key !in old(audits)
      ensures audits == if created then old(audits)[key := row] else old(audits)
    {
      if key in audits {
        return false;
      }
      audits := audits[key := row];
      return true;
    }
  }

  // ---- The sessions over the repository ----

  method InitializeTask(repo: TaskRepository, taskId: string, engineRequested: string)
    returns (r: Result<bool, TaskError>)
    modifies repo`tasks
    ensures var s := InitializeSession(old(repo.GetTask(taskId)), engineRequested);
            r == s.answer && repo.tasks == old(repo.WithRow(taskId, s.row))
  {
    var task := repo.GetTask(taskId);
    if task.None? {
      return Failure(TaskNotFound);
    }
    if task.value.status != Queued {
      return Success(false);
    }
    var selected := if engineRequested == AUTO then None else Some(engineRequested);
    var updated := repo.UpdateTaskStatus(taskId, Running, selected, None, None);
    return if updated.Success? then Success(true) else Failure(updated.error);
  }

  method SelectEngine(repo: TaskRepository, taskId: string, engine: string, reason: string)
    returns (r: Result<(), TaskError>)
    modifies repo`tasks
    ensures var s := SelectEngineSession(old(repo.GetTask(taskId)), engine, reason);
            r == s.answer && repo.tasks == old(repo.WithRow(taskId, s.row))
  {
    var updated := repo.UpdateTaskStatus(taskId, Running, Some(engine), Some(reason), None);
    return if updated.Success? then Success(()) else Failure(updated.error);
  }

  method FinalizeTask(repo: TaskRepository, taskId: string, input: Option<string>)
    returns (r: Result<FinalizeAnswer, TaskError>)
    modifies repo`tasks
    ensures var s := FinalizeSession(old(repo.GetTask(taskId)), ReportText(input, taskId));
            r == s.answer && repo.tasks == old(repo.WithRow(taskId, s.row))
  {
    var report := ReportText(input, taskId);
    var task := repo.GetTask(taskId);
    if task.None? {
      return Failure(TaskNotFound);
    }
    if task.value.status == Succeeded {
      var stored := task.value.report;
      return Success(FinalizeAnswer(if stored.Some? && stored.value != "" then stored.value else report, false));
    }
    var updated := repo.UpdateTaskStatus(taskId, Succeeded, None, None, Some(report));
    return if updated.Success? then Success(FinalizeAnswer(report, true)) else Failure(updated.error);
  }

  method MarkTaskFailed(repo: TaskRepository, taskId: string) returns (r: Result<Option<Status>, TaskError>)
    modifies repo`tasks
    ensures var s := MarkFailedSession(old(repo.GetTask(taskId)));
            r == s.answer && repo.tasks == old(repo.WithRow(taskId, s.row))
  {
    var task := repo.GetTask(taskId);
    if task.None? {
      return Success(None);
    }
    var current := task.value.status;
    if current in {Succeeded, Cancelled, Failed} {
      return Success(Some(current));
    }
    if current in {Queued, Paused} {
      var _ := repo.UpdateTaskStatus(taskId, Running, None, None, None);
    }
    var _ := repo.UpdateTaskStatus(taskId, Failed, None, None, None);
    return Success(Some(Failed));
  }

  method PersistTaskStatus(repo: TaskRepository, taskId: string, target: Status) returns (r: Result<(), TaskError>)
    modifies repo`tasks
    ensures var s := PersistStatusSession(old(repo.GetTask(taskId)), target);
            r == s.answer && repo.tasks == old(repo.WithRow(taskId, s.row))
  {
    if repo.GetTask(taskId).None? {
      return Failure(TaskNotFound);
    }
    var updated := repo.UpdateTaskStatus(taskId, target, None, None, None);
    return if updated.Success? then Success(()) else Failure(updated.error);
  }

  method MarkSchedulingFailed(repo: TaskRepository, taskId: string)
    modifies repo`tasks
    ensures repo.tasks == old(repo.WithRow(taskId, SchedulingFailedSession(repo.GetTask(taskId)).row))
  {
    var task := repo.GetTask(taskId);
    if task.Some? {
      var current := task.value.status;
      if current == Queued {
        var _ := repo.UpdateTaskStatus(taskId, Running, None, None, None);
        current := Running;
      }
      if current == Running {
        var _ := repo.UpdateTaskStatus(taskId, Failed, None, None, None);
      }
    }
  }
}
