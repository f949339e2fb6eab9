/**
 Pausing and resuming a task while its workflow and its activities go on.

 A call checks the row, suspends or resumes the workflow, stores the row's status, and if that
 fails, undoes the suspension. Each of these is a step; between them attempts take effects
 (`DurableTask`) and other calls take steps of their own. The scheduler and the database may
 refuse an operation, or carry it out and raise nevertheless. A suspended workflow takes no
 outcomes; the attempts of its pending activity go on.

 The row and the workflow agree when the row is paused exactly while the workflow is suspended.
 `marks` lists all that bears on this, in order.
 */
module PauseProtocol {
  import opened Wrappers
  import opened Sequences
  import opened EngineChoices
  import opened Orchestration
  import Rows = TaskRows
  import Task = DurableTask

  datatype Result = Stored | NotAllowed | SchedulerRaised | Undone | UndoFailed | Abandoned

  datatype Stage = Scheduling | Persisting | Undoing | Ended(result: Result)

  /** A call pauses the task, or resumes it. */
  datatype Call = Call(pause: bool, stage: Stage)

  /** What the scheduler and the database do: the operation, nothing, or the operation and an
      exception. */
  datatype Answer = Performed | Refused | Lost

  /** The workflow is suspended or resumed; a call stores that the row is paused or running;
      a session of the router or of `mark_failed` commits on a paused row. */
  datatype Mark = Suspends | Resumes | Pauses | Releases | Unpauses

  datatype World = World(task: Task.World, suspended: bool, calls: map<nat, Call>, marks: seq<Mark>)

  datatype Step =
    | TaskStep(step: Task.Step)
    | Check(id: nat, pause: bool)
    | Schedule(id: nat, answer: Answer)
    | Persist(id: nat, answer: Answer)
    | Undo(id: nat, answer: Answer)
    | Abandon(id: nat)

  predicate Init(cfg: Task.Config, w: World) {
    Task.Init(cfg, w.task) && !w.suspended && w.calls == map[] && w.marks == []
  }

  predicate IsPaused(w: World) {
    w.task.row.Some? && w.task.row.value.status == Rows.Paused
  }

  predicate Agrees(w: World) {
    w.suspended <==> IsPaused(w)
  }

  /** The sessions that un-pause a paused row: a routing decision, and the marking of a failure. */
  predicate MayUnpause(a: Task.Attempt) {
    || (a.activity.SelectEngine? && (a.progress.Ready? || a.progress.Computed?))
    || (a.activity.MarkFailed? && a.progress.Ready?)
  }

  predicate Commits(a: Task.Attempt) {
    MayUnpause(a) && !(a.activity.SelectEngine? && a.progress.Ready?)
  }

  predicate IsUnpausing(w: World, step: Task.Step) {
    IsPaused(w) && step.Work? && step.id in w.task.attempts && Commits(w.task.attempts[step.id])
  }

  predicate Enabled(cfg: Task.Config, w: World, step: Step) {
    match step
    case TaskStep(s) =>
      Task.Enabled(cfg, w.task, s) && !s.SetStatus? && (w.suspended ==> !s.Accept? && !s.GiveUp?)
    case Check(id, _) => id !in w.calls
    case Schedule(id, _) => id in w.calls && w.calls[id].stage.Scheduling?
    case Persist(id, _) => id in w.calls && w.calls[id].stage.Persisting?
    case Undo(id, _) => id in w.calls && w.calls[id].stage.Undoing?
    case Abandon(id) => id in w.calls && !w.calls[id].stage.Ended?
  }

  function Target(pause: bool): Rows.Status {
    if pause then Rows.Paused else Rows.Running
  }

  predicate Allowed(row: Option<Rows.TaskRow>, pause: bool) {
    row.Some? && Rows.CanTransition(row.value.status, Target(pause))
  }

  function Move(w: World, id: nat, stage: Stage): map<nat, Call>
    requires id in w.calls
  {
    w.calls[id := w.calls[id].(stage := stage)]
  }

  function FlagMark(suspend: bool): Mark {
    if suspend then Suspends else Resumes
  }

  function RowMark(pause: bool): Mark {
    if pause then Pauses else Releases
  }

  function SetFlag(w: World, id: nat, suspend: bool, stage: Stage): World
    requires id in w.calls
  {
    w.(suspended := suspend, calls := Move(w, id, stage), marks := w.marks + [FlagMark(suspend)])
  }

  function SetRow(w: World, id: nat, stage: Stage): World
    requires id in w.calls
  {
    var pause := w.calls[id].pause;
    w.(task := w.task.(row := Rows.PersistStatusSession(w.task.row, Target(pause)).row),
       calls := Move(w, id, stage), marks := w.marks + [RowMark(pause)])
  }

  function Apply(cfg: Task.Config, w: World, step: Step): World
    requires Enabled(cfg, w, step)
  {
    match step
    case TaskStep(s) =>
      w.(task := Task.Apply(cfg, w.task, s), marks := if IsUnpausing(w, s) then w.marks + [Unpauses] else w.marks)
    case Check(id, pause) =>
      var stage := if Allowed(w.task.row, pause) then Scheduling else Ended(NotAllowed);
      w.(calls := w.calls[id := Call(pause, stage)])
    case Schedule(id, answer) =>
      var suspend := w.calls[id].pause;
      (match answer
       case Performed => SetFlag(w, id, suspend, Persisting)
       case Refused => w.(calls := Move(w, id, Ended(SchedulerRaised)))
       case Lost => SetFlag(w, id, suspend, Ended(SchedulerRaised)))
    case Persist(id, answer) =>
      if answer.Refused? || !Allowed(w.task.row, w.calls[id].pause) then w.(calls := Move(w, id, Undoing))
      else SetRow(w, id, if answer.Performed? then Ended(Stored) else Undoing)
    case Undo(id, answer) =>
      if answer.Refused? then w.(calls := Move(w, id, Ended(UndoFailed)))
      else SetFlag(w, id, !w.calls[id].pause, Ended(Undone))
    case Abandon(id) => w.(calls := Move(w, id, Ended(Abandoned)))
  }

  ghost predicate Leads(cfg: Task.Config, w: World, steps: seq<Step>, v: World)
    decreases |steps|
  {
    if steps == [] then w == v
    else Enabled(cfg, w, steps[0]) && Leads(cfg, Apply(cfg, w, steps[0]), steps[1..], v)
  }

  lemma LeadsStep(cfg: Task.Config, w: World, step: Step, rest: seq<Step>, v: World)
    requires Enabled(cfg, w, step) && Leads(cfg, Apply(cfg, w, step), rest, v)
    ensures Leads(cfg, w, [step] + rest, v)
  {
    assert ([step] + rest)[1..] == rest;
  }

  lemma {:induction false} LeadsOn(cfg: Task.Config, w: World, steps: seq<Step>, v: World, more: seq<Step>, u: World)
    requires Leads(cfg, w, steps, v) && Leads(cfg, v, more, u)
    ensures Leads(cfg, w, steps + more, u)
    decreases |steps|
  {
    FirstThenRest(steps, more);
    if steps != [] {
      LeadsOn(cfg, Apply(cfg, w, steps[0]), steps[1..], v, more, u);
      LeadsStep(cfg, w, steps[0], steps[1..] + more, u);
    }
  }

  // ---- Every run is a run of the task ----

  /** A step is a step of the task, the API's change of its status, or none. */
  lemma StepTask(cfg: Task.Config, w: World, step: Step)
    requires Task.Inv(cfg, w.task) && Enabled(cfg, w, step)
    ensures Task.Inv(cfg, Apply(cfg, w, step).task)
  {
    match step
    case TaskStep(s) => Task.StepInv(cfg, w.task, s);
    case Persist(id, _) =>
      Task.StepInv(cfg, w.task, Task.SetStatus(Target(w.calls[id].pause)));
    case _ =>
  }

  // ---- What changes the flag, and what the row ----

  /** Of all sessions, only these change whether the row is paused: storing a status, and the
      sessions that un-pause. */
  lemma TaskStepPauses(cfg: Task.Config, w: World, s: Task.Step)
    requires Task.Inv(cfg, w.task) && Enabled(cfg, w, TaskStep(s))
    ensures IsPaused(Apply(cfg, w, TaskStep(s))) <==> IsPaused(w) && !IsUnpausing(w, s)
  {
    if s.Work? {
      WorkPauses(cfg, w, s.id, s.choice);
    }
  }

  lemma WorkPauses(cfg: Task.Config, w: World, id: nat, c: Task.Choice)
    requires Task.Inv(cfg, w.task) && Enabled(cfg, w, TaskStep(Task.Work(id, c)))
    ensures IsPaused(Apply(cfg, w, TaskStep(Task.Work(id, c)))) <==> IsPaused(w) && !IsUnpausing(w, Task.Work(id, c))
  {
    var a := w.task.attempts[id];
    assert Task.AttemptOk(cfg, w.task, a);
    if Task.RoleOf(a.activity).Some? {
      assert Task.WorkEffect(cfg, w.task, a, c).row == w.task.row;
    } else if a.activity.SelectEngine? {
      RouterPauses(cfg, w, a, c);
    } else {
      OtherPauses(cfg, w, a, c);
    }
  }

  predicate RowPaused(row: Option<Rows.TaskRow>) {
    row.Some? && row.value.status == Rows.Paused
  }

  lemma RouterPauses(cfg: Task.Config, w: World, a: Task.Attempt, c: Task.Choice)
    requires a.activity.SelectEngine? && Task.ProgressOk(w.task, a.activity, a.progress)
    ensures RowPaused(Task.WorkEffect(cfg, w.task, a, c).row) <==> IsPaused(w) && !Commits(a)
  {
  }

  lemma OtherPauses(cfg: Task.Config, w: World, a: Task.Attempt, c: Task.Choice)
    requires !a.activity.SelectEngine? && Task.RoleOf(a.activity).None?
    requires Task.ProgressOk(w.task, a.activity, a.progress)
    ensures RowPaused(Task.WorkEffect(cfg, w.task, a, c).row) <==> IsPaused(w) && !Commits(a)
  {
  }

  /** The flag after the marks, if it was `start` before them. */
  function FlagAfter(marks: seq<Mark>, start: bool): bool {
    if marks == [] then start
    else
      match marks[|marks| - 1]
      case Suspends => true
      case Resumes => false
      case _ => FlagAfter(marks[..|marks| - 1], start)
  }

  /** Whether the row is paused after the marks. */
  function PausedAfter(marks: seq<Mark>, start: bool): bool {
    if marks == [] then start
    else
      match marks[|marks| - 1]
      case Pauses => true
      case Releases => false
      case Unpauses => false
      case _ => PausedAfter(marks[..|marks| - 1], start)
  }

  lemma OneMark(marks: seq<Mark>, mark: Mark, start: bool)
    ensures FlagAfter(marks + [mark], start) ==
            if mark.Suspends? then true else if mark.Resumes? then false else FlagAfter(marks, start)
    ensures PausedAfter(marks + [mark], start) ==
            if mark.Pauses? then true else if mark.Releases? || mark.Unpauses? then false else PausedAfter(marks, start)
  {
    assert (marks + [mark])[..|marks|] == marks;
  }

  /** The marks tell the state. */
  predicate MarksTell(w: World, flag: bool, paused: bool) {
    w.suspended == FlagAfter(w.marks, flag) && IsPaused(w) == PausedAfter(w.marks, paused)
  }

  /** What a step adds to the marks, and to the state. */
  function MarkOf(cfg: Task.Config, w: World, step: Step): Option<Mark>
    requires Enabled(cfg, w, step)
  {
    match step
    case TaskStep(s) => if IsUnpausing(w, s) then Some(Unpauses) else None
    case Check(_, _) => None
    case Schedule(id, answer) => if answer.Refused? then None else Some(FlagMark(w.calls[id].pause))
    case Persist(id, answer) =>
      if answer.Refused? || !Allowed(w.task.row, w.calls[id].pause) then None else Some(RowMark(w.calls[id].pause))
    case Undo(id, answer) => if answer.Refused? then None else Some(FlagMark(!w.calls[id].pause))
    case Abandon(_) => None
  }

  lemma StepMarks(cfg: Task.Config, w: World, step: Step)
    requires Task.Inv(cfg, w.task) && Enabled(cfg, w, step)
    ensures var v, mark := Apply(cfg, w, step), MarkOf(cfg, w, step);
            && v.marks == (if mark.Some? then w.marks + [mark.value] else w.marks)
            && v.suspended == (if mark == Some(Suspends) then true
                               else if mark == Some(Resumes) then false else w.suspended)
            && IsPaused(v) == (if mark == Some(Pauses) then true
                               else if mark == Some(Releases) || mark == Some(Unpauses) then false else IsPaused(w))
  {
    if step.TaskStep? {
      TaskStepPauses(cfg, w, step.step);
    }
  }

  lemma StepTells(cfg: Task.Config, w: World, step: Step, flag: bool, paused: bool)
    requires Task.Inv(cfg, w.task) && Enabled(cfg, w, step) && MarksTell(w, flag, paused)
    ensures MarksTell(Apply(cfg, w, step), flag, paused)
  {
    StepMarks(cfg, w, step);
    var mark := MarkOf(cfg, w, step);
    if mark.Some? {
      OneMark(w.marks, mark.value, flag);
      OneMark(w.marks, mark.value, paused);
    }
  }

  lemma {:induction false} RunTells(cfg: Task.Config, w: World, steps: seq<Step>, v: World, flag: bool, paused: bool)
    requires Task.Inv(cfg, w.task) && Leads(cfg, w, steps, v) && MarksTell(w, flag, paused)
    ensures Task.Inv(cfg, v.task) && MarksTell(v, flag, paused)
    decreases |steps|
  {
    if steps != [] {
      StepTask(cfg, w, steps[0]);
      StepTells(cfg, w, steps[0], flag, paused);
      RunTells(cfg, Apply(cfg, w, steps[0]), steps[1..], v, flag, paused);
    }
  }

  /** A suspension of the workflow stands: none was taken back since. */
  ghost predicate SuspensionStands(marks: seq<Mark>) {
    exists i :: 0 <= i < |marks| && marks[i].Suspends? && forall j :: i < j < |marks| ==> !marks[j].Resumes?
  }

  predicate Ends(mark: Mark) {
    mark.Releases? || mark.Unpauses?
  }

  /** A stored pause stands: no resume was stored since, and no router or failure marking has
      committed on the paused row. */
  ghost predicate PauseStands(marks: seq<Mark>) {
    exists i :: 0 <= i < |marks| && marks[i].Pauses? && forall j :: i < j < |marks| ==> !Ends(marks[j])
  }

  lemma {:induction false} FlagIsLast(marks: seq<Mark>)
    ensures FlagAfter(marks, false) <==> SuspensionStands(marks)
    decreases |marks|
  {
    if marks != [] {
      var n := |marks| - 1;
      FlagIsLast(marks[..n]);
      if SuspensionStands(marks[..n]) && !marks[n].Resumes? {
        var i :| 0 <= i < n && marks[..n][i].Suspends? && forall j :: i < j < n ==> !marks[..n][j].Resumes?;
        assert forall j :: i < j < n ==> marks[j] == marks[..n][j];
        assert marks[i].Suspends?;
      }
      if SuspensionStands(marks) && !marks[n].Suspends? {
        var i :| 0 <= i < |marks| && marks[i].Suspends? && forall j :: i < j < |marks| ==> !marks[j].Resumes?;
        assert marks[..n][i].Suspends?;
      }
    }
  }

  lemma {:induction false} PauseIsLast(marks: seq<Mark>)
    ensures PausedAfter(marks, false) <==> PauseStands(marks)
    decreases |marks|
  {
    if marks != [] {
      var n := |marks| - 1;
      PauseIsLast(marks[..n]);
      if PauseStands(marks[..n]) && !Ends(marks[n]) {
        var i :| 0 <= i < n && marks[..n][i].Pauses? && forall j :: i < j < n ==> !Ends(marks[..n][j]);
        assert forall j :: i < j < n ==> marks[j] == marks[..n][j];
        assert marks[i].Pauses?;
      }
      if PauseStands(marks) && !marks[n].Pauses? {
        var i :| 0 <= i < |marks| && marks[i].Pauses? && forall j :: i < j < |marks| ==> !Ends(marks[j]);
        assert marks[..n][i].Pauses?;
      }
    }
  }

  /** Over all runs, whatever overlaps and fails: the row is paused exactly while a stored pause
      stands. Only a stored resume, a routing session and the marking of a failure end one. So
      row and workflow agree exactly when a suspension and a pause both stand, or neither. */
  lemma AgreesExactly(cfg: Task.Config, first: World, steps: seq<Step>, w: World)
    requires Init(cfg, first) && Leads(cfg, first, steps, w)
    ensures IsPaused(w) <==> PauseStands(w.marks)
    ensures w.suspended <==> SuspensionStands(w.marks)
    ensures Agrees(w) <==> (SuspensionStands(w.marks) <==> PauseStands(w.marks))
  {
    Task.InitInv(cfg, first.task);
    RunTells(cfg, first, steps, w, false, false);
    FlagIsLast(w.marks);
    PauseIsLast(w.marks);
  }

  lemma ReachableInv(cfg: Task.Config, first: World, steps: seq<Step>, w: World)
    requires Init(cfg, first) && Leads(cfg, first, steps, w)
    ensures Task.Inv(cfg, w.task)
  {
    Task.InitInv(cfg, first.task);
    RunTells(cfg, first, steps, w, false, false);
  }
}
