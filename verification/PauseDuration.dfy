/**
 How long a pause lasts: which paused tasks stay in agreement with their suspended workflows,
 whatever their attempts do, until the next call.
 */
module PauseDuration {
  import opened Wrappers
  import opened Sequences
  import opened EngineChoices
  import opened Orchestration
  import opened PauseProtocol
  import Rows = TaskRows
  import Task = DurableTask

  ghost predicate OnlyTask(steps: seq<Step>) {
    forall i :: 0 <= i < |steps| ==> steps[i].TaskStep?
  }

  /** Neither the pending activity nor any attempt can un-pause the row: the router and
      `mark_failed` are not pending, and have no attempt before its commit. */
  ghost predicate NothingUnpauses(cfg: Task.Config, w: World) {
    && (forall id :: id in w.task.attempts ==> !MayUnpause(w.task.attempts[id]))
    && var pending := Task.Current(cfg, w.task);
       pending.Some? ==> !pending.value.SelectEngine? && !pending.value.MarkFailed?
  }

  lemma PauseHolds(cfg: Task.Config, w: World, step: Step)
    requires Task.Inv(cfg, w.task) && Enabled(cfg, w, step) && step.TaskStep?
    requires w.suspended && IsPaused(w) && NothingUnpauses(cfg, w)
    ensures var v := Apply(cfg, w, step);
            v.suspended && IsPaused(v) && NothingUnpauses(cfg, v)
  {
    var v := Apply(cfg, w, step);
    TaskStepPauses(cfg, w, step.step);
    assert v.task.history == w.task.history;
    forall id | id in v.task.attempts
      ensures !MayUnpause(v.task.attempts[id])
    {
      if step.step.Work? && step.step.id == id {
        StaysHarmless(cfg, w, id, step.step.choice);
      }
    }
  }

  lemma StaysHarmless(cfg: Task.Config, w: World, id: nat, c: Task.Choice)
    requires Task.Inv(cfg, w.task) && Enabled(cfg, w, TaskStep(Task.Work(id, c)))
    requires !MayUnpause(w.task.attempts[id])
    ensures !MayUnpause(Apply(cfg, w, TaskStep(Task.Work(id, c))).task.attempts[id])
  {
    assert Task.AttemptOk(cfg, w.task, w.task.attempts[id]);
  }

  lemma {:induction false} PauseHoldsOn(cfg: Task.Config, w: World, steps: seq<Step>, v: World)
    requires Task.Inv(cfg, w.task) && Leads(cfg, w, steps, v) && OnlyTask(steps)
    requires w.suspended && IsPaused(w) && NothingUnpauses(cfg, w)
    ensures v.suspended && IsPaused(v)
    decreases |steps|
  {
    if steps != [] {
      StepTask(cfg, w, steps[0]);
      PauseHolds(cfg, w, steps[0]);
      PauseHoldsOn(cfg, Apply(cfg, w, steps[0]), steps[1..], v);
    }
  }

  const DECISION := Selected(LANGGRAPH, map[])
  const CHOICE := Task.Choice(DECISION, "", true, false)

  /** An attempt that may un-pause a paused row can do so. */
  lemma AttemptUnpauses(cfg: Task.Config, w: World, id: nat) returns (steps: seq<Step>, v: World)
    requires Task.Inv(cfg, w.task) && w.suspended && IsPaused(w)
    requires id in w.task.attempts && MayUnpause(w.task.attempts[id])
    ensures Leads(cfg, w, steps, v) && OnlyTask(steps) && v.suspended && !IsPaused(v)
  {
    var a := w.task.attempts[id];
    assert Task.AttemptOk(cfg, w.task, a);
    if a.activity.SelectEngine? && a.progress.Ready? {
      var step := TaskStep(Task.Work(id, CHOICE));
      var u := Apply(cfg, w, step);
      TaskStepPauses(cfg, w, step.step);
      StepTask(cfg, w, step);
      var more;
      more, v := CommitUnpauses(cfg, u, id, CHOICE);
      LeadsStep(cfg, w, step, more, v);
      steps := [step] + more;
    } else if a.activity.SelectEngine? {
      steps, v := CommitUnpauses(cfg, w, id, CHOICE);
    } else {
      steps, v := CommitUnpauses(cfg, w, id, CHOICE.(output := Marked("failed")));
    }
  }

  lemma CommitUnpauses(cfg: Task.Config, w: World, id: nat, c: Task.Choice) returns (steps: seq<Step>, v: World)
    requires Task.Inv(cfg, w.task) && w.suspended && IsPaused(w)
    requires id in w.task.attempts && Commits(w.task.attempts[id])
    requires Task.FitsActivity(w.task.attempts[id].activity, c.output)
    ensures Leads(cfg, w, steps, v) && OnlyTask(steps) && v.suspended && !IsPaused(v)
  {
    var step := TaskStep(Task.Work(id, c));
    v := Apply(cfg, w, step);
    TaskStepPauses(cfg, w, step.step);
    LeadsStep(cfg, w, step, [], v);
    steps := [step] + [];
  }

  lemma {:induction false} FreshId(ids: set<nat>) returns (id: nat)
    ensures forall other :: other in ids ==> other < id
    decreases ids
  {
    id := 0;
    if ids != {} {
      var first :| first in ids;
      var bound := FreshId(ids - {first});
      id := if first < bound then bound else first + 1;
      assert forall other :: other in ids ==> other == first || other in ids - {first};
    }
  }

  lemma PendingUnpauses(cfg: Task.Config, w: World) returns (steps: seq<Step>, v: World)
    requires Task.Inv(cfg, w.task) && w.suspended && IsPaused(w)
    requires var pending := Task.Current(cfg, w.task);
             pending.Some? && (pending.value.SelectEngine? || pending.value.MarkFailed?)
    ensures Leads(cfg, w, steps, v) && OnlyTask(steps) && v.suspended && !IsPaused(v)
  {
    var id := FreshId(w.task.attempts.Keys);
    var step := TaskStep(Task.Begin(id));
    var u := Apply(cfg, w, step);
    StepTask(cfg, w, step);
    var more;
    more, v := AttemptUnpauses(cfg, u, id);
    LeadsStep(cfg, w, step, more, v);
    steps := [step] + more;
  }

  /** Whatever the task does until the next call, row and workflow agree. */
  ghost predicate PauseLasts(cfg: Task.Config, w: World) {
    forall steps, v :: Leads(cfg, w, steps, v) && OnlyTask(steps) ==> Agrees(v)
  }

  lemma HarmlessLasts(cfg: Task.Config, w: World)
    requires Task.Inv(cfg, w.task) && w.suspended && IsPaused(w) && NothingUnpauses(cfg, w)
    ensures PauseLasts(cfg, w)
  {
    forall steps, v | Leads(cfg, w, steps, v) && OnlyTask(steps)
      ensures Agrees(v)
    {
      PauseHoldsOn(cfg, w, steps, v);
    }
  }

  lemma UnpauserEnds(cfg: Task.Config, w: World)
    requires Task.Inv(cfg, w.task) && w.suspended && IsPaused(w) && !NothingUnpauses(cfg, w)
    ensures !PauseLasts(cfg, w)
  {
    var steps, v := SomethingUnpauses(cfg, w);
    assert Leads(cfg, w, steps, v) && OnlyTask(steps) && !Agrees(v);
  }

  /** A paused row stays paused, and in agreement with its suspended workflow, until the next
      call, if and only if neither the pending activity nor an attempt in flight is the router
      or `mark_failed` before its commit. */
  lemma PauseLastsExactly(cfg: Task.Config, first: World, before: seq<Step>, w: World)
    requires Init(cfg, first) && Leads(cfg, first, before, w) && w.suspended && IsPaused(w)
    ensures PauseLasts(cfg, w) <==> NothingUnpauses(cfg, w)
  {
    ReachableInv(cfg, first, before, w);
    if NothingUnpauses(cfg, w) {
      HarmlessLasts(cfg, w);
    } else {
      UnpauserEnds(cfg, w);
    }
  }

  lemma SomethingUnpauses(cfg: Task.Config, w: World) returns (steps: seq<Step>, v: World)
    requires Task.Inv(cfg, w.task) && w.suspended && IsPaused(w) && !NothingUnpauses(cfg, w)
    ensures Leads(cfg, w, steps, v) && OnlyTask(steps) && v.suspended && !IsPaused(v)
  {
    if id :| id in w.task.attempts && MayUnpause(w.task.attempts[id]) {
      steps, v := AttemptUnpauses(cfg, w, id);
    } else {
      steps, v := PendingUnpauses(cfg, w);
    }
  }
}
