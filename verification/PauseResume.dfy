/**
 Pausing and resuming through the API: what a call leaves behind.

 The calls as they run are methods of `TaskService`; what they do is a run of `PauseProtocol`,
 and what holds for calls that interleave with the task, and with each other, holds for them.
 */
module PauseResume {
  import opened Wrappers
  import opened Sequences
  import opened EngineChoices
  import opened Orchestration
  import opened PauseProtocol
  import opened PauseDuration
  import Agreement = EngineAgreement
  import Rows = TaskRows
  import Task = DurableTask

  // ---- One call among the steps of the task ----

  /** The marks that a run adds. */
  ghost function MarksOf(cfg: Task.Config, w: World, steps: seq<Step>): seq<Mark>
    decreases |steps|
  {
    if steps == [] || !Enabled(cfg, w, steps[0]) then []
    else Listed(MarkOf(cfg, w, steps[0])) + MarksOf(cfg, Apply(cfg, w, steps[0]), steps[1..])
  }

  function Listed(mark: Option<Mark>): seq<Mark> {
    if mark.Some? then [mark.value] else []
  }

  /** Only the one call takes steps, besides the task. */
  ghost predicate OnlyCall(steps: seq<Step>, id: nat) {
    forall i :: 0 <= i < |steps| ==> steps[i].TaskStep? || steps[i].id == id
  }

  predicate StoresStatus(marks: seq<Mark>) {
    Pauses in marks || Releases in marks
  }

  /** Where a call is, from the state in which it began and the marks since. */
  ghost predicate CallInv(first: World, marks: seq<Mark>, w: World, id: nat) {
    if id !in w.calls then w.suspended == first.suspended && !StoresStatus(marks) && RowInv(first, marks, w, false)
    else
      var pause := w.calls[id].pause;
      && RowInv(first, marks, w, pause)
      && match w.calls[id].stage
         case Scheduling => w.suspended == first.suspended && !StoresStatus(marks)
         case Persisting => w.suspended == pause && !StoresStatus(marks)
         case Undoing => w.suspended == pause
         case Ended(r) =>
           match r
           case NotAllowed => w.suspended == first.suspended && !StoresStatus(marks)
           case SchedulerRaised => !StoresStatus(marks)
           case Stored => w.suspended == pause && StoresStatus(marks)
           case UndoFailed => w.suspended == pause
           case Undone => w.suspended == !pause
           case Abandoned => true
  }

  /** Unless a session un-paused it, the row is as the call stored it, or as it was. */
  predicate RowInv(first: World, marks: seq<Mark>, w: World, pause: bool) {
    Unpauses !in marks ==> IsPaused(w) == if StoresStatus(marks) then pause else IsPaused(first)
  }

  lemma CallStep(cfg: Task.Config, first: World, marks: seq<Mark>, w: World, id: nat, step: Step)
    requires Task.Inv(cfg, w.task) && Enabled(cfg, w, step) && CallInv(first, marks, w, id)
    requires step.TaskStep? || step.id == id
    ensures CallInv(first, marks + Listed(MarkOf(cfg, w, step)), Apply(cfg, w, step), id)
  {
    StepMarks(cfg, w, step);
    var mark := MarkOf(cfg, w, step);
    assert marks + [] == marks;
    assert forall m :: m in marks + Listed(mark) <==> m in marks || mark == Some(m);
  }

  lemma {:induction false} CallRun(cfg: Task.Config, first: World, marks: seq<Mark>, w: World, id: nat,
                                   steps: seq<Step>, v: World, all: seq<Mark>)
    requires Task.Inv(cfg, w.task) && Leads(cfg, w, steps, v) && OnlyCall(steps, id) && CallInv(first, marks, w, id)
    requires all == marks + MarksOf(cfg, w, steps)
    ensures CallInv(first, all, v, id)
    decreases |steps|
  {
    if steps == [] {
      assert all == marks;
    } else {
      var next, more := Apply(cfg, w, steps[0]), Listed(MarkOf(cfg, w, steps[0]));
      StepTask(cfg, w, steps[0]);
      CallStep(cfg, first, marks, w, id, steps[0]);
      Associates(marks, more, MarksOf(cfg, next, steps[1..]));
      CallRun(cfg, first, marks + more, next, id, steps[1..], v, all);
    }
  }

  /** Whether the call asks the scheduler for a change. */
  predicate Switches(w: World, pause: bool) {
    w.suspended != pause
  }

  /** When a call that began in agreement ends in agreement, by the way it ended: an undo
      restores agreement exactly when it takes back a change of the call, and the status was
      not stored after all; a failed undo does no harm exactly when it was not needed. */
  ghost predicate EndsInAgreement(first: World, marks: seq<Mark>, v: World, call: Call) {
    match call.stage
    case Ended(r) =>
      (match r
       case Stored => true
       case NotAllowed => true
       case Undone => Switches(first, call.pause) && !StoresStatus(marks)
       case UndoFailed => !Switches(first, call.pause) || StoresStatus(marks)
       case SchedulerRaised => v.suspended == first.suspended
       case Abandoned => v.suspended == if StoresStatus(marks) then call.pause else first.suspended)
    case _ => v.suspended == if StoresStatus(marks) then call.pause else first.suspended
  }

  /** One call, with any steps of the task in between, none of which un-pauses the row: from
      agreement it leads to agreement exactly as said above. */
  lemma CallLeavesAgreementExactly(cfg: Task.Config, first: World, id: nat, steps: seq<Step>, v: World)
    requires Task.Inv(cfg, first.task) && Agrees(first) && id !in first.calls
    requires Leads(cfg, first, steps, v) && OnlyCall(steps, id) && id in v.calls
    requires Unpauses !in MarksOf(cfg, first, steps)
    ensures Agrees(v) <==> EndsInAgreement(first, MarksOf(cfg, first, steps), v, v.calls[id])
  {
    assert [] + MarksOf(cfg, first, steps) == MarksOf(cfg, first, steps);
    CallRun(cfg, first, [], first, id, steps, v, MarksOf(cfg, first, steps));
  }

  // ---- Any number of calls, one at a time ----

  ghost predicate AllEnded(w: World) {
    forall id :: id in w.calls ==> w.calls[id].stage.Ended?
  }

  /** Calls run one at a time, and each one stores its status, or is not allowed to. */
  ghost predicate CallsStore(cfg: Task.Config, w: World, steps: seq<Step>)
    decreases |steps|
  {
    steps != [] && Enabled(cfg, w, steps[0]) ==>
      && StepStores(cfg, w, steps[0])
      && CallsStore(cfg, Apply(cfg, w, steps[0]), steps[1..])
  }

  ghost predicate StepStores(cfg: Task.Config, w: World, step: Step)
    requires Enabled(cfg, w, step)
  {
    match step
    case TaskStep(_) => true
    case Check(_, _) => AllEnded(w)
    case Schedule(_, answer) => answer.Performed?
    case Persist(id, _) => Apply(cfg, w, step).calls[id].stage == Ended(Stored)
    case _ => false
  }

  predicate LastUnpauses(w: World) {
    w.marks != [] && w.marks[|w.marks| - 1].Unpauses?
  }

  ghost predicate NonePersisting(w: World) {
    forall id :: id in w.calls ==> !w.calls[id].stage.Persisting?
  }

  ghost predicate OneCall(w: World) {
    && (forall id :: id in w.calls ==> !w.calls[id].stage.Undoing?)
    && (forall id, other :: id in w.calls && other in w.calls && id != other ==>
          w.calls[id].stage.Ended? || w.calls[other].stage.Ended?)
  }

  /** Between a call's change of the workflow and its change of the row, they may differ. */
  ghost predicate StoringInv(w: World) {
    && OneCall(w)
    && (forall id :: id in w.calls && w.calls[id].stage.Persisting? ==> w.suspended == w.calls[id].pause)
    && (NonePersisting(w) ==> Settled(w))
  }

  predicate Settled(w: World) {
    if LastUnpauses(w) then w.suspended && !IsPaused(w) else Agrees(w)
  }

  lemma StoringTaskStep(cfg: Task.Config, w: World, s: Task.Step)
    requires Task.Inv(cfg, w.task) && Enabled(cfg, w, TaskStep(s)) && StoringInv(w)
    ensures StoringInv(Apply(cfg, w, TaskStep(s)))
  {
    StepMarks(cfg, w, TaskStep(s));
    assert NonePersisting(Apply(cfg, w, TaskStep(s))) ==> NonePersisting(w);
  }

  lemma StoringOneCall(cfg: Task.Config, w: World, step: Step)
    requires Enabled(cfg, w, step) && OneCall(w) && StepStores(cfg, w, step) && !step.TaskStep?
    ensures OneCall(Apply(cfg, w, step))
    ensures forall id :: id in w.calls && id != step.id ==>
              id in Apply(cfg, w, step).calls && Apply(cfg, w, step).calls[id] == w.calls[id]
    ensures Apply(cfg, w, step).calls.Keys == w.calls.Keys + {step.id}
  {
  }

  lemma StoringCheck(cfg: Task.Config, w: World, id: nat, pause: bool)
    requires Enabled(cfg, w, Check(id, pause)) && StoringInv(w) && AllEnded(w)
    ensures StoringInv(Apply(cfg, w, Check(id, pause)))
  {
    StoringOneCall(cfg, w, Check(id, pause));
    assert NonePersisting(w);
  }

  lemma StoringSchedule(cfg: Task.Config, w: World, id: nat)
    requires Enabled(cfg, w, Schedule(id, Performed)) && StoringInv(w)
    ensures StoringInv(Apply(cfg, w, Schedule(id, Performed)))
  {
    var v := Apply(cfg, w, Schedule(id, Performed));
    StoringOneCall(cfg, w, Schedule(id, Performed));
    assert v.calls[id].stage.Persisting? && v.suspended == v.calls[id].pause;
  }

  lemma StoringPersist(cfg: Task.Config, w: World, id: nat, answer: Answer)
    requires Task.Inv(cfg, w.task) && Enabled(cfg, w, Persist(id, answer)) && StoringInv(w)
    requires StepStores(cfg, w, Persist(id, answer))
    ensures StoringInv(Apply(cfg, w, Persist(id, answer)))
  {
    StoringOneCall(cfg, w, Persist(id, answer));
    StepMarks(cfg, w, Persist(id, answer));
  }

  lemma StoringStep(cfg: Task.Config, w: World, step: Step)
    requires Task.Inv(cfg, w.task) && Enabled(cfg, w, step) && StoringInv(w) && StepStores(cfg, w, step)
    ensures StoringInv(Apply(cfg, w, step))
  {
    match step
    case TaskStep(s) => StoringTaskStep(cfg, w, s);
    case Check(id, pause) => StoringCheck(cfg, w, id, pause);
    case Schedule(id, _) => StoringSchedule(cfg, w, id);
    case Persist(id, answer) => StoringPersist(cfg, w, id, answer);
    case _ =>
  }

  lemma {:induction false} StoringRun(cfg: Task.Config, w: World, steps: seq<Step>, v: World)
    requires Task.Inv(cfg, w.task) && Leads(cfg, w, steps, v) && CallsStore(cfg, w, steps) && StoringInv(w)
    ensures StoringInv(v)
    decreases |steps|
  {
    if steps != [] {
      StepTask(cfg, w, steps[0]);
      StoringStep(cfg, w, steps[0]);
      StoringRun(cfg, Apply(cfg, w, steps[0]), steps[1..], v);
    }
  }

  /** When calls run one at a time and all store their status: between calls, row and workflow
      disagree exactly when a session has un-paused the row since the last call, and then the
      workflow is still suspended. No other activity, and no successful call, parts them. */
  lemma StoredCallsAgreeExactly(cfg: Task.Config, first: World, steps: seq<Step>, w: World)
    requires Init(cfg, first) && Leads(cfg, first, steps, w) && CallsStore(cfg, first, steps) && AllEnded(w)
    ensures Agrees(w) <==> !LastUnpauses(w)
    ensures !Agrees(w) ==> w.suspended && !IsPaused(w)
  {
    Task.InitInv(cfg, first.task);
    StoringRun(cfg, first, steps, w);
    assert NonePersisting(w);
  }

  // ---- A successful pause that does not last ----

  function Lifted(steps: seq<Task.Step>): (lifted: seq<Step>)
    ensures |lifted| == |steps| && forall i :: 0 <= i < |steps| ==> lifted[i] == TaskStep(steps[i])
  {
    seq(|steps|, i requires 0 <= i < |steps| => TaskStep(steps[i]))
  }

  /** Without calls, a run of the task is a run here. */
  lemma {:induction false} Lift(cfg: Task.Config, w: World, steps: seq<Task.Step>, t: Task.World) returns (v: World)
    requires Task.Leads(cfg, w.task, steps, t) && forall i :: 0 <= i < |steps| ==> !steps[i].SetStatus?
    requires !w.suspended && w.calls == map[]
    ensures Leads(cfg, w, Lifted(steps), v) && v.task == t && !v.suspended && v.calls == map[]
    decreases |steps|
  {
    if steps == [] {
      v := w;
    } else {
      var step := TaskStep(steps[0]);
      v := Lift(cfg, Apply(cfg, w, step), steps[1..], t);
      LeadsStep(cfg, w, step, Lifted(steps[1..]), v);
      assert Lifted(steps) == [step] + Lifted(steps[1..]);
    }
  }

  /** A pause on a running row, with nothing in between and nothing failing. */
  lemma PauseSucceeds(cfg: Task.Config, w: World, id: nat) returns (steps: seq<Step>, v: World)
    requires w.task.row.Some? && w.task.row.value.status == Rows.Running && id !in w.calls
    ensures Leads(cfg, w, steps, v) && v.suspended && IsPaused(v)
    ensures v.calls == w.calls[id := Call(true, Ended(Stored))] && v.task.attempts == w.task.attempts
  {
    var checked := Apply(cfg, w, Check(id, true));
    var suspended := Apply(cfg, checked, Schedule(id, Performed));
    v := Apply(cfg, suspended, Persist(id, Performed));
    LeadsStep(cfg, suspended, Persist(id, Performed), [], v);
    LeadsStep(cfg, checked, Schedule(id, Performed), [Persist(id, Performed)] + [], v);
    LeadsStep(cfg, w, Check(id, true), [Schedule(id, Performed)] + ([Persist(id, Performed)] + []), v);
    steps := [Check(id, true)] + ([Schedule(id, Performed)] + ([Persist(id, Performed)] + []));
    assert v.calls == w.calls[id := Call(true, Ended(Stored))];
  }

  /** Every automatic task that has a row can be paused successfully, with no call failing,
      and then be un-paused by a routing attempt that was in flight: its row runs on while its
      workflow stays suspended. */
  lemma RouterUnpausesPausedTask(cfg: Task.Config, first: World) returns (steps: seq<Step>, v: World)
    requires cfg.input.engineRequested == AUTO && Init(cfg, first) && first.task.row.Some?
    ensures Leads(cfg, first, steps, v) && v.calls == map[0 := Call(true, Ended(Stored))]
    ensures v.suspended && !IsPaused(v) && !Agrees(v)
  {
    var reached, t := Agreement.RoutingIsReached(cfg, first.task);
    var waiting := Lift(cfg, first, reached, t);
    ReachableInv(cfg, first, Lifted(reached), waiting);
    var begin := TaskStep(Task.Begin(1));
    var routing := Apply(cfg, waiting, begin);
    StepTask(cfg, waiting, begin);
    var pause, paused := PauseSucceeds(cfg, routing, 0);
    LeadsStep(cfg, waiting, begin, pause, paused);
    LeadsOn(cfg, first, Lifted(reached), waiting, [begin] + pause, paused);
    ReachableInv(cfg, first, Lifted(reached) + ([begin] + pause), paused);
    var more, u := AttemptUnpauses(cfg, paused, 1);
    LeadsOn(cfg, first, Lifted(reached) + ([begin] + pause), paused, more, u);
    TaskKeepsCalls(cfg, paused, more, u);
    steps, v := Lifted(reached) + ([begin] + pause) + more, u;
  }

  lemma {:induction false} TaskKeepsCalls(cfg: Task.Config, w: World, steps: seq<Step>, v: World)
    requires Leads(cfg, w, steps, v) && OnlyTask(steps)
    ensures v.calls == w.calls
    decreases |steps|
  {
    if steps != [] {
      TaskKeepsCalls(cfg, Apply(cfg, w, steps[0]), steps[1..], v);
    }
  }

  // ---- The calls as they run ----

  /** What the scheduler answers to a call, the database, and the scheduler to an undo. */
  datatype Answers = Answers(schedule: Answer, persist: Answer, undo: Answer)

  /** When a call that runs alone leads from agreement to agreement. */
  predicate KeepsAgreement(w: World, pause: bool, answers: Answers) {
    || !Allowed(w.task.row, pause)
    || match answers.schedule
       case Refused => true
       case Lost => !Switches(w, pause)
       case Performed =>
         match answers.persist
         case Performed => true
         case Refused => if answers.undo.Refused? then !Switches(w, pause) else Switches(w, pause)
         case Lost => answers.undo.Refused?
  }

  /** How a call ends, what it leaves of the workflow, and of the row. */
  predicate EndsAs(before: World, after: World, id: nat, pause: bool, allowed: bool, answers: Answers) {
    var reached := allowed && answers.schedule.Performed?;
    && id in after.calls && after.calls[id] == Call(pause, Ended(
         if !allowed then NotAllowed
         else if !answers.schedule.Performed? then SchedulerRaised
         else if answers.persist.Performed? then Stored
         else if answers.undo.Refused? then UndoFailed else Undone))
    && after.suspended == (if !allowed || answers.schedule.Refused? then before.suspended
                           else if answers.schedule.Lost? || answers.persist.Performed? || answers.undo.Refused?
                           then pause else !pause)
    && after.task == if reached && !answers.persist.Refused? && before.task.row.Some?
                     then before.task.(row := Some(before.task.row.value.(status :=
                            if pause then Rows.Paused else Rows.Running)))
                     else before.task
  }

  /** The API's service for one task. Nothing else takes a step while a call runs here. */
  class TaskService {
    const cfg: Task.Config
    var world: World

    constructor (cfg: Task.Config, world: World)
      ensures this.cfg == cfg && this.world == world
    {
      this.cfg, this.world := cfg, world;
    }

    method Take(step: Step, ghost first: World, ghost steps: seq<Step>) returns (ghost longer: seq<Step>)
      requires Enabled(cfg, world, step) && Leads(cfg, first, steps, world)
      modifies this
      ensures world == Apply(cfg, old(world), step)
      ensures longer == steps + [step] && Leads(cfg, first, longer, world)
    {
      LeadsStep(cfg, world, step, [], Apply(cfg, world, step));
      LeadsOn(cfg, first, steps, world, [step] + [], Apply(cfg, world, step));
      world := Apply(cfg, world, step);
      longer := steps + ([step] + []);
    }

    /** A pause that is stored suspends the workflow and pauses the row; one that raises leaves
        the row as it was, unless the database stored the status and then raised. Row and
        workflow still agree exactly as `KeepsAgreement` says. The call is a run of the
        protocol. */
    method PauseTask(id: nat, answers: Answers) returns (stored: bool, ghost steps: seq<Step>)
      requires id !in world.calls
      modifies this
      ensures Leads(cfg, old(world), steps, world) && OnlyCall(steps, id)
      ensures id in world.calls && world.calls[id].pause && world.calls[id].stage.Ended?
      ensures stored <==> world.calls[id].stage == Ended(Stored)
      ensures stored ==> world.suspended && IsPaused(world)
      ensures !stored && !answers.persist.Lost? ==> world.task == old(world.task)
      ensures Agrees(old(world)) ==> (Agrees(world) <==> KeepsAgreement(old(world), true, answers))
      ensures var row := old(world).task.row;
              EndsAs(old(world), world, id, true, row.Some? && row.value.status in {Rows.Running, Rows.Paused}, answers)
    {
      stored, steps := ChangeStatus(id, true, answers);
    }

    method ResumeTask(id: nat, answers: Answers) returns (stored: bool, ghost steps: seq<Step>)
      requires id !in world.calls
      modifies this
      ensures Leads(cfg, old(world), steps, world) && OnlyCall(steps, id)
      ensures id in world.calls && !world.calls[id].pause && world.calls[id].stage.Ended?
      ensures stored <==> world.calls[id].stage == Ended(Stored)
      ensures stored ==> !world.suspended && world.task.row.Some? && world.task.row.value.status == Rows.Running
      ensures !stored && !answers.persist.Lost? ==> world.task == old(world.task)
      ensures Agrees(old(world)) ==> (Agrees(world) <==> KeepsAgreement(old(world), false, answers))
      ensures var row := old(world).task.row;
              EndsAs(old(world), world, id, false,
                     row.Some? && row.value.status !in {Rows.Succeeded, Rows.Cancelled}, answers)
    {
      stored, steps := ChangeStatus(id, false, answers);
    }

    /** Check, schedule, store; if storing fails, undo and raise. */
    method ChangeStatus(id: nat, pause: bool, answers: Answers) returns (stored: bool, ghost steps: seq<Step>)
      requires id !in world.calls
      modifies this
      ensures Leads(cfg, old(world), steps, world) && OnlyCall(steps, id)
      ensures id in world.calls && world.calls[id].pause == pause && world.calls[id].stage.Ended?
      ensures stored <==> world.calls[id].stage == Ended(Stored)
      ensures stored ==> world.suspended == pause
      ensures stored ==> world.task.row.Some? && world.task.row.value.status == Target(pause)
      ensures !stored && !answers.persist.Lost? ==> world.task == old(world.task)
      ensures Agrees(old(world)) ==> (Agrees(world) <==> KeepsAgreement(old(world), pause, answers))
      ensures EndsAs(old(world), world, id, pause, Allowed(old(world).task.row, pause), answers)
    {
      ghost var first := world;
      steps := Take(Check(id, pause), first, []);
      if world.calls[id].stage.Ended? {
        return false, steps;
      }
      steps := Take(Schedule(id, answers.schedule), first, steps);
      if world.calls[id].stage.Ended? {
        return false, steps;
      }
      stored, steps := StoreOrUndo(id, answers, first, steps);
    }

    method StoreOrUndo(id: nat, answers: Answers, ghost first: World, ghost before: seq<Step>)
      returns (stored: bool, ghost steps: seq<Step>)
      requires id in world.calls && world.calls[id].stage.Persisting?
      requires Leads(cfg, first, before, world) && OnlyCall(before, id)
      modifies this
      ensures Leads(cfg, first, steps, world) && OnlyCall(steps, id)
      ensures var pause, row := old(world.calls[id].pause), old(world.task.row);
              var writes := Allowed(row, pause) && !answers.persist.Refused?;
              && id in world.calls && world.calls[id].pause == pause
              && world.calls[id].stage ==
                 Ended(if stored then Stored else if answers.undo.Refused? then UndoFailed else Undone)
              && (stored <==> writes && answers.persist.Performed?)
              && world.suspended == (if stored || answers.undo.Refused? then old(world.suspended) else !pause)
              && world.task == if writes then old(world.task).(row := Some(row.value.(status := Target(pause))))
                               else old(world.task)
    {
      steps := Take(Persist(id, answers.persist), first, before);
      if world.calls[id].stage.Ended? {
        return true, steps;
      }
      steps := Take(Undo(id, answers.undo), first, steps);
      return false, steps;
    }
  }
}
