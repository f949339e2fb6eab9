/**
 What one attempt does when it is left alone, from any state of the task, and that a task
 whose attempts are left alone completes: the runs over which safety is proved elsewhere do
 get somewhere, and announce each step on the way.
 */
module UndisturbedTask {
  import opened Wrappers
  import opened EngineChoices
  import opened Orchestration
  import opened WorkflowSchedules
  import opened DurableTask
  import Rows = TaskRows

  // ---- What an attempt should do ----

  /** Row, stored outputs and bus after an attempt, and its result; no result if it raises. */
  datatype Deed = Deed(row: Option<Rows.TaskRow>, outputs: map<Role, Payload>, bus: seq<Event>, result: Option<Payload>)

  predicate Nothing(w: World, d: Deed) {
    d.row == w.row && d.outputs == w.outputs && d.bus == w.bus
  }

  /** Only the row changes, and one event is announced. */
  predicate Commits(w: World, d: Deed, row: Rows.TaskRow, event: Event) {
    d.row == Some(row) && d.outputs == w.outputs && d.bus == w.bus + [event]
  }

  predicate Initializes(cfg: Config, w: World, d: Deed) {
    if w.row.None? then Nothing(w, d) && d.result == None
    else
      && d.result == Some(Initialized)
      && if w.row.value.status != Rows.Queued then Nothing(w, d)
         else if cfg.input.engineRequested == AUTO then
           Commits(w, d, w.row.value.(status := Rows.Running), TaskStarted)
         else
           Commits(w, d, w.row.value.(status := Rows.Running, engineSelected := Some(cfg.input.engineRequested)),
                   TaskStarted)
  }

  predicate Routes(w: World, c: Choice, d: Deed)
    requires c.output.Selected?
  {
    var event := EngineSelected(c.output.engine);
    if w.row.None? then
      d.row == None && d.outputs == w.outputs && d.bus == w.bus + [event] && d.result == Some(c.output)
    else if w.row.value.status in {Rows.Succeeded, Rows.Cancelled} then Nothing(w, d) && d.result == None
    else
      && d.result == Some(c.output)
      && Commits(w, d, w.row.value.(status := Rows.Running, engineSelected := Some(c.output.engine),
                                    engineSelectionReason := Some(c.reason)), event)
  }

  /** A role's output is stored and announced once; afterwards the stored one is returned. */
  predicate PlaysRole(w: World, r: Role, c: Choice, d: Deed) {
    if r in w.outputs then Nothing(w, d) && d.result == Some(w.outputs[r])
    else
      && d.row == w.row && d.outputs == w.outputs[r := c.output] && d.bus == w.bus + [RoleCompleted(r)]
      && d.result == Some(c.output)
  }

  predicate FinalizesTask(cfg: Config, w: World, report: Option<string>, d: Deed) {
    var text := if report.Some? && report.value != "" then report.value else "Stub report for task " + cfg.taskId;
    if w.row.None? then Nothing(w, d) && d.result == None
    else
      match w.row.value.status
      case Running =>
        && Commits(w, d, w.row.value.(status := Rows.Succeeded, report := Some(text)), TaskSucceeded)
        && d.result == Some(Finalized(text))
      case Succeeded =>
        && Nothing(w, d) && d.result.Some? && d.result.value.Finalized?
        && (Rows.RowOk(w.row.value) ==> Some(d.result.value.finalReport) == w.row.value.report)
      case _ => Nothing(w, d) && d.result == None
  }

  predicate MarksFailed(w: World, error: string, d: Deed) {
    if w.row.None? then Nothing(w, d) && d.result == Some(Marked("missing"))
    else
      match w.row.value.status
      case Succeeded => Nothing(w, d) && d.result == Some(Marked("succeeded"))
      case Cancelled => Nothing(w, d) && d.result == Some(Marked("cancelled"))
      case Failed => Nothing(w, d) && d.result == Some(Marked("failed"))
      case _ =>
        && Commits(w, d, w.row.value.(status := Rows.Failed), TaskFailed(error))
        && d.result == Some(Marked("failed"))
  }

  predicate Performs(cfg: Config, w: World, a: Activity, c: Choice, d: Deed) {
    match a
    case Initialize => Initializes(cfg, w, d)
    case SelectEngine => c.output.Selected? && Routes(w, c, d)
    case RunLangGraph(_) => Nothing(w, d) && d.result == Some(c.output)
    case RunResearcher(_, _) => PlaysRole(w, ResearcherRole, c, d)
    case RunAnalyst(_, _, _) => PlaysRole(w, AnalystRole, c, d)
    case RunWriter(_, _, _, _) => PlaysRole(w, WriterRole, c, d)
    case Delay(_) =>
      d.row == w.row && d.outputs == w.outputs && d.bus == w.bus + [ProbeCompleted] && d.result == Some(Delayed)
    case Finalize(_, report) => FinalizesTask(cfg, w, report, d)
    case MarkFailed(error) => MarksFailed(w, error, d)
  }

  // ---- An attempt's effects, one after another ----

  /** The world with one attempt's effects so far. */
  function Seen(w: World, id: nat, a: Activity, e: Effect): World {
    World(e.row, e.outputs, e.bus, w.history, w.attempts[id := Attempt(|w.history|, a, e.progress)])
  }

  predicate IsOver(p: Progress) {
    p.Returned? || p.Closed?
  }

  /** The next effect of an attempt that is not over. */
  function NextEffect(cfg: Config, w: World, id: nat, a: Activity, e: Effect, c: Choice): Effect {
    WorkEffect(cfg, Seen(w, id, a, e), Attempt(|w.history|, a, e.progress), c)
  }

  lemma OneEffect(cfg: Config, w: World, id: nat, a: Activity, e: Effect, c: Choice)
    requires !IsOver(e.progress) && FitsActivity(a, c.output)
    ensures Enabled(cfg, Seen(w, id, a, e), Work(id, c))
    ensures Apply(cfg, Seen(w, id, a, e), Work(id, c)) == Seen(w, id, a, NextEffect(cfg, w, id, a, e, c))
  {
    var v := Seen(w, id, a, e);
    assert v.attempts[id] == Attempt(|w.history|, a, e.progress);
  }

  /** Effects that bring an attempt from `e` to its end `end`, with the same choice throughout. */
  ghost predicate Ends(cfg: Config, w: World, id: nat, a: Activity, e: Effect, c: Choice, steps: seq<Step>,
                       end: Effect)
  {
    Leads(cfg, Seen(w, id, a, e), steps, Seen(w, id, a, end)) && IsOver(end.progress)
  }

  lemma EndsOneLater(cfg: Config, w: World, id: nat, a: Activity, e: Effect, c: Choice, more: seq<Step>, end: Effect)
    requires !IsOver(e.progress) && FitsActivity(a, c.output)
    requires Ends(cfg, w, id, a, NextEffect(cfg, w, id, a, e, c), c, more, end)
    ensures Ends(cfg, w, id, a, e, c, [Work(id, c)] + more, end)
  {
    OneEffect(cfg, w, id, a, e, c);
    LeadsStep(cfg, Seen(w, id, a, e), Work(id, c), more, Seen(w, id, a, end));
  }

  /** An announcement is published. */
  lemma AnnouncementEnds(cfg: Config, w: World, id: nat, a: Activity, e: Effect, c: Choice)
    returns (steps: seq<Step>, end: Effect)
    requires e.progress.Announcing? && c.published && FitsActivity(a, c.output)
    ensures Ends(cfg, w, id, a, e, c, steps, end)
    ensures end == Effect(e.row, e.outputs, e.bus + [e.progress.event], Returned(e.progress.result))
  {
    end := NextEffect(cfg, w, id, a, e, c);
    EndsOneLater(cfg, w, id, a, e, c, [], end);
    steps := [Work(id, c)] + [];
  }

  /** An attempt of any other activity than a role, or of the router, ends with at most one more
      effect after its first one. */
  lemma SecondEffectEnds(cfg: Config, w: World, id: nat, a: Activity, e: Effect, c: Choice)
    returns (steps: seq<Step>, end: Effect)
    requires !IsOver(e.progress) && FitsActivity(a, c.output) && c.published
    requires var next := NextEffect(cfg, w, id, a, e, c); IsOver(next.progress) || next.progress.Announcing?
    ensures Ends(cfg, w, id, a, e, c, steps, end)
    ensures var next := NextEffect(cfg, w, id, a, e, c);
            end == if IsOver(next.progress) then next
                   else Effect(next.row, next.outputs, next.bus + [next.progress.event], Returned(next.progress.result))
  {
    var next := NextEffect(cfg, w, id, a, e, c);
    var more := [];
    end := next;
    if next.progress.Announcing? {
      more, end := AnnouncementEnds(cfg, w, id, a, next, c);
    }
    EndsOneLater(cfg, w, id, a, e, c, more, end);
    steps := [Work(id, c)] + more;
  }

  function First(w: World): Effect {
    Effect(w.row, w.outputs, w.bus, Ready)
  }

  function DeedOf(e: Effect): Deed {
    Deed(e.row, e.outputs, e.bus, if e.progress.Returned? then Some(e.progress.result) else None)
  }

  /** The effect of a session, and of the announcement that it may leave to be made. */
  function Announced(e: Effect): Effect {
    if e.progress.Announcing?
    then Effect(e.row, e.outputs, e.bus + [e.progress.event], Returned(e.progress.result)) else e
  }

  lemma InitializePerforms(cfg: Config, w: World)
    ensures var e := InitializeEffect(cfg, w);
            (IsOver(e.progress) || e.progress.Announcing?) && Initializes(cfg, w, DeedOf(Announced(e)))
  {
  }

  lemma FinalizePerforms(cfg: Config, w: World, report: Option<string>)
    ensures var e := FinalizeEffect(cfg, w, report);
            (IsOver(e.progress) || e.progress.Announcing?) && FinalizesTask(cfg, w, report, DeedOf(Announced(e)))
  {
  }

  lemma MarkFailedPerforms(w: World, error: string)
    ensures var e := MarkFailedEffect(w, error);
            (IsOver(e.progress) || e.progress.Announcing?) && MarksFailed(w, error, DeedOf(Announced(e)))
  {
  }

  lemma SessionPerforms(cfg: Config, w: World, id: nat, a: Activity, c: Choice)
    requires RoleOf(a).None? && !a.SelectEngine? && FitsActivity(a, c.output)
    ensures var e := NextEffect(cfg, w, id, a, First(w), c);
            (IsOver(e.progress) || e.progress.Announcing?) && Performs(cfg, w, a, c, DeedOf(Announced(e)))
  {
    var seen := Seen(w, id, a, First(w));
    match a
    case Initialize => InitializePerforms(cfg, seen);
    case Finalize(_, report) => FinalizePerforms(cfg, seen, report);
    case MarkFailed(error) => MarkFailedPerforms(seen, error);
    case _ =>
  }

  lemma SessionEnds(cfg: Config, w: World, id: nat, a: Activity, c: Choice) returns (steps: seq<Step>, end: Effect)
    requires RoleOf(a).None? && !a.SelectEngine? && FitsActivity(a, c.output) && c.published
    ensures Ends(cfg, w, id, a, First(w), c, steps, end) && Performs(cfg, w, a, c, DeedOf(end))
  {
    SessionPerforms(cfg, w, id, a, c);
    steps, end := SecondEffectEnds(cfg, w, id, a, First(w), c);
  }

  lemma RoutingEnds(cfg: Config, w: World, id: nat, c: Choice) returns (steps: seq<Step>, end: Effect)
    requires FitsActivity(SelectEngine, c.output) && c.published
    ensures Ends(cfg, w, id, SelectEngine, First(w), c, steps, end) && Performs(cfg, w, SelectEngine, c, DeedOf(end))
  {
    var decided := First(w).(progress := Computed(c.output));
    steps, end := SecondEffectEnds(cfg, w, id, SelectEngine, decided, c);
    EndsOneLater(cfg, w, id, SelectEngine, First(w), c, steps, end);
    steps := [Work(id, c)] + steps;
  }

  /** A role whose output is not stored yet. */
  lemma FreshRoleEnds(cfg: Config, w: World, id: nat, a: Activity, c: Choice) returns (steps: seq<Step>, end: Effect)
    requires RoleOf(a).Some? && RoleOf(a).value !in w.outputs && FitsActivity(a, c.output) && c.published
    ensures Ends(cfg, w, id, a, First(w), c, steps, end) && Performs(cfg, w, a, c, DeedOf(end))
  {
    var r, e := RoleOf(a).value, First(w);
    var inserted := Effect(w.row, w.outputs[r := c.output], w.bus, Announcing(RoleCompleted(r), c.output));
    steps, end := AnnouncementEnds(cfg, w, id, a, inserted, c);
    EndsOneLater(cfg, w, id, a, e.(progress := Inserting(c.output)), c, steps, end);
    steps := [Work(id, c)] + steps;
    EndsOneLater(cfg, w, id, a, e.(progress := Unsaved(c.output)), c, steps, end);
    steps := [Work(id, c)] + steps;
    EndsOneLater(cfg, w, id, a, e.(progress := Computed(c.output)), c, steps, end);
    steps := [Work(id, c)] + steps;
    EndsOneLater(cfg, w, id, a, e.(progress := Working), c, steps, end);
    steps := [Work(id, c)] + steps;
    EndsOneLater(cfg, w, id, a, e, c, steps, end);
    steps := [Work(id, c)] + steps;
  }

  lemma StoredRoleEnds(cfg: Config, w: World, id: nat, a: Activity, c: Choice) returns (steps: seq<Step>, end: Effect)
    requires RoleOf(a).Some? && RoleOf(a).value in w.outputs && FitsActivity(a, c.output) && c.published
    ensures Ends(cfg, w, id, a, First(w), c, steps, end) && Performs(cfg, w, a, c, DeedOf(end))
  {
    steps, end := SecondEffectEnds(cfg, w, id, a, First(w), c);
  }

  lemma ActivityEnds(cfg: Config, w: World, id: nat, a: Activity, c: Choice) returns (steps: seq<Step>, end: Effect)
    requires FitsActivity(a, c.output) && c.published
    ensures Ends(cfg, w, id, a, First(w), c, steps, end) && Performs(cfg, w, a, c, DeedOf(end))
  {
    if a.SelectEngine? {
      steps, end := RoutingEnds(cfg, w, id, c);
    } else if RoleOf(a).None? {
      steps, end := SessionEnds(cfg, w, id, a, c);
    } else if RoleOf(a).value in w.outputs {
      steps, end := StoredRoleEnds(cfg, w, id, a, c);
    } else {
      steps, end := FreshRoleEnds(cfg, w, id, a, c);
    }
  }

  /** The world after an attempt that did `d`. */
  function AfterAttempt(w: World, id: nat, a: Activity, d: Deed): World {
    World(d.row, d.outputs, d.bus, w.history,
          w.attempts[id := Attempt(|w.history|, a, if d.result.Some? then Returned(d.result.value) else Closed)])
  }

  /** From every state of the task: an attempt of the pending activity, left alone and with its
      publication going through, does exactly what its activity should do, and returns or raises. */
  lemma AttemptAlonePerforms(cfg: Config, w: World, id: nat, c: Choice) returns (steps: seq<Step>, d: Deed)
    requires id !in w.attempts && Current(cfg, w).Some? && FitsActivity(Current(cfg, w).value, c.output) && c.published
    ensures Leads(cfg, w, steps, AfterAttempt(w, id, Current(cfg, w).value, d))
    ensures Performs(cfg, w, Current(cfg, w).value, c, d)
  {
    var a := Current(cfg, w).value;
    var more, end := ActivityEnds(cfg, w, id, a, c);
    d := DeedOf(end);
    LeadsStep(cfg, w, Begin(id), more, Seen(w, id, a, end));
    steps := [Begin(id)] + more;
  }
}
