/**
 One task under its durable workflow: what holds in every run of `DurableTask`.

 A world is reachable if some run of attempts, workflow and API leads to it, with crashes,
 retries and duplicates wherever they fall.
 */
module TaskRuns {
  import opened Wrappers
  import opened EngineChoices
  import opened Orchestration
  import opened WorkflowSchedules
  import opened DurableTask
  import Rows = TaskRows

  ghost predicate Reachable(cfg: Config, w: World) {
    exists first, steps :: Init(cfg, first) && Leads(cfg, first, steps, w)
  }

  lemma ReachableInv(cfg: Config, w: World)
    requires Reachable(cfg, w)
    ensures Inv(cfg, w)
  {
    var first, steps :| Init(cfg, first) && Leads(cfg, first, steps, w);
    InitInv(cfg, first);
    RunInv(cfg, first, steps, w);
  }

  /** A role's stored output never changes, and every attempt of the role that returns, at any
      time, returns it. */
  lemma RolesHaveOneOutput(cfg: Config, w: World, steps: seq<Step>, v: World, id: nat)
    requires Reachable(cfg, w) && Leads(cfg, w, steps, v)
    ensures forall r :: r in w.outputs ==> StoredAs(v, r, w.outputs[r])
    ensures id in v.attempts && v.attempts[id].progress.Returned? && RoleOf(v.attempts[id].activity).Some? ==>
              StoredAs(v, RoleOf(v.attempts[id].activity).value, v.attempts[id].progress.result)
  {
    ReachableInv(cfg, w);
    RunInv(cfg, w, steps, v);
    if id in v.attempts {
      assert AttemptOk(cfg, v, v.attempts[id]);
    }
  }

  /** At most one completion of a role is ever published, and only for a stored output. */
  lemma RolesCompleteAtMostOnce(cfg: Config, w: World, i: nat, j: nat)
    requires Reachable(cfg, w) && i < |w.bus| && j < |w.bus|
    requires w.bus[i].RoleCompleted? && w.bus[i] == w.bus[j]
    ensures i == j && w.bus[i].role in w.outputs
  {
    ReachableInv(cfg, w);
  }

  lemma NotesAreStored(cfg: Config, w: World, i: nat, notes: seq<string>)
    requires Inv(cfg, w) && i < |w.history| && IsNotes(w.history[i], notes)
    ensures ResearcherRole in w.outputs && w.outputs[ResearcherRole].Notes? && w.outputs[ResearcherRole].notes == notes
  {
    assert OutcomeOk(w, w.history[i]);
  }

  lemma RecordedIsStored(cfg: Config, w: World, i: nat, p: Payload)
    requires Inv(cfg, w) && i < |w.history| && w.history[i] == Done(p) && RoleOfResult(p).Some?
    ensures StoredAs(w, RoleOfResult(p).value, p)
  {
    assert OutcomeOk(w, w.history[i]);
  }

  /** The inputs of an activity are the stored outputs of the roles before it. */
  ghost predicate InputsAreStored(w: World, a: Activity) {
    match a
    case RunAnalyst(_, notes, _) =>
      ResearcherRole in w.outputs && w.outputs[ResearcherRole].Notes? && w.outputs[ResearcherRole].notes == notes
    case RunWriter(_, notes, analysis, _) =>
      && ResearcherRole in w.outputs && w.outputs[ResearcherRole].Notes? && w.outputs[ResearcherRole].notes == notes
      && StoredAs(w, AnalystRole, Analysed(analysis))
    case Finalize(engine, report) =>
      if engine == LANGGRAPH then Done(GraphReport(report)) in w.history
      else report.Some? && StoredAs(w, WriterRole, Written(report.value))
    case _ => true
  }

  lemma CarriedIsStored(cfg: Config, w: World, i: nat, a: Activity)
    requires Inv(cfg, w) && i <= |w.history| && CarriesRecordedData(cfg.input, w.history[..i], a)
    ensures InputsAreStored(w, a)
  {
    var before, roles := w.history[..i], RolesBegin(cfg.input);
    match a
    case RunAnalyst(_, notes, _) => NotesAreStored(cfg, w, roles, notes);
    case RunWriter(_, notes, analysis, _) =>
      NotesAreStored(cfg, w, roles, notes);
      RecordedIsStored(cfg, w, roles + 1, Analysed(analysis));
    case Finalize(engine, report) =>
      var last := RolesEnd(cfg.input, engine) - 1;
      assert w.history[last] == before[last];
      if engine != LANGGRAPH {
        RecordedIsStored(cfg, w, last, Written(report.value));
      }
    case _ =>
  }

  lemma ScheduledCarries(cfg: Config, w: World, i: nat)
    requires Inv(cfg, w) && i < |Scheduled(cfg.input, w.history)|
    ensures i <= |w.history| && CarriesRecordedData(cfg.input, w.history[..i], Scheduled(cfg.input, w.history)[i])
    ensures InputsAreStored(w, Scheduled(cfg.input, w.history)[i])
  {
    ScheduledAt(cfg.input, w.history, |w.history|);
    ScheduledAt(cfg.input, w.history, i);
    InputsAreRecordedResults(cfg.input, w.history[..i]);
    CarriedIsStored(cfg, w, i, Scheduled(cfg.input, w.history)[i]);
  }

  /** Whatever was retried or ran twice: each attempt carries what was recorded before its
      activity, and works on the stored outputs of the roles before it, at whatever time one looks. */
  lemma AttemptInputsAreStored(cfg: Config, w: World, id: nat)
    requires Reachable(cfg, w) && id in w.attempts
    ensures var a := w.attempts[id];
            a.index <= |w.history| && CarriesRecordedData(cfg.input, w.history[..a.index], a.activity)
    ensures InputsAreStored(w, w.attempts[id].activity)
  {
    ReachableInv(cfg, w);
    assert AttemptOk(cfg, w, w.attempts[id]);
    ScheduledCarries(cfg, w, w.attempts[id].index);
  }

  /** Every change of the task's status is legal, and a success, once committed, is final:
      neither a failure marking nor anything else changes the row again. */
  lemma StatusChangesAreLegal(cfg: Config, w: World, step: Step)
    requires Reachable(cfg, w) && Enabled(cfg, w, step)
    ensures Rows.GoodChange(w.row, Apply(cfg, w, step).row)
  {
    ReachableInv(cfg, w);
    StepRow(cfg, w, step);
  }

  lemma {:induction false} SuccessStays(cfg: Config, w: World, steps: seq<Step>, v: World)
    requires Inv(cfg, w) && w.row.Some? && w.row.value.status == Rows.Succeeded && Leads(cfg, w, steps, v)
    ensures v.row == w.row
    decreases |steps|
  {
    if steps != [] {
      StepRow(cfg, w, steps[0]);
      StepInv(cfg, w, steps[0]);
      SuccessStays(cfg, Apply(cfg, w, steps[0]), steps[1..], v);
    }
  }

  lemma SuccessIsFinal(cfg: Config, w: World, steps: seq<Step>, v: World)
    requires Reachable(cfg, w) && Leads(cfg, w, steps, v)
    requires w.row.Some? && w.row.value.status == Rows.Succeeded
    ensures v.row == w.row
  {
    ReachableInv(cfg, w);
    SuccessStays(cfg, w, steps, v);
  }

  /** A task has a report exactly when it has succeeded. The report is the text of the one
      stored writer output, or of a recorded LangGraph result, or a stub where that is empty. */
  lemma SuccessfulReport(cfg: Config, w: World)
    requires Reachable(cfg, w) && w.row.Some?
    ensures w.row.value.report.Some? <==> w.row.value.status == Rows.Succeeded
    ensures w.row.value.status == Rows.Succeeded ==>
              exists report :: w.row.value.report.value == Rows.ReportText(report, cfg.taskId)
                && (Done(GraphReport(report)) in w.history
                    || (report.Some? && StoredAs(w, WriterRole, Written(report.value))))
  {
    ReachableInv(cfg, w);
    if w.row.value.status == Rows.Succeeded {
      var scheduled := Scheduled(cfg.input, w.history);
      var i :| 0 <= i < |scheduled| && Finalizes(cfg, scheduled[i], w.row.value.report.value);
      ScheduledCarries(cfg, w, i);
      assert w.row.value.report.value == Rows.ReportText(scheduled[i].report, cfg.taskId);
    }
  }

  /** A manual engine choice is never overridden. */
  lemma ManualEngineIsKept(cfg: Config, w: World)
    requires Reachable(cfg, w) && cfg.input.engineRequested != AUTO && w.row.Some?
    ensures w.row.value.engineSelected in {None, Some(cfg.input.engineRequested)}
    ensures SelectEngine !in Scheduled(cfg.input, w.history)
  {
    ReachableInv(cfg, w);
    ManualChoiceIsNeverRouted(cfg.input, w.history);
  }
}
