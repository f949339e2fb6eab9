/**
 What an attempt that returned or announces has done, in every run of one task: the events
 tell the truth, a start and a success are published at most once, and a workflow that
 completes leaves a succeeded row with the recorded report.
 */
module TaskCompletion {
  import opened Wrappers
  import opened EngineChoices
  import opened Orchestration
  import opened WorkflowSchedules
  import opened DurableTask
  import opened TaskRuns
  import Rows = TaskRows

  /** The events that an activity may announce. */
  predicate MayAnnounce(a: Activity, e: Event) {
    match a
    case Initialize => e == TaskStarted
    case SelectEngine => e.EngineSelected? && e.engine in {LANGGRAPH, CREWAI}
    case RunLangGraph(_) => false
    case RunResearcher(_, _) => e == RoleCompleted(ResearcherRole)
    case RunAnalyst(_, _, _) => e == RoleCompleted(AnalystRole)
    case RunWriter(_, _, _, _) => e == RoleCompleted(WriterRole)
    case Delay(_) => e == ProbeCompleted
    case Finalize(_, _) => e == TaskSucceeded
    case MarkFailed(error) => e == TaskFailed(error)
  }

  predicate HasStarted(row: Option<Rows.TaskRow>) {
    row.Some? && row.value.status != Rows.Queued
  }

  predicate HasSucceeded(row: Option<Rows.TaskRow>) {
    row.Some? && row.value.status == Rows.Succeeded
  }

  /** The row has succeeded with the report that a finalize attempt returns. */
  predicate StoresReport(row: Option<Rows.TaskRow>, p: Payload) {
    HasSucceeded(row) && p.Finalized? && row.value.report == Some(p.finalReport)
  }

  /** What an event says of the row holds. */
  predicate IsTrue(row: Option<Rows.TaskRow>, e: Event) {
    (e.TaskStarted? ==> HasStarted(row)) && (e.TaskSucceeded? ==> HasSucceeded(row))
  }

  /** What an attempt's result says of the row. */
  predicate ResultHolds(row: Option<Rows.TaskRow>, a: Activity, p: Payload) {
    (a.Initialize? ==> HasStarted(row)) && (a.Finalize? ==> StoresReport(row, p))
  }

  predicate Truthful(row: Option<Rows.TaskRow>, a: Activity, p: Progress) {
    match p
    case Announcing(e, result) =>
      && MayAnnounce(a, e) && IsTrue(row, e) && ResultHolds(row, a, result)
      && (a.SelectEngine? ==> result.Selected? && e == EngineSelected(result.engine))
    case Returned(result) => ResultHolds(row, a, result)
    case _ => true
  }

  ghost predicate Comes(cfg: Config, w: World, e: Event) {
    exists i :: 0 <= i < |Scheduled(cfg.input, w.history)| && MayAnnounce(Scheduled(cfg.input, w.history)[i], e)
  }

  ghost predicate EventHolds(cfg: Config, w: World, e: Event) {
    IsTrue(w.row, e) && Comes(cfg, w, e)
  }

  /** A recorded result is one of its activity, and a recorded report is the row's. */
  ghost predicate RecordHolds(cfg: Config, w: World, i: nat)
    requires i < |w.history|
  {
    w.history[i].Done? ==>
      && i < |Scheduled(cfg.input, w.history)|
      && FitsActivity(Scheduled(cfg.input, w.history)[i], w.history[i].payload)
      && ResultHolds(w.row, Scheduled(cfg.input, w.history)[i], w.history[i].payload)
  }

  ghost predicate TruthInv(cfg: Config, w: World) {
    && Inv(cfg, w)
    && (forall id :: id in w.attempts ==> Truthful(w.row, w.attempts[id].activity, w.attempts[id].progress))
    && (forall i :: 0 <= i < |w.bus| ==> EventHolds(cfg, w, w.bus[i]))
    && (forall i :: 0 <= i < |w.history| ==> RecordHolds(cfg, w, i))
  }

  // ---- Every step keeps it ----

  lemma TruthStays(before: Option<Rows.TaskRow>, after: Option<Rows.TaskRow>, a: Activity, p: Progress)
    requires Rows.GoodChange(before, after) && Truthful(before, a, p)
    ensures Truthful(after, a, p)
  {
  }

  lemma EventStays(cfg: Config, w: World, v: World, e: Event)
    requires Rows.GoodChange(w.row, v.row) && Extends(cfg, w, v) && EventHolds(cfg, w, e)
    ensures EventHolds(cfg, v, e)
  {
    var i :| 0 <= i < |Scheduled(cfg.input, w.history)| && MayAnnounce(Scheduled(cfg.input, w.history)[i], e);
    assert MayAnnounce(Scheduled(cfg.input, v.history)[i], e);
  }

  lemma FinalizeIsTruthful(cfg: Config, w: World, engine: string, report: Option<string>)
    requires RowOk(cfg, w)
    ensures var e := FinalizeEffect(cfg, w, report); Truthful(e.row, Finalize(engine, report), e.progress)
  {
    Rows.FinalizeSucceedsExactly(w.row, Rows.ReportText(report, cfg.taskId));
  }

  lemma RoleIsTruthful(w: World, a: Activity, p: Progress, c: Choice)
    requires RoleOf(a).Some? && Truthful(w.row, a, p)
    ensures var e := RoleEffect(w, RoleOf(a).value, p, c); Truthful(e.row, a, e.progress)
  {
  }

  lemma WorkIsTruthful(cfg: Config, w: World, a: Attempt, c: Choice)
    requires RowOk(cfg, w) && Truthful(w.row, a.activity, a.progress)
    requires ProgressOk(w, a.activity, a.progress)
    ensures var e := WorkEffect(cfg, w, a, c); Truthful(e.row, a.activity, e.progress)
  {
    if RoleOf(a.activity).Some? {
      RoleIsTruthful(w, a.activity, a.progress, c);
    } else if a.progress.Ready? && a.activity.Finalize? {
      FinalizeIsTruthful(cfg, w, a.activity.engine, a.activity.report);
    }
  }

  lemma StepIsTruthful(cfg: Config, w: World, step: Step, id: nat)
    requires TruthInv(cfg, w) && Enabled(cfg, w, step) && id in Apply(cfg, w, step).attempts
    ensures var v := Apply(cfg, w, step); Truthful(v.row, v.attempts[id].activity, v.attempts[id].progress)
  {
    StepRow(cfg, w, step);
    if id in w.attempts {
      var a := w.attempts[id];
      if step.Work? && step.id == id {
        assert AttemptOk(cfg, w, a);
        WorkIsTruthful(cfg, w, a, step.choice);
      } else {
        TruthStays(w.row, Apply(cfg, w, step).row, a.activity, a.progress);
      }
    }
  }

  /** A step publishes nothing, or what an attempt announces. */
  lemma StepBus(cfg: Config, w: World, step: Step)
    requires Enabled(cfg, w, step)
    ensures var v := Apply(cfg, w, step);
            || v.bus == w.bus
            || (step.Work? && w.attempts[step.id].progress.Announcing?
                && v.bus == w.bus + [w.attempts[step.id].progress.event])
  {
  }

  lemma StepEvents(cfg: Config, w: World, step: Step, i: nat)
    requires TruthInv(cfg, w) && Enabled(cfg, w, step) && i < |Apply(cfg, w, step).bus|
    ensures EventHolds(cfg, Apply(cfg, w, step), Apply(cfg, w, step).bus[i])
  {
    StepRow(cfg, w, step);
    StepExtends(cfg, w, step);
    StepBus(cfg, w, step);
    if i == |w.bus| {
      var a := w.attempts[step.id];
      assert AttemptOk(cfg, w, a);
      assert MayAnnounce(Scheduled(cfg.input, w.history)[a.index], a.progress.event);
    }
    EventStays(cfg, w, Apply(cfg, w, step), Apply(cfg, w, step).bus[i]);
  }

  lemma RecordStays(cfg: Config, w: World, v: World, i: nat)
    requires Rows.GoodChange(w.row, v.row) && Extends(cfg, w, v)
    requires i < |w.history| && i < |v.history| && v.history[i] == w.history[i] && RecordHolds(cfg, w, i)
    ensures RecordHolds(cfg, v, i)
  {
    if w.history[i].Done? {
      TruthStays(w.row, v.row, Scheduled(cfg.input, w.history)[i], Returned(w.history[i].payload));
    }
  }

  lemma AcceptedRecord(cfg: Config, w: World, id: nat)
    requires TruthInv(cfg, w) && Enabled(cfg, w, Accept(id))
    ensures RecordHolds(cfg, Apply(cfg, w, Accept(id)), |w.history|)
  {
    var a := w.attempts[id];
    assert AttemptOk(cfg, w, a) && Truthful(w.row, a.activity, a.progress);
    StepExtends(cfg, w, Accept(id));
  }

  lemma StepAddsRecord(cfg: Config, w: World, step: Step)
    requires Enabled(cfg, w, step)
    ensures var v := Apply(cfg, w, step);
            && |w.history| <= |v.history| && (forall i :: 0 <= i < |w.history| ==> v.history[i] == w.history[i])
            && (|w.history| < |v.history| ==>
                  |v.history| == |w.history| + 1 && (step.Accept? || v.history[|w.history|].Failed?))
  {
  }

  lemma StepRecords(cfg: Config, w: World, step: Step, i: nat)
    requires TruthInv(cfg, w) && Enabled(cfg, w, step) && i < |Apply(cfg, w, step).history|
    ensures RecordHolds(cfg, Apply(cfg, w, step), i)
  {
    StepRow(cfg, w, step);
    StepExtends(cfg, w, step);
    StepAddsRecord(cfg, w, step);
    if i < |w.history| {
      RecordStays(cfg, w, Apply(cfg, w, step), i);
    } else if step.Accept? {
      AcceptedRecord(cfg, w, step.id);
    }
  }

  lemma StepTruth(cfg: Config, w: World, step: Step)
    requires TruthInv(cfg, w) && Enabled(cfg, w, step)
    ensures TruthInv(cfg, Apply(cfg, w, step))
  {
    var v := Apply(cfg, w, step);
    StepInv(cfg, w, step);
    forall id | id in v.attempts
      ensures Truthful(v.row, v.attempts[id].activity, v.attempts[id].progress)
    {
      StepIsTruthful(cfg, w, step, id);
    }
    forall i | 0 <= i < |v.bus|
      ensures EventHolds(cfg, v, v.bus[i])
    {
      StepEvents(cfg, w, step, i);
    }
    forall i | 0 <= i < |v.history|
      ensures RecordHolds(cfg, v, i)
    {
      StepRecords(cfg, w, step, i);
    }
  }

  lemma {:induction false} RunTruth(cfg: Config, w: World, steps: seq<Step>, v: World)
    requires TruthInv(cfg, w) && Leads(cfg, w, steps, v)
    ensures TruthInv(cfg, v)
    decreases |steps|
  {
    if steps != [] {
      StepTruth(cfg, w, steps[0]);
      RunTruth(cfg, Apply(cfg, w, steps[0]), steps[1..], v);
    }
  }

  lemma ReachableTruth(cfg: Config, w: World)
    requires Reachable(cfg, w)
    ensures TruthInv(cfg, w)
  {
    var first, steps :| Init(cfg, first) && Leads(cfg, first, steps, w);
    InitInv(cfg, first);
    RunTruth(cfg, first, steps, w);
  }

  // ---- A start and a success happen once ----

  /** The events that a row can bring about only once. */
  predicate Unique(e: Event) {
    e.TaskStarted? || e.TaskSucceeded?
  }

  predicate Says(a: Attempt, e: Event) {
    a.progress.Announcing? && a.progress.event == e
  }

  ghost predicate OnceInv(w: World, e: Event) {
    && (forall i, j :: 0 <= i < j < |w.bus| && w.bus[i] == e ==> w.bus[j] != e)
    && (forall id :: id in w.attempts && Says(w.attempts[id], e) ==> e !in w.bus)
    && (forall id, other :: id in w.attempts && other in w.attempts && id != other ==>
          !(Says(w.attempts[id], e) && Says(w.attempts[other], e)))
  }

  /** Before an attempt announces a start or a success, the row did not have it. */
  lemma NewsIsNew(cfg: Config, w: World, a: Attempt, c: Choice, e: Event)
    requires Unique(e) && !Says(a, e) && ProgressOk(w, a.activity, a.progress)
    requires Says(a.(progress := WorkEffect(cfg, w, a, c).progress), e)
    ensures !IsTrue(w.row, e)
  {
  }

  /** An announcement in the making is published, or lost. */
  lemma PublishedOnce(w: World, v: World, id: nat, e: Event)
    requires OnceInv(w, e) && id in w.attempts && Says(w.attempts[id], e)
    requires v.bus == w.bus || v.bus == w.bus + [e]
    requires v.attempts.Keys == w.attempts.Keys && !Says(v.attempts[id], e)
    requires forall other :: other in w.attempts && other != id ==> v.attempts[other] == w.attempts[other]
    ensures OnceInv(v, e)
  {
  }

  /** An attempt comes to announce an event that nobody has announced. */
  lemma AnnouncedOnce(w: World, v: World, id: nat, e: Event)
    requires e !in w.bus && (forall other :: other in w.attempts ==> !Says(w.attempts[other], e))
    requires v.bus == w.bus && id in v.attempts
    requires forall other :: other in v.attempts && other != id ==>
               other in w.attempts && v.attempts[other] == w.attempts[other]
    ensures OnceInv(v, e)
  {
  }

  /** Nobody comes to announce it, and it is not published. */
  lemma StaysOnce(w: World, v: World, e: Event)
    requires OnceInv(w, e)
    requires v.bus == w.bus || exists other :: other != e && v.bus == w.bus + [other]
    requires forall id :: id in v.attempts && Says(v.attempts[id], e) ==> id in w.attempts && Says(w.attempts[id], e)
    ensures OnceInv(v, e)
  {
  }

  lemma NobodyAnnounced(cfg: Config, w: World, e: Event)
    requires TruthInv(cfg, w) && !IsTrue(w.row, e)
    ensures e !in w.bus && forall id :: id in w.attempts ==> !Says(w.attempts[id], e)
  {
  }

  lemma WorkOnce(cfg: Config, w: World, id: nat, c: Choice, e: Event)
    requires TruthInv(cfg, w) && Enabled(cfg, w, Work(id, c)) && Unique(e) && OnceInv(w, e)
    ensures OnceInv(Apply(cfg, w, Work(id, c)), e)
  {
    var a, v := w.attempts[id], Apply(cfg, w, Work(id, c));
    StepBus(cfg, w, Work(id, c));
    assert AttemptOk(cfg, w, a);
    if Says(a, e) {
      PublishedOnce(w, v, id, e);
    } else if Says(v.attempts[id], e) {
      NewsIsNew(cfg, w, a, c, e);
      NobodyAnnounced(cfg, w, e);
      AnnouncedOnce(w, v, id, e);
    } else {
      StaysOnce(w, v, e);
    }
  }

  lemma StepOnce(cfg: Config, w: World, step: Step, e: Event)
    requires TruthInv(cfg, w) && Enabled(cfg, w, step) && Unique(e) && OnceInv(w, e)
    ensures OnceInv(Apply(cfg, w, step), e)
  {
    if step.Work? {
      WorkOnce(cfg, w, step.id, step.choice, e);
    } else {
      StaysOnce(w, Apply(cfg, w, step), e);
    }
  }

  lemma {:induction false} RunOnce(cfg: Config, w: World, steps: seq<Step>, v: World, e: Event)
    requires TruthInv(cfg, w) && Unique(e) && OnceInv(w, e) && Leads(cfg, w, steps, v)
    ensures OnceInv(v, e)
    decreases |steps|
  {
    if steps != [] {
      StepOnce(cfg, w, steps[0], e);
      StepTruth(cfg, w, steps[0]);
      RunOnce(cfg, Apply(cfg, w, steps[0]), steps[1..], v, e);
    }
  }

  // ---- What holds in every run ----

  /** A published event tells the truth: it is one of a scheduled activity; a task whose start
      was published is not queued any more, and one whose success was published has succeeded. */
  lemma EventsAreTrue(cfg: Config, w: World, i: nat)
    requires Reachable(cfg, w) && i < |w.bus|
    ensures exists k :: 0 <= k < |Scheduled(cfg.input, w.history)|
                        && MayAnnounce(Scheduled(cfg.input, w.history)[k], w.bus[i])
    ensures w.bus[i].TaskStarted? ==> HasStarted(w.row)
    ensures w.bus[i].TaskSucceeded? ==> HasSucceeded(w.row)
  {
    ReachableTruth(cfg, w);
    assert EventHolds(cfg, w, w.bus[i]);
  }

  /** What an attempt is about to announce is the event of its activity, and for the router the
      decision that it returns. */
  lemma AttemptsAnnounceTheirEvents(cfg: Config, w: World, id: nat)
    requires Reachable(cfg, w) && id in w.attempts && w.attempts[id].progress.Announcing?
    ensures MayAnnounce(w.attempts[id].activity, w.attempts[id].progress.event)
    ensures w.attempts[id].activity.SelectEngine? ==>
              && w.attempts[id].progress.result.Selected?
              && w.attempts[id].progress.event == EngineSelected(w.attempts[id].progress.result.engine)
  {
    ReachableTruth(cfg, w);
  }

  /** However often initialize and finalize are retried or run twice: a start and a success are
      published at most once. */
  lemma StartAndSuccessArePublishedOnce(cfg: Config, w: World, i: nat, j: nat)
    requires Reachable(cfg, w) && i < |w.bus| && j < |w.bus|
    requires w.bus[i] in {TaskStarted, TaskSucceeded} && w.bus[i] == w.bus[j]
    ensures i == j
  {
    var first, steps :| Init(cfg, first) && Leads(cfg, first, steps, w);
    InitInv(cfg, first);
    RunOnce(cfg, first, steps, w, w.bus[i]);
  }

  /** Every finalize attempt that returns, at any time and however often finalize ran, returns
      the report that the succeeded row stores. */
  lemma FinalizeReturnsTheStoredReport(cfg: Config, w: World, id: nat)
    requires Reachable(cfg, w) && id in w.attempts
    requires w.attempts[id].activity.Finalize? && w.attempts[id].progress.Returned?
    ensures StoresReport(w.row, w.attempts[id].progress.result)
  {
    ReachableTruth(cfg, w);
  }

  lemma LastBeforeCompleted(cfg: Config, w: World)
    requires HistoryOk(cfg, w) && Replay(cfg.input, w.history).point.Completed?
    ensures w.history != []
    ensures var n := |w.history| - 1;
            n < |Scheduled(cfg.input, w.history)| && Scheduled(cfg.input, w.history)[n].Finalize? && w.history[n].Done?
  {
    CompletedByFinalize(cfg.input, w.history);
    ScheduledAt(cfg.input, w.history, |w.history| - 1);
  }

  /** A workflow that has completed leaves a row that has succeeded, and the result recorded for
      finalize, the last one, is the report that the row stores. */
  lemma CompletedWorkflowsHaveSucceeded(cfg: Config, w: World)
    requires Reachable(cfg, w) && Replay(cfg.input, w.history).point.Completed?
    ensures w.row.Some? && w.row.value.status == Rows.Succeeded
    ensures w.history != [] && w.row.value.report.Some?
    ensures w.history[|w.history| - 1] == Done(Finalized(w.row.value.report.value))
  {
    ReachableTruth(cfg, w);
    LastBeforeCompleted(cfg, w);
    assert RecordHolds(cfg, w, |w.history| - 1);
  }
}
