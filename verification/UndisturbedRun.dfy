/**
 A task whose attempts are left alone completes, whatever its request, its router and its
 agents say; its row and the events it published are stated in closed form.
 */
module UndisturbedRun {
  import opened Sequences
  import opened Wrappers
  import opened EngineChoices
  import opened Orchestration
  import opened WorkflowSchedules
  import opened DurableTask
  import opened UndisturbedTask
  import Rows = TaskRows

  /** What the router decides and the agents return. */
  datatype Answers = Answers(engine: string, subtasks: map<string, string>, reason: string,
                             graphReport: Option<string>, notes: seq<string>, sources: seq<string>,
                             analysis: string, text: string)

  function OutputOf(answers: Answers, a: Activity): Payload {
    match a
    case Initialize => Initialized
    case SelectEngine => Selected(answers.engine, answers.subtasks)
    case RunLangGraph(_) => GraphReport(answers.graphReport)
    case RunResearcher(_, _) => Notes(answers.notes, answers.sources)
    case RunAnalyst(_, _, _) => Analysed(answers.analysis)
    case RunWriter(_, _, _, _) => Written(answers.text)
    case Delay(_) => Delayed
    case Finalize(_, _) => Finalized("")
    case MarkFailed(_) => Marked("")
  }

  function ChoiceOf(answers: Answers, a: Activity): Choice {
    Choice(OutputOf(answers, a), answers.reason, true, false)
  }

  // ---- What the task should come to ----

  function EngineOf(cfg: Config, answers: Answers): string {
    if cfg.input.engineRequested == AUTO then answers.engine else cfg.input.engineRequested
  }

  function ReportOf(cfg: Config, answers: Answers): Option<string> {
    if EngineOf(cfg, answers) == LANGGRAPH then answers.graphReport else Some(answers.text)
  }

  function RoleEvents(engine: string): seq<Event> {
    if engine == LANGGRAPH then []
    else [RoleCompleted(ResearcherRole), RoleCompleted(AnalystRole), RoleCompleted(WriterRole)]
  }

  function LastEvents(cfg: Config): seq<Event> {
    When(cfg.input.delay > 0, [ProbeCompleted]) + [TaskSucceeded]
  }

  /** The events of the whole task, in order. */
  function AllEvents(cfg: Config, answers: Answers): seq<Event> {
    [TaskStarted]
    + (When(cfg.input.engineRequested == AUTO, [EngineSelected(answers.engine)])
       + (RoleEvents(EngineOf(cfg, answers)) + LastEvents(cfg)))
  }

  // ---- On the way ----

  predicate OnTheWay(p: Point) {
    !p.AtMarkFailed? && !p.Completed? && !p.Raised?
  }

  /** The events to come when the workflow waits at `p`. */
  function EventsFrom(cfg: Config, answers: Answers, p: Point): seq<Event>
    requires OnTheWay(p)
  {
    match p
    case AtInitialize => AllEvents(cfg, answers)
    case AtSelect => [EngineSelected(answers.engine)] + (RoleEvents(EngineOf(cfg, answers)) + LastEvents(cfg))
    case AtLangGraph => LastEvents(cfg)
    case AtResearcher => RoleEvents(CREWAI) + LastEvents(cfg)
    case AtAnalyst => [RoleCompleted(AnalystRole), RoleCompleted(WriterRole)] + LastEvents(cfg)
    case AtWriter => [RoleCompleted(WriterRole)] + LastEvents(cfg)
    case AtDelay => [ProbeCompleted, TaskSucceeded]
    case AtFinalize => [TaskSucceeded]
  }

  function Left(p: Point): nat {
    match p
    case AtInitialize => 8
    case AtSelect => 7
    case AtLangGraph => 6
    case AtResearcher => 5
    case AtAnalyst => 4
    case AtWriter => 3
    case AtDelay => 2
    case AtFinalize => 1
    case _ => 0
  }

  ghost predicate EngineKnown(cfg: Config, answers: Answers, w: World, f: Frame) {
    && f.engine == EngineOf(cfg, answers)
    && w.row.Some? && w.row.value.engineSelected == Some(f.engine)
  }

  ghost predicate PlaceOk(cfg: Config, answers: Answers, w: World, f: Frame) {
    match f.point
    case AtInitialize => w.outputs == map[]
    case AtSelect => w.outputs == map[] && cfg.input.engineRequested == AUTO
    case AtLangGraph => EngineKnown(cfg, answers, w, f) && f.engine == LANGGRAPH
    case AtResearcher => EngineKnown(cfg, answers, w, f) && f.engine != LANGGRAPH && w.outputs == map[]
    case AtAnalyst =>
      EngineKnown(cfg, answers, w, f) && f.engine != LANGGRAPH && AnalystRole !in w.outputs && WriterRole !in w.outputs
    case AtWriter => EngineKnown(cfg, answers, w, f) && f.engine != LANGGRAPH && WriterRole !in w.outputs
    case AtDelay =>
      EngineKnown(cfg, answers, w, f) && f.report == ReportOf(cfg, answers) && cfg.input.delay > 0
    case AtFinalize => EngineKnown(cfg, answers, w, f) && f.report == ReportOf(cfg, answers)
    case _ => false
  }

  ghost predicate RowReady(w: World, f: Frame) {
    && w.row.Some? && w.row.value.report.None?
    && w.row.value.status == if f.point.AtInitialize? then Rows.Queued else Rows.Running
  }

  /** The workflow waits at `f`, nothing of what follows has happened, and ids from the history's length on are free. */
  ghost predicate Waits(cfg: Config, answers: Answers, w: World, f: Frame) {
    && f == Replay(cfg.input, w.history) && (forall id :: id in w.attempts ==> id < |w.history|)
    && OnTheWay(f.point) && PlaceOk(cfg, answers, w, f) && RowReady(w, f)
  }

  lemma OutputFits(answers: Answers, a: Activity)
    requires answers.engine in {LANGGRAPH, CREWAI}
    ensures FitsActivity(a, OutputOf(answers, a))
  {
  }

  /** An attempt of the pending activity is made, left alone, and accepted. */
  lemma OneActivity(cfg: Config, answers: Answers, w: World, f: Frame)
    returns (steps: seq<Step>, d: Deed, v: World)
    requires Waits(cfg, answers, w, f) && answers.engine in {LANGGRAPH, CREWAI}
    ensures Performs(cfg, w, Pending(f).value, ChoiceOf(answers, Pending(f).value), d)
    ensures d.result.Some? ==>
              && Leads(cfg, w, steps, v) && v.row == d.row && v.outputs == d.outputs && v.bus == d.bus
              && Replay(cfg.input, v.history) == Resume(cfg.input, f, Done(d.result.value))
              && v.history == w.history + [Done(d.result.value)]
              && forall id :: id in v.attempts ==> id < |v.history|
  {
    var id, a := |w.history|, Pending(f).value;
    OutputFits(answers, a);
    v := w;
    steps, d := AttemptAlonePerforms(cfg, w, id, ChoiceOf(answers, a));
    if d.result.Some? {
      var after := AfterAttempt(w, id, a, d);
      v := Apply(cfg, after, Accept(id));
      LeadsStep(cfg, after, Accept(id), [], v);
      LeadsOn(cfg, w, steps, after, [Accept(id)] + [], v);
      steps := steps + ([Accept(id)] + []);
      assert v.history[..|w.history|] == w.history;
    }
  }

  /** What the activity did, for the next place of the workflow. */
  ghost predicate Follows(w: World, d: Deed, v: World) {
    v.row == d.row && v.outputs == d.outputs && v.bus == d.bus
  }

  lemma StartMoves(cfg: Config, answers: Answers, w: World, f: Frame, d: Deed, v: World)
    requires Waits(cfg, answers, w, f) && (f.point.AtInitialize? || f.point.AtSelect?)
    requires Performs(cfg, w, Pending(f).value, ChoiceOf(answers, Pending(f).value), d) && Follows(w, d, v)
    ensures d.result.Some?
    ensures var g := Resume(cfg.input, f, Done(d.result.value));
            && OnTheWay(g.point) && PlaceOk(cfg, answers, v, g) && RowReady(v, g) && Left(g.point) < Left(f.point)
            && v.bus + EventsFrom(cfg, answers, g.point) == w.bus + EventsFrom(cfg, answers, f.point)
  {
  }

  lemma RoleMoves(cfg: Config, answers: Answers, w: World, f: Frame, d: Deed, v: World)
    requires Waits(cfg, answers, w, f)
    requires f.point.AtLangGraph? || f.point.AtResearcher? || f.point.AtAnalyst? || f.point.AtWriter?
    requires Performs(cfg, w, Pending(f).value, ChoiceOf(answers, Pending(f).value), d) && Follows(w, d, v)
    ensures d.result.Some?
    ensures var g := Resume(cfg.input, f, Done(d.result.value));
            && OnTheWay(g.point) && PlaceOk(cfg, answers, v, g) && RowReady(v, g) && Left(g.point) < Left(f.point)
            && v.bus + EventsFrom(cfg, answers, g.point) == w.bus + EventsFrom(cfg, answers, f.point)
  {
  }

  lemma DelayMoves(cfg: Config, answers: Answers, w: World, f: Frame, d: Deed, v: World)
    requires Waits(cfg, answers, w, f) && f.point.AtDelay?
    requires Performs(cfg, w, Pending(f).value, ChoiceOf(answers, Pending(f).value), d) && Follows(w, d, v)
    ensures d.result.Some?
    ensures var g := Resume(cfg.input, f, Done(d.result.value));
            && OnTheWay(g.point) && PlaceOk(cfg, answers, v, g) && RowReady(v, g) && Left(g.point) < Left(f.point)
            && v.bus + EventsFrom(cfg, answers, g.point) == w.bus + EventsFrom(cfg, answers, f.point)
  {
  }

  lemma Moves(cfg: Config, answers: Answers, w: World, f: Frame) returns (steps: seq<Step>, v: World, g: Frame)
    requires Waits(cfg, answers, w, f) && !f.point.AtFinalize? && answers.engine in {LANGGRAPH, CREWAI}
    ensures Leads(cfg, w, steps, v) && Waits(cfg, answers, v, g) && Left(g.point) < Left(f.point)
    ensures v.bus + EventsFrom(cfg, answers, g.point) == w.bus + EventsFrom(cfg, answers, f.point)
  {
    var d;
    steps, d, v := OneActivity(cfg, answers, w, f);
    var after := w.(row := d.row, outputs := d.outputs, bus := d.bus);
    if f.point.AtInitialize? || f.point.AtSelect? {
      StartMoves(cfg, answers, w, f, d, after);
    } else if f.point.AtDelay? {
      DelayMoves(cfg, answers, w, f, d, after);
    } else {
      RoleMoves(cfg, answers, w, f, d, after);
    }
    g := Resume(cfg.input, f, Done(d.result.value));
  }

  /** The row of a task that has completed. */
  ghost predicate HasCompleted(cfg: Config, answers: Answers, v: World) {
    && Replay(cfg.input, v.history).point.Completed? && v.row.Some?
    && v.row.value.status == Rows.Succeeded && v.row.value.engineSelected == Some(EngineOf(cfg, answers))
    && v.row.value.report == Some(Rows.ReportText(ReportOf(cfg, answers), cfg.taskId))
  }

  lemma FinalizeCompletes(cfg: Config, answers: Answers, w: World, f: Frame) returns (steps: seq<Step>, v: World)
    requires Waits(cfg, answers, w, f) && f.point.AtFinalize? && answers.engine in {LANGGRAPH, CREWAI}
    ensures Leads(cfg, w, steps, v) && HasCompleted(cfg, answers, v) && v.bus == w.bus + [TaskSucceeded]
  {
    var d;
    steps, d, v := OneActivity(cfg, answers, w, f);
  }

  lemma {:induction false} CompletesFrom(cfg: Config, answers: Answers, w: World, f: Frame)
    returns (steps: seq<Step>, v: World)
    requires Waits(cfg, answers, w, f) && answers.engine in {LANGGRAPH, CREWAI}
    ensures Leads(cfg, w, steps, v) && HasCompleted(cfg, answers, v)
    ensures v.bus == w.bus + EventsFrom(cfg, answers, f.point)
    decreases Left(f.point)
  {
    if f.point.AtFinalize? {
      steps, v := FinalizeCompletes(cfg, answers, w, f);
    } else {
      var first, u, g := Moves(cfg, answers, w, f);
      var more;
      more, v := CompletesFrom(cfg, answers, u, g);
      LeadsOn(cfg, w, first, u, more, v);
      steps := first + more;
    }
  }

  /** Every task that has a row can complete, whatever was requested, and whatever the router and
      the agents answer: left alone, its row succeeds under the engine requested or chosen, with
      the text of the writer or of the graph, and its events are published in the order of its
      activities, each once. */
  lemma UndisturbedTasksComplete(cfg: Config, answers: Answers, first: World) returns (steps: seq<Step>, v: World)
    requires Init(cfg, first) && first.row.Some? && answers.engine in {LANGGRAPH, CREWAI}
    ensures Leads(cfg, first, steps, v) && HasCompleted(cfg, answers, v)
    ensures v.bus == AllEvents(cfg, answers)
  {
    steps, v := CompletesFrom(cfg, answers, first, FirstFrame(cfg.input));
    assert [] + AllEvents(cfg, answers) == AllEvents(cfg, answers);
  }
}
