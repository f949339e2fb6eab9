/**
 One task under its durable workflow: every interleaving of activity attempts, the workflow
 and the API, with crashes between any two effects.

 The world is the task row, the stored outputs of the CrewAI roles, the event bus, the
 workflow's history and the attempts of its activities. An attempt takes one effect a step:
 a lookup, an agent's work, a database session, an insert, a publication. Attempts of one
 activity may overlap, may outlive it, and may end at any point. Database sessions are
 atomic, except that a role's output is looked up and inserted in separate steps, so that a
 peer may insert first; the unique key then makes the insert raise.
 */
module DurableTask {
  import opened Sequences
  import opened Wrappers
  import opened EngineChoices
  import opened Orchestration
  import opened WorkflowSchedules
  import Rows = TaskRows

  datatype Config = Config(input: WorkflowInput, taskId: string)

  datatype Role = ResearcherRole | AnalystRole | WriterRole

  datatype Event =
    | RoleCompleted(role: Role)
    | EngineSelected(engine: string)
    | TaskStarted
    | TaskSucceeded
    | TaskFailed(error: string)
    | ProbeCompleted

  datatype Progress =
    | Ready
    | Working
    | Computed(output: Payload)
    | Unsaved(output: Payload)
    | Inserting(output: Payload)
    | Reloading
    | Announcing(event: Event, result: Payload)
    | Returned(result: Payload)
    | Closed

  /** An attempt of the `index`-th scheduled activity. */
  datatype Attempt = Attempt(index: nat, activity: Activity, progress: Progress)

  datatype World = World(row: Option<Rows.TaskRow>, outputs: map<Role, Payload>, bus: seq<Event>,
                         history: seq<Outcome>, attempts: map<nat, Attempt>)

  /** What the environment decides in a step: an agent's output, a router's reason, whether a
      publication gets through, and whether an insert that meets a peer's row raises at once. */
  datatype Choice = Choice(output: Payload, reason: string, published: bool, raises: bool)

  datatype Step =
    | Begin(id: nat)
    | Work(id: nat, choice: Choice)
    | Close(id: nat)
    | Accept(id: nat)
    | GiveUp(error: string)
    | SetStatus(target: Rows.Status)
    | SchedulingFailed

  function RoleOf(a: Activity): Option<Role> {
    match a
    case RunResearcher(_, _) => Some(ResearcherRole)
    case RunAnalyst(_, _, _) => Some(AnalystRole)
    case RunWriter(_, _, _, _) => Some(WriterRole)
    case _ => None
  }

  /** A result has the type that its activity declares. */
  predicate FitsActivity(a: Activity, p: Payload) {
    match a
    case Initialize => p.Initialized?
    case SelectEngine => p.Selected? && p.engine in {LANGGRAPH, CREWAI}
    case RunLangGraph(_) => p.GraphReport?
    case RunResearcher(_, _) => p.Notes?
    case RunAnalyst(_, _, _) => p.Analysed?
    case RunWriter(_, _, _, _) => p.Written?
    case Delay(_) => p.Delayed?
    case Finalize(_, _) => p.Finalized?
    case MarkFailed(_) => p.Marked?
  }

  predicate FitsRole(r: Role, p: Payload) {
    match r
    case ResearcherRole => p.Notes?
    case AnalystRole => p.Analysed?
    case WriterRole => p.Written?
  }

  predicate Init(cfg: Config, w: World) {
    && w.outputs == map[] && w.bus == [] && w.history == [] && w.attempts == map[]
    && (w.row.Some? ==>
          && w.row.value.status == Rows.Queued && w.row.value.engineRequested == cfg.input.engineRequested
          && w.row.value.engineSelected.None? && w.row.value.report.None?)
  }

  // ---- The effects of an attempt ----

  /** What one step of an attempt leaves behind. */
  datatype Effect = Effect(row: Option<Rows.TaskRow>, outputs: map<Role, Payload>, bus: seq<Event>, progress: Progress)

  function Only(w: World, progress: Progress): Effect {
    Effect(w.row, w.outputs, w.bus, progress)
  }

  function Announce(w: World, event: Event, result: Payload, published: bool): Effect {
    Effect(w.row, w.outputs, if published then w.bus + [event] else w.bus, Returned(result))
  }

  /** A CrewAI role: look for a stored output, work, look again, insert and announce. A peer
      that inserts first makes this attempt load the peer's output, or raise. */
  function RoleEffect(w: World, r: Role, p: Progress, c: Choice): Effect {
    match p
    case Ready => Only(w, if r in w.outputs then Returned(w.outputs[r]) else Working)
    case Working => Only(w, Computed(c.output))
    case Computed(output) => Only(w, if r in w.outputs then Returned(w.outputs[r]) else Unsaved(output))
    case Unsaved(output) => Only(w, if r in w.outputs then Reloading else Inserting(output))
    case Inserting(output) =>
      if r in w.outputs then Only(w, if c.raises then Closed else Reloading)
      else Effect(w.row, w.outputs[r := output], w.bus, Announcing(RoleCompleted(r), output))
    case Reloading => Only(w, if r in w.outputs then Returned(w.outputs[r]) else Closed)
    case Announcing(event, result) => Announce(w, event, result, c.published)
    case _ => Only(w, p)
  }

  function InitializeEffect(cfg: Config, w: World): Effect {
    var s := Rows.InitializeSession(w.row, cfg.input.engineRequested);
    match s.answer
    case Failure(_) => Only(w, Closed)
    case Success(started) =>
      Effect(s.row, w.outputs, w.bus, if started then Announcing(TaskStarted, Initialized) else Returned(Initialized))
  }

  function SelectEffect(w: World, decision: Payload, reason: string): Effect
    requires decision.Selected?
  {
    var s := Rows.SelectEngineSession(w.row, decision.engine, reason);
    match s.answer
    case Failure(_) => Only(w, Closed)
    case Success(_) => Effect(s.row, w.outputs, w.bus, Announcing(EngineSelected(decision.engine), decision))
  }

  function FinalizeEffect(cfg: Config, w: World, report: Option<string>): Effect {
    var s := Rows.FinalizeSession(w.row, Rows.ReportText(report, cfg.taskId));
    match s.answer
    case Failure(_) => Only(w, Closed)
    case Success(answer) =>
      Effect(s.row, w.outputs, w.bus,
             if answer.committed then Announcing(TaskSucceeded, Finalized(answer.report))
             else Returned(Finalized(answer.report)))
  }

  function StatusName(status: Rows.Status): string {
    match status
    case Queued => "queued"
    case Running => "running"
    case Paused => "paused"
    case Succeeded => "succeeded"
    case Failed => "failed"
    case Cancelled => "cancelled"
  }

  function MarkFailedEffect(w: World, error: string): Effect {
    var s := Rows.MarkFailedSession(w.row);
    match s.answer
    case Failure(_) => Only(w, Closed)
    case Success(None) => Only(w, Returned(Marked("missing")))
    case Success(Some(status)) =>
      if s.row == w.row then Only(w, Returned(Marked(StatusName(status))))
      else Effect(s.row, w.outputs, w.bus, Announcing(TaskFailed(error), Marked(StatusName(status))))
  }

  function WorkEffect(cfg: Config, w: World, a: Attempt, c: Choice): Effect {
    if RoleOf(a.activity).Some? then RoleEffect(w, RoleOf(a.activity).value, a.progress, c)
    else
      match a.progress
      case Announcing(event, result) => Announce(w, event, result, c.published)
      case Computed(output) => if output.Selected? then SelectEffect(w, output, c.reason) else Only(w, Closed)
      case Ready =>
        (match a.activity
         case Initialize => InitializeEffect(cfg, w)
         case SelectEngine => Only(w, Computed(c.output))
         case RunLangGraph(_) => Only(w, Returned(c.output))
         case Delay(_) => Only(w, Announcing(ProbeCompleted, Delayed))
         case Finalize(_, report) => FinalizeEffect(cfg, w, report)
         case MarkFailed(error) => MarkFailedEffect(w, error)
         case _ => Only(w, a.progress))
      case _ => Only(w, a.progress)
  }

  // ---- Steps ----

  /** The activity that the workflow waits for. */
  function Current(cfg: Config, w: World): Option<Activity> {
    Pending(Replay(cfg.input, w.history))
  }

  predicate Enabled(cfg: Config, w: World, step: Step) {
    match step
    case Begin(id) => id !in w.attempts && Current(cfg, w).Some?
    case Work(id, choice) =>
      && id in w.attempts && !w.attempts[id].progress.Returned? && !w.attempts[id].progress.Closed?
      && FitsActivity(w.attempts[id].activity, choice.output)
    case Close(id) => id in w.attempts
    case Accept(id) =>
      id in w.attempts && w.attempts[id].progress.Returned? && w.attempts[id].index == |w.history|
    case GiveUp(_) => Current(cfg, w).Some?
    case SetStatus(target) => target in {Rows.Paused, Rows.Running}
    case SchedulingFailed => true
  }

  /** An accepted attempt is over: it is reported once. */
  function Apply(cfg: Config, w: World, step: Step): World
    requires Enabled(cfg, w, step)
  {
    match step
    case Begin(id) =>
      w.(attempts := w.attempts[id := Attempt(|w.history|, Current(cfg, w).value, Ready)])
    case Work(id, choice) =>
      var e := WorkEffect(cfg, w, w.attempts[id], choice);
      World(e.row, e.outputs, e.bus, w.history, w.attempts[id := w.attempts[id].(progress := e.progress)])
    case Close(id) => w.(attempts := w.attempts[id := w.attempts[id].(progress := Closed)])
    case Accept(id) =>
      w.(history := w.history + [Done(w.attempts[id].progress.result)],
         attempts := w.attempts[id := w.attempts[id].(progress := Closed)])
    case GiveUp(error) => w.(history := w.history + [Failed(error)])
    case SetStatus(target) => w.(row := Rows.PersistStatusSession(w.row, target).row)
    case SchedulingFailed => w.(row := Rows.SchedulingFailedSession(w.row).row)
  }

  ghost predicate Leads(cfg: Config, w: World, steps: seq<Step>, v: World)
    decreases |steps|
  {
    if steps == [] then w == v
    else Enabled(cfg, w, steps[0]) && Leads(cfg, Apply(cfg, w, steps[0]), steps[1..], v)
  }

  lemma LeadsStep(cfg: Config, w: World, step: Step, rest: seq<Step>, v: World)
    requires Enabled(cfg, w, step) && Leads(cfg, Apply(cfg, w, step), rest, v)
    ensures Leads(cfg, w, [step] + rest, v)
  {
    assert ([step] + rest)[1..] == rest;
  }

  lemma {:induction false} LeadsOn(cfg: Config, w: World, steps: seq<Step>, v: World, more: seq<Step>, u: World)
    requires Leads(cfg, w, steps, v) && Leads(cfg, v, more, u)
    ensures Leads(cfg, w, steps + more, u)
    decreases |steps|
  {
    FirstThenRest(steps, more);
    if steps != [] {
      LeadsOn(cfg, Apply(cfg, w, steps[0]), steps[1..], v, more, u);
      LeadsStep(cfg, w, steps[0], steps[1..] + more, u);
    }
  }

  // ---- The invariant ----

  ghost predicate StoredAs(w: World, r: Role, p: Payload) {
    r in w.outputs && w.outputs[r] == p
  }

  /** A role's result is its stored output, from the insert on. */
  ghost predicate ProgressOk(w: World, a: Activity, p: Progress) {
    match p
    case Computed(output) => FitsActivity(a, output)
    case Unsaved(output) => FitsActivity(a, output)
    case Inserting(output) => FitsActivity(a, output)
    case Announcing(event, result) =>
      && FitsActivity(a, result)
      && (RoleOf(a).Some? ==> event == RoleCompleted(RoleOf(a).value) && StoredAs(w, RoleOf(a).value, result))
      && (RoleOf(a).None? ==> !event.RoleCompleted?)
    case Returned(result) =>
      FitsActivity(a, result) && (RoleOf(a).Some? ==> StoredAs(w, RoleOf(a).value, result))
    case _ => true
  }

  ghost predicate AttemptOk(cfg: Config, w: World, a: Attempt) {
    && a.index < |Scheduled(cfg.input, w.history)|
    && Scheduled(cfg.input, w.history)[a.index] == a.activity
    && ProgressOk(w, a.activity, a.progress)
  }

  ghost predicate AttemptsOk(cfg: Config, w: World) {
    forall id :: id in w.attempts ==> AttemptOk(cfg, w, w.attempts[id])
  }

  /** The role whose output a recorded result claims to be. */
  function RoleOfResult(p: Payload): Option<Role> {
    match p
    case Notes(_, _) => Some(ResearcherRole)
    case Analysed(_) => Some(AnalystRole)
    case Written(_) => Some(WriterRole)
    case _ => None
  }

  ghost predicate OutcomeOk(w: World, o: Outcome) {
    o.Done? && RoleOfResult(o.payload).Some? ==> StoredAs(w, RoleOfResult(o.payload).value, o.payload)
  }

  ghost predicate HistoryOk(cfg: Config, w: World) {
    IsHistory(cfg.input, w.history) && forall i :: 0 <= i < |w.history| ==> OutcomeOk(w, w.history[i])
  }

  ghost predicate OutputsOk(w: World) {
    forall r :: r in w.outputs ==> FitsRole(r, w.outputs[r])
  }

  /** A published completion, or one about to be published, is for a stored output. */
  ghost predicate EventsOk(w: World) {
    && (forall i :: 0 <= i < |w.bus| && w.bus[i].RoleCompleted? ==> w.bus[i].role in w.outputs)
    && (forall i, j :: 0 <= i < j < |w.bus| && w.bus[i].RoleCompleted? ==> w.bus[i] != w.bus[j])
    && (forall id :: id in w.attempts && Announces(w.attempts[id]) ==> w.attempts[id].progress.event !in w.bus)
    && (forall id, other :: id in w.attempts && other in w.attempts && id != other ==>
          !AnnounceAlike(w.attempts[id], w.attempts[other]))
  }

  predicate Announces(a: Attempt) {
    a.progress.Announcing? && a.progress.event.RoleCompleted?
  }

  predicate AnnounceAlike(a: Attempt, b: Attempt) {
    Announces(a) && Announces(b) && a.progress.event == b.progress.event
  }

  ghost predicate ReportComesFrom(cfg: Config, w: World, text: string) {
    exists i :: 0 <= i < |Scheduled(cfg.input, w.history)| && Finalizes(cfg, Scheduled(cfg.input, w.history)[i], text)
  }

  predicate Finalizes(cfg: Config, a: Activity, text: string) {
    a.Finalize? && text == Rows.ReportText(a.report, cfg.taskId)
  }

  ghost predicate RowOk(cfg: Config, w: World) {
    w.row.Some? ==>
      && Rows.RowOk(w.row.value)
      && w.row.value.engineRequested == cfg.input.engineRequested
      && (w.row.value.report.Some? ==> ReportComesFrom(cfg, w, w.row.value.report.value))
      && (cfg.input.engineRequested != AUTO ==>
            w.row.value.engineSelected in {None, Some(cfg.input.engineRequested)})
  }

  ghost predicate Inv(cfg: Config, w: World) {
    && AttemptsOk(cfg, w) && HistoryOk(cfg, w) && OutputsOk(w) && EventsOk(w) && RowOk(cfg, w)
  }

  // ---- Every step keeps the invariant ----

  /** What a step never takes back: stored outputs, and scheduled activities. */
  ghost predicate Extends(cfg: Config, w: World, v: World) {
    && (forall r :: r in w.outputs ==> StoredAs(v, r, w.outputs[r]))
    && Scheduled(cfg.input, w.history) <= Scheduled(cfg.input, v.history)
  }

  lemma OutcomeExtends(input: WorkflowInput, history: seq<Outcome>, outcome: Outcome)
    ensures Scheduled(input, history) <= Scheduled(input, history + [outcome])
  {
    var longer := history + [outcome];
    assert longer[..|history|] == history;
    ReplayIsDeterministic(input, longer, |history|);
  }

  lemma EffectKeepsOutputs(cfg: Config, w: World, a: Attempt, c: Choice)
    ensures forall r :: r in w.outputs ==>
              var e := WorkEffect(cfg, w, a, c); r in e.outputs && e.outputs[r] == w.outputs[r]
  {
  }

  lemma StepExtends(cfg: Config, w: World, step: Step)
    requires Enabled(cfg, w, step)
    ensures Extends(cfg, w, Apply(cfg, w, step))
  {
    match step
    case Work(id, choice) => EffectKeepsOutputs(cfg, w, w.attempts[id], choice);
    case Accept(id) => OutcomeExtends(cfg.input, w.history, Done(w.attempts[id].progress.result));
    case GiveUp(error) => OutcomeExtends(cfg.input, w.history, Failed(error));
    case _ =>
  }

  lemma AttemptStaysOk(cfg: Config, w: World, v: World, a: Attempt)
    requires AttemptOk(cfg, w, a) && Extends(cfg, w, v)
    ensures AttemptOk(cfg, v, a)
  {
  }

  /** The world after an effect, with the same attempts. */
  function After(w: World, e: Effect): World {
    World(e.row, e.outputs, e.bus, w.history, w.attempts)
  }

  lemma RoleEffectOk(w: World, a: Activity, p: Progress, c: Choice)
    requires RoleOf(a).Some? && ProgressOk(w, a, p) && OutputsOk(w) && FitsActivity(a, c.output)
    ensures var e := RoleEffect(w, RoleOf(a).value, p, c); ProgressOk(After(w, e), a, e.progress)
  {
  }

  lemma OtherEffectOk(cfg: Config, w: World, a: Attempt, c: Choice)
    requires RoleOf(a.activity).None? && ProgressOk(w, a.activity, a.progress) && FitsActivity(a.activity, c.output)
    ensures var e := WorkEffect(cfg, w, a, c); ProgressOk(After(w, e), a.activity, e.progress)
    ensures WorkEffect(cfg, w, a, c).outputs == w.outputs
  {
  }

  lemma WorkProgressOk(cfg: Config, w: World, id: nat, c: Choice)
    requires Inv(cfg, w) && Enabled(cfg, w, Work(id, c))
    ensures var v := Apply(cfg, w, Work(id, c));
            ProgressOk(v, v.attempts[id].activity, v.attempts[id].progress)
  {
    var a := w.attempts[id];
    assert AttemptOk(cfg, w, a);
    if RoleOf(a.activity).Some? {
      RoleEffectOk(w, a.activity, a.progress, c);
    } else {
      OtherEffectOk(cfg, w, a, c);
    }
  }

  lemma StepAttemptsOk(cfg: Config, w: World, step: Step)
    requires Inv(cfg, w) && Enabled(cfg, w, step)
    ensures AttemptsOk(cfg, Apply(cfg, w, step))
  {
    var v := Apply(cfg, w, step);
    StepExtends(cfg, w, step);
    forall id | id in v.attempts
      ensures AttemptOk(cfg, v, v.attempts[id])
    {
      if id in w.attempts {
        AttemptStaysOk(cfg, w, v, w.attempts[id]);
        if step.Work? && step.id == id {
          WorkProgressOk(cfg, w, id, step.choice);
        }
      } else {
        ScheduledAt(cfg.input, w.history, |w.history|);
        assert w.history[..|w.history|] == w.history;
      }
    }
  }

  lemma OutcomesStayOk(cfg: Config, w: World, v: World)
    requires HistoryOk(cfg, w) && Extends(cfg, w, v)
    ensures forall i :: 0 <= i < |w.history| ==> OutcomeOk(v, w.history[i])
  {
    forall i | 0 <= i < |w.history|
      ensures OutcomeOk(v, w.history[i])
    {
      assert OutcomeOk(w, w.history[i]);
    }
  }

  /** A history goes on only while an activity is pending. */
  lemma LongerHistory(input: WorkflowInput, history: seq<Outcome>, outcome: Outcome)
    requires IsHistory(input, history) && |history| < |Scheduled(input, history)|
    ensures IsHistory(input, history + [outcome])
  {
    ScheduledAt(input, history, |history|);
    assert (history + [outcome])[..|history|] == history;
  }

  lemma ResultOfItsRole(a: Activity, p: Payload)
    requires FitsActivity(a, p)
    ensures RoleOfResult(p) == RoleOf(a)
  {
  }

  lemma AcceptedIsPending(cfg: Config, w: World, id: nat)
    requires Inv(cfg, w) && Enabled(cfg, w, Accept(id))
    ensures Current(cfg, w) == Some(w.attempts[id].activity)
  {
    assert AttemptOk(cfg, w, w.attempts[id]);
    ScheduledAt(cfg.input, w.history, |w.history|);
    assert w.history[..|w.history|] == w.history;
  }

  lemma AcceptHistoryOk(cfg: Config, w: World, id: nat)
    requires Inv(cfg, w) && Enabled(cfg, w, Accept(id))
    ensures HistoryOk(cfg, Apply(cfg, w, Accept(id)))
  {
    var a, v := w.attempts[id], Apply(cfg, w, Accept(id));
    var outcome := Done(a.progress.result);
    assert AttemptOk(cfg, w, a);
    ResultOfItsRole(a.activity, a.progress.result);
    assert OutcomeOk(v, outcome);
    StepExtends(cfg, w, Accept(id));
    OutcomesStayOk(cfg, w, v);
    LongerHistory(cfg.input, w.history, outcome);
  }

  lemma GiveUpHistoryOk(cfg: Config, w: World, error: string)
    requires Inv(cfg, w) && Enabled(cfg, w, GiveUp(error))
    ensures HistoryOk(cfg, Apply(cfg, w, GiveUp(error)))
  {
    StepExtends(cfg, w, GiveUp(error));
    OutcomesStayOk(cfg, w, Apply(cfg, w, GiveUp(error)));
    ScheduledAt(cfg.input, w.history, |w.history|);
    LongerHistory(cfg.input, w.history, Failed(error));
  }

  lemma StepHistoryOk(cfg: Config, w: World, step: Step)
    requires Inv(cfg, w) && Enabled(cfg, w, step)
    ensures HistoryOk(cfg, Apply(cfg, w, step))
  {
    if step.Accept? {
      AcceptHistoryOk(cfg, w, step.id);
    } else if step.GiveUp? {
      GiveUpHistoryOk(cfg, w, step.error);
    } else {
      StepExtends(cfg, w, step);
      OutcomesStayOk(cfg, w, Apply(cfg, w, step));
    }
  }

  lemma EffectOutputsOk(cfg: Config, w: World, a: Attempt, c: Choice)
    requires OutputsOk(w) && ProgressOk(w, a.activity, a.progress)
    ensures OutputsOk(After(w, WorkEffect(cfg, w, a, c)))
  {
    if RoleOf(a.activity).None? && a.progress.Computed? {
      assert WorkEffect(cfg, w, a, c).outputs == w.outputs;
    }
  }

  lemma StepOutputsOk(cfg: Config, w: World, step: Step)
    requires Inv(cfg, w) && Enabled(cfg, w, step)
    ensures OutputsOk(Apply(cfg, w, step))
  {
    if step.Work? {
      assert AttemptOk(cfg, w, w.attempts[step.id]);
      EffectOutputsOk(cfg, w, w.attempts[step.id], step.choice);
    }
  }

  // ---- Events ----

  lemma AnnouncedIsStored(cfg: Config, w: World, id: nat)
    requires Inv(cfg, w) && id in w.attempts && Announces(w.attempts[id])
    ensures w.attempts[id].progress.event.role in w.outputs
  {
    assert AttemptOk(cfg, w, w.attempts[id]);
  }

  /** What an insert does: it stores the role's output and will announce it, or finds a
      peer's and announces nothing. */
  lemma InsertEffect(cfg: Config, w: World, a: Attempt, c: Choice)
    requires a.progress.Inserting?
    ensures var e := WorkEffect(cfg, w, a, c);
            && e.bus == w.bus && (forall r :: r in w.outputs ==> r in e.outputs)
            && (Announces(a.(progress := e.progress)) ==>
                  e.progress.event.role !in w.outputs && e.progress.event.role in e.outputs)
  {
  }

  /** The one completion of a role is announced by the attempt that inserted its output. */
  lemma InsertEventsOk(cfg: Config, w: World, id: nat, c: Choice)
    requires Inv(cfg, w) && Enabled(cfg, w, Work(id, c)) && w.attempts[id].progress.Inserting?
    ensures EventsOk(Apply(cfg, w, Work(id, c)))
  {
    InsertEffect(cfg, w, w.attempts[id], c);
    var v := Apply(cfg, w, Work(id, c));
    forall x, y | x in v.attempts && y in v.attempts && x != y
      ensures !AnnounceAlike(v.attempts[x], v.attempts[y])
    {
      assert !AnnounceAlike(w.attempts[x], w.attempts[y]);
      if x != id && Announces(w.attempts[x]) {
        AnnouncedIsStored(cfg, w, x);
      }
      if y != id && Announces(w.attempts[y]) {
        AnnouncedIsStored(cfg, w, y);
      }
    }
  }

  lemma AnnounceEventsOk(cfg: Config, w: World, id: nat, c: Choice)
    requires Inv(cfg, w) && Enabled(cfg, w, Work(id, c)) && w.attempts[id].progress.Announcing?
    ensures EventsOk(Apply(cfg, w, Work(id, c)))
  {
    assert AttemptOk(cfg, w, w.attempts[id]);
    var v := Apply(cfg, w, Work(id, c));
    forall other | other in v.attempts && Announces(v.attempts[other])
      ensures v.attempts[other].progress.event !in v.bus
    {
      assert !AnnounceAlike(w.attempts[id], w.attempts[other]);
    }
    forall x, y | x in v.attempts && y in v.attempts && x != y
      ensures !AnnounceAlike(v.attempts[x], v.attempts[y])
    {
      assert !AnnounceAlike(w.attempts[x], w.attempts[y]);
    }
  }

  /** Any other effect announces nothing new about a role. */
  lemma QuietEffect(cfg: Config, w: World, a: Attempt, c: Choice)
    requires !a.progress.Inserting? && !a.progress.Announcing?
    ensures var e := WorkEffect(cfg, w, a, c);
            e.bus == w.bus && e.outputs == w.outputs && !Announces(a.(progress := e.progress))
  {
  }

  lemma QuietStep(cfg: Config, w: World, step: Step)
    requires Inv(cfg, w) && Enabled(cfg, w, step)
    requires step.Work? ==> !w.attempts[step.id].progress.Inserting? && !w.attempts[step.id].progress.Announcing?
    ensures var v := Apply(cfg, w, step);
            && v.bus == w.bus && v.outputs == w.outputs
            && forall id :: id in v.attempts && Announces(v.attempts[id]) ==>
                 id in w.attempts && v.attempts[id] == w.attempts[id]
  {
    if step.Work? {
      QuietEffect(cfg, w, w.attempts[step.id], step.choice);
    }
  }

  lemma QuietEventsOk(w: World, v: World)
    requires EventsOk(w) && v.bus == w.bus && v.outputs == w.outputs
    requires forall id :: id in v.attempts && Announces(v.attempts[id]) ==>
               id in w.attempts && v.attempts[id] == w.attempts[id]
    ensures EventsOk(v)
  {
    forall x, y | x in v.attempts && y in v.attempts && x != y
      ensures !AnnounceAlike(v.attempts[x], v.attempts[y])
    {
      assert x in w.attempts && y in w.attempts ==> !AnnounceAlike(w.attempts[x], w.attempts[y]);
    }
  }

  lemma StepEventsOk(cfg: Config, w: World, step: Step)
    requires Inv(cfg, w) && Enabled(cfg, w, step)
    ensures EventsOk(Apply(cfg, w, step))
  {
    if step.Work? && w.attempts[step.id].progress.Inserting? {
      InsertEventsOk(cfg, w, step.id, step.choice);
    } else if step.Work? && w.attempts[step.id].progress.Announcing? {
      AnnounceEventsOk(cfg, w, step.id, step.choice);
    } else {
      QuietStep(cfg, w, step);
      QuietEventsOk(w, Apply(cfg, w, step));
    }
  }

  // ---- The task row ----

  /** What an attempt may do to the row: a legal change; a report only to finalize, and the
      engine only as requested, or as routed. */
  ghost predicate RowChange(cfg: Config, before: Option<Rows.TaskRow>, after: Option<Rows.TaskRow>, a: Activity) {
    && Rows.GoodChange(before, after)
    && (after.Some? && after.value.report != before.value.report ==>
          after.value.report.Some? && Finalizes(cfg, a, after.value.report.value))
    && (after.Some? && after.value.engineSelected != before.value.engineSelected ==>
          a.SelectEngine?
          || (cfg.input.engineRequested != AUTO && after.value.engineSelected == Some(cfg.input.engineRequested)))
  }

  lemma InitializeRow(cfg: Config, w: World)
    requires RowOk(cfg, w)
    ensures RowChange(cfg, w.row, InitializeEffect(cfg, w).row, Initialize)
  {
    Rows.SessionsAreGood(w.row, cfg.input.engineRequested, "", "-", Rows.Running);
  }

  lemma SelectRow(cfg: Config, w: World, decision: Payload, reason: string)
    requires RowOk(cfg, w) && decision.Selected?
    ensures RowChange(cfg, w.row, SelectEffect(w, decision, reason).row, SelectEngine)
  {
    Rows.SessionsAreGood(w.row, decision.engine, reason, "-", Rows.Running);
  }

  lemma FinalizeRow(cfg: Config, w: World, engine: string, report: Option<string>)
    requires RowOk(cfg, w)
    ensures RowChange(cfg, w.row, FinalizeEffect(cfg, w, report).row, Finalize(engine, report))
  {
    Rows.SessionsAreGood(w.row, "", "", Rows.ReportText(report, cfg.taskId), Rows.Running);
  }

  lemma MarkFailedRow(cfg: Config, w: World, error: string)
    requires RowOk(cfg, w)
    ensures RowChange(cfg, w.row, MarkFailedEffect(w, error).row, MarkFailed(error))
  {
    Rows.SessionsAreGood(w.row, "", "", "-", Rows.Running);
  }

  lemma EffectRow(cfg: Config, w: World, a: Attempt, c: Choice)
    requires RowOk(cfg, w) && ProgressOk(w, a.activity, a.progress)
    ensures RowChange(cfg, w.row, WorkEffect(cfg, w, a, c).row, a.activity)
  {
    if RoleOf(a.activity).Some? {
      assert RoleEffect(w, RoleOf(a.activity).value, a.progress, c).row == w.row;
    } else if a.progress.Computed? {
      if a.progress.output.Selected? {
        SelectRow(cfg, w, a.progress.output, c.reason);
      }
    } else if a.progress.Ready? {
      match a.activity
      case Initialize => InitializeRow(cfg, w);
      case Finalize(engine, report) => FinalizeRow(cfg, w, engine, report);
      case MarkFailed(error) => MarkFailedRow(cfg, w, error);
      case _ =>
    }
  }

  lemma SourceStays(cfg: Config, w: World, v: World, text: string)
    requires ReportComesFrom(cfg, w, text) && Extends(cfg, w, v)
    ensures ReportComesFrom(cfg, v, text)
  {
    var i :| 0 <= i < |Scheduled(cfg.input, w.history)| && Finalizes(cfg, Scheduled(cfg.input, w.history)[i], text);
    assert Finalizes(cfg, Scheduled(cfg.input, v.history)[i], text);
  }

  lemma StepRow(cfg: Config, w: World, step: Step)
    requires Inv(cfg, w) && Enabled(cfg, w, step)
    ensures Rows.GoodChange(w.row, Apply(cfg, w, step).row)
  {
    match step
    case Work(id, choice) =>
      assert AttemptOk(cfg, w, w.attempts[id]);
      EffectRow(cfg, w, w.attempts[id], choice);
    case SetStatus(target) => Rows.SessionsAreGood(w.row, "", "", "-", target);
    case SchedulingFailed => Rows.SessionsAreGood(w.row, "", "", "-", Rows.Running);
    case _ =>
  }

  lemma WorkRowOk(cfg: Config, w: World, id: nat, c: Choice)
    requires Inv(cfg, w) && Enabled(cfg, w, Work(id, c))
    ensures RowOk(cfg, Apply(cfg, w, Work(id, c)))
  {
    var a, v := w.attempts[id], Apply(cfg, w, Work(id, c));
    assert AttemptOk(cfg, w, a);
    EffectRow(cfg, w, a, c);
    if v.row.Some? && v.row.value.report.Some? {
      if v.row.value.report == w.row.value.report {
        SourceStays(cfg, w, v, v.row.value.report.value);
      } else {
        assert Finalizes(cfg, Scheduled(cfg.input, v.history)[a.index], v.row.value.report.value);
      }
    }
    if cfg.input.engineRequested != AUTO {
      ManualChoiceIsNeverRouted(cfg.input, w.history);
    }
  }

  lemma StepRowOk(cfg: Config, w: World, step: Step)
    requires Inv(cfg, w) && Enabled(cfg, w, step)
    ensures RowOk(cfg, Apply(cfg, w, step))
  {
    if step.Work? {
      WorkRowOk(cfg, w, step.id, step.choice);
    } else {
      var v := Apply(cfg, w, step);
      StepRow(cfg, w, step);
      StepExtends(cfg, w, step);
      if w.row.Some? && w.row.value.report.Some? {
        SourceStays(cfg, w, v, w.row.value.report.value);
      }
    }
  }

  lemma StepInv(cfg: Config, w: World, step: Step)
    requires Inv(cfg, w) && Enabled(cfg, w, step)
    ensures Inv(cfg, Apply(cfg, w, step))
  {
    StepAttemptsOk(cfg, w, step);
    StepHistoryOk(cfg, w, step);
    StepOutputsOk(cfg, w, step);
    StepEventsOk(cfg, w, step);
    StepRowOk(cfg, w, step);
  }

  lemma InitInv(cfg: Config, w: World)
    requires Init(cfg, w)
    ensures Inv(cfg, w)
  {
  }

  lemma {:induction false} RunInv(cfg: Config, w: World, steps: seq<Step>, v: World)
    requires Inv(cfg, w) && Leads(cfg, w, steps, v)
    ensures Inv(cfg, v) && Extends(cfg, w, v)
    decreases |steps|
  {
    if steps != [] {
      var next := Apply(cfg, w, steps[0]);
      StepInv(cfg, w, steps[0]);
      StepExtends(cfg, w, steps[0]);
      RunInv(cfg, next, steps[1..], v);
      assert forall r :: r in w.outputs ==> StoredAs(next, r, w.outputs[r]);
    }
  }
}
