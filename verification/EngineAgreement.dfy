/**
 Automatic routing, two instances of `RoutingCommits`: routing attempts one at a time, after
 which the row always names the engine that the workflow runs, and two that overlap, after
 which it need not.
 */
module EngineAgreement {
  import opened Sequences
  import opened Wrappers
  import opened EngineChoices
  import opened Orchestration
  import opened WorkflowSchedules
  import opened DurableTask
  import opened RoutingCommits
  import Rows = TaskRows

  /** A routing attempt that may still do something. */
  predicate IsRouting(a: Attempt) {
    a.activity.SelectEngine? && !a.progress.Closed?
  }

  ghost predicate NoneRouting(w: World) {
    forall id :: id in w.attempts ==> !IsRouting(w.attempts[id])
  }

  /** No routing attempt begins while another is live: a lost one is over before the next
      begins. Other activities may overlap. */
  ghost predicate IsSerial(cfg: Config, w: World, steps: seq<Step>)
    decreases |steps|
  {
    steps != [] && Enabled(cfg, w, steps[0]) ==>
      && (steps[0].Begin? && Current(cfg, w) == Some(SelectEngine) ==> NoneRouting(w))
      && IsSerial(cfg, Apply(cfg, w, steps[0]), steps[1..])
  }

  ghost predicate RowNames(w: World, engine: string) {
    w.row.Some? ==> w.row.value.engineSelected == Some(engine)
  }

  /** From its routing on, the row names the engine that the workflow runs. */
  ghost predicate EngineOk(cfg: Config, w: World) {
    var f := Replay(cfg.input, w.history);
    Routed(f.point) ==> RowNames(w, f.engine)
  }

  /** A live routing attempt that has committed holds the decision that the row names. */
  ghost predicate DecisionOk(cfg: Config, w: World, a: Attempt) {
    IsRouting(a) ==>
      && !Routed(Replay(cfg.input, w.history).point)
      && (Decided(a).Some? ==> Decided(a).value.Selected? && RowNames(w, Decided(a).value.engine))
  }

  ghost predicate OneRouting(w: World) {
    forall id, other :: id in w.attempts && other in w.attempts && id != other ==>
      !IsRouting(w.attempts[id]) || !IsRouting(w.attempts[other])
  }

  ghost predicate SerialInv(cfg: Config, w: World) {
    && Inv(cfg, w) && OneRouting(w) && EngineOk(cfg, w)
    && (forall id :: id in w.attempts ==> DecisionOk(cfg, w, w.attempts[id]))
  }

  lemma WorkKeepsAttempt(cfg: Config, w: World, id: nat, c: Choice)
    requires Enabled(cfg, w, Work(id, c))
    ensures var v := Apply(cfg, w, Work(id, c));
            && v.history == w.history && v.attempts.Keys == w.attempts.Keys
            && (forall other :: other in w.attempts && other != id ==> v.attempts[other] == w.attempts[other])
            && v.attempts[id].activity == w.attempts[id].activity
  {
  }

  /** A step of a routing attempt: its decision, once committed, is the row's engine. */
  lemma RouterWorks(cfg: Config, w: World, id: nat, c: Choice)
    requires SerialInv(cfg, w) && Enabled(cfg, w, Work(id, c)) && w.attempts[id].activity.SelectEngine?
    ensures var v := Apply(cfg, w, Work(id, c));
            (forall other :: other in v.attempts ==> DecisionOk(cfg, v, v.attempts[other])) && EngineOk(cfg, v)
  {
    var v := Apply(cfg, w, Work(id, c));
    assert AttemptOk(cfg, w, w.attempts[id]) && DecisionOk(cfg, w, w.attempts[id]);
    assert IsRouting(w.attempts[id]);
    WorkKeepsAttempt(cfg, w, id, c);
    DecisionReachesRow(cfg, w, id, c);
    forall other | other in v.attempts
      ensures DecisionOk(cfg, v, v.attempts[other])
    {
      assert other != id ==> !IsRouting(w.attempts[other]);
    }
  }

  lemma DecisionReachesRow(cfg: Config, w: World, id: nat, c: Choice)
    requires Enabled(cfg, w, Work(id, c)) && IsRouting(w.attempts[id]) && DecisionOk(cfg, w, w.attempts[id])
    requires ProgressOk(w, w.attempts[id].activity, w.attempts[id].progress)
    ensures var v := Apply(cfg, w, Work(id, c)); DecisionOk(cfg, v, v.attempts[id])
  {
  }

  /** A step of any other attempt leaves the row's engine alone. */
  lemma OtherWorks(cfg: Config, w: World, id: nat, c: Choice)
    requires cfg.input.engineRequested == AUTO
    requires SerialInv(cfg, w) && Enabled(cfg, w, Work(id, c)) && !w.attempts[id].activity.SelectEngine?
    ensures var v := Apply(cfg, w, Work(id, c));
            (forall other :: other in v.attempts ==> DecisionOk(cfg, v, v.attempts[other])) && EngineOk(cfg, v)
  {
    var v := Apply(cfg, w, Work(id, c));
    assert AttemptOk(cfg, w, w.attempts[id]);
    EffectRow(cfg, w, w.attempts[id], c);
    WorkKeepsAttempt(cfg, w, id, c);
    KeepsDecisions(cfg, w, v);
  }

  /** Where neither the history nor the row's engine changes, decisions stay as they are. */
  lemma KeepsDecisions(cfg: Config, w: World, v: World)
    requires SerialInv(cfg, w) && v.history == w.history && v.row.Some? == w.row.Some?
    requires v.row.Some? ==> v.row.value.engineSelected == w.row.value.engineSelected
    requires forall id :: id in v.attempts && IsRouting(v.attempts[id]) ==>
               if id in w.attempts then v.attempts[id] == w.attempts[id]
               else Decided(v.attempts[id]).None? && !Routed(Replay(cfg.input, w.history).point)
    ensures (forall id :: id in v.attempts ==> DecisionOk(cfg, v, v.attempts[id])) && EngineOk(cfg, v)
  {
    assert forall engine :: RowNames(w, engine) ==> RowNames(v, engine);
    forall id | id in v.attempts
      ensures DecisionOk(cfg, v, v.attempts[id])
    {
      assert id in w.attempts ==> DecisionOk(cfg, w, w.attempts[id]);
    }
  }

  lemma AcceptKeepsDecisions(cfg: Config, w: World, id: nat)
    requires cfg.input.engineRequested == AUTO && SerialInv(cfg, w) && Enabled(cfg, w, Accept(id))
    ensures var v := Apply(cfg, w, Accept(id));
            (forall other :: other in v.attempts ==> DecisionOk(cfg, v, v.attempts[other])) && EngineOk(cfg, v)
  {
    var a, v := w.attempts[id], Apply(cfg, w, Accept(id));
    assert DecisionOk(cfg, w, a);
    AcceptedIsPending(cfg, w, id);
    ResumeEngine(cfg, w.history, Done(a.progress.result));
    forall other | other in v.attempts
      ensures DecisionOk(cfg, v, v.attempts[other])
    {
      assert DecisionOk(cfg, w, w.attempts[other]);
      assert other == id || !IsRouting(w.attempts[id]) || !IsRouting(w.attempts[other]);
    }
  }

  lemma GiveUpKeepsDecisions(cfg: Config, w: World, error: string)
    requires cfg.input.engineRequested == AUTO && SerialInv(cfg, w) && Enabled(cfg, w, GiveUp(error))
    ensures var v := Apply(cfg, w, GiveUp(error));
            (forall other :: other in v.attempts ==> DecisionOk(cfg, v, v.attempts[other])) && EngineOk(cfg, v)
  {
    ResumeEngine(cfg, w.history, Failed(error));
    forall other | other in w.attempts
      ensures DecisionOk(cfg, Apply(cfg, w, GiveUp(error)), w.attempts[other])
    {
      assert DecisionOk(cfg, w, w.attempts[other]);
    }
  }

  lemma StepOneRouting(cfg: Config, w: World, step: Step)
    requires OneRouting(w) && Enabled(cfg, w, step)
    requires step.Begin? && Current(cfg, w) == Some(SelectEngine) ==> NoneRouting(w)
    ensures OneRouting(Apply(cfg, w, step))
  {
    var v := Apply(cfg, w, step);
    if step.Work? {
      WorkKeepsAttempt(cfg, w, step.id, step.choice);
    }
    assert forall id :: id in v.attempts && IsRouting(v.attempts[id]) ==>
             (id in w.attempts && IsRouting(w.attempts[id])) || step == Begin(id);
  }

  lemma SerialStep(cfg: Config, w: World, step: Step)
    requires cfg.input.engineRequested == AUTO && SerialInv(cfg, w) && Enabled(cfg, w, step)
    requires step.Begin? && Current(cfg, w) == Some(SelectEngine) ==> NoneRouting(w)
    ensures SerialInv(cfg, Apply(cfg, w, step))
  {
    StepInv(cfg, w, step);
    StepOneRouting(cfg, w, step);
    match step
    case Work(id, choice) =>
      if w.attempts[id].activity.SelectEngine? {
        RouterWorks(cfg, w, id, choice);
      } else {
        OtherWorks(cfg, w, id, choice);
      }
    case Accept(id) => AcceptKeepsDecisions(cfg, w, id);
    case GiveUp(error) => GiveUpKeepsDecisions(cfg, w, error);
    case _ =>
      OtherStepsKeepEngine(cfg, w, step);
      KeepsDecisions(cfg, w, Apply(cfg, w, step));
  }

  lemma {:induction false} SerialRun(cfg: Config, w: World, steps: seq<Step>, v: World)
    requires cfg.input.engineRequested == AUTO && SerialInv(cfg, w)
    requires Leads(cfg, w, steps, v) && IsSerial(cfg, w, steps)
    ensures SerialInv(cfg, v)
    decreases |steps|
  {
    if steps != [] {
      SerialStep(cfg, w, steps[0]);
      SerialRun(cfg, Apply(cfg, w, steps[0]), steps[1..], v);
    }
  }

  /** When routing attempts run one at a time, whatever they decided, the row names the engine
      of every activity that the workflow waits for. */
  lemma SerialAttemptsAgree(cfg: Config, first: World, steps: seq<Step>, w: World)
    requires cfg.input.engineRequested == AUTO
    requires Init(cfg, first) && Leads(cfg, first, steps, w) && IsSerial(cfg, first, steps)
    ensures PendingEngine(cfg, w).Some? ==> RowNames(w, PendingEngine(cfg, w).value)
  {
    InitInv(cfg, first);
    assert Replay(cfg.input, []) == FirstFrame(cfg.input);
    SerialRun(cfg, first, steps, w);
  }

  // ---- Overlap ----

  lemma TwoSteps(cfg: Config, w: World, first: Step, second: Step)
    requires Enabled(cfg, w, first) && Enabled(cfg, Apply(cfg, w, first), second)
    ensures Leads(cfg, w, [first, second], Apply(cfg, Apply(cfg, w, first), second))
  {
    var last := Apply(cfg, Apply(cfg, w, first), second);
    LeadsStep(cfg, Apply(cfg, w, first), second, [], last);
    LeadsStep(cfg, w, first, [second], last);
    assert [first] + [second] == [first, second];
  }

  /** What a routing attempt's session makes of a running task's row. */
  function RoutedRow(row: Rows.TaskRow, engine: string, reason: string): Rows.TaskRow {
    row.(engineSelected := Some(engine), engineSelectionReason := Some(reason))
  }

  predicate CanRoute(w: World, id: nat, decision: Payload) {
    && id in w.attempts && w.attempts[id].activity == SelectEngine && w.attempts[id].progress == Ready
    && w.row.Some? && w.row.value.status == Rows.Running && FitsActivity(SelectEngine, decision)
  }

  /** A routing attempt on a running task decides and commits. */
  lemma Decide(cfg: Config, w: World, id: nat, decision: Payload, c: Choice) returns (steps: seq<Step>, v: World)
    requires CanRoute(w, id, decision) && c.output == decision
    ensures Leads(cfg, w, steps, v)
    ensures v == w.(row := Some(RoutedRow(w.row.value, decision.engine, c.reason)),
                    attempts := w.attempts[id := w.attempts[id].(
                      progress := Announcing(EngineSelected(decision.engine), decision))])
  {
    var u := w.(attempts := w.attempts[id := w.attempts[id].(progress := Computed(decision))]);
    assert Apply(cfg, w, Work(id, c)) == u;
    v := w.(row := Some(RoutedRow(w.row.value, decision.engine, c.reason)),
            attempts := u.attempts[id := w.attempts[id].(
              progress := Announcing(EngineSelected(decision.engine), decision))]);
    assert Apply(cfg, u, Work(id, c)) == v;
    assert v.attempts == w.attempts[id := w.attempts[id].(
                           progress := Announcing(EngineSelected(decision.engine), decision))];
    TwoSteps(cfg, w, Work(id, c), Work(id, c));
    steps := [Work(id, c), Work(id, c)];
  }

  /** Two routing attempts begin before either works. */
  lemma BeginBoth(cfg: Config, w: World, x: nat, y: nat) returns (v: World)
    requires Current(cfg, w) == Some(SelectEngine) && x != y && x !in w.attempts && y !in w.attempts
    ensures Leads(cfg, w, [Begin(x), Begin(y)], v)
    ensures v.row == w.row && v.history == w.history && x in v.attempts && y in v.attempts
    ensures v.attempts[x] == v.attempts[y] == Attempt(|w.history|, SelectEngine, Ready)
  {
    TwoSteps(cfg, w, Begin(x), Begin(y));
    v := Apply(cfg, Apply(cfg, w, Begin(x)), Begin(y));
  }

  /** An attempt that has committed announces its decision, and the workflow takes it. */
  lemma Report(cfg: Config, w: World, id: nat, event: Event, result: Payload, c: Choice) returns (v: World)
    requires cfg.input.engineRequested == AUTO && Current(cfg, w) == Some(SelectEngine)
    requires FitsActivity(SelectEngine, result) && FitsActivity(SelectEngine, c.output)
    requires id in w.attempts && w.attempts[id] == Attempt(|w.history|, SelectEngine, Announcing(event, result))
    ensures Leads(cfg, w, [Work(id, c), Accept(id)], v)
    ensures v.row == w.row && Current(cfg, v).Some? && EngineOf(Current(cfg, v).value) == Some(result.engine)
  {
    TwoSteps(cfg, w, Work(id, c), Accept(id));
    v := Apply(cfg, Apply(cfg, w, Work(id, c)), Accept(id));
    assert v.history == w.history + [Done(result)];
    assert v.history[..|w.history|] == w.history;
    assert Replay(cfg.input, w.history).point == AtSelect;
  }

  /** Whenever the workflow waits for the router on a running task, two overlapping attempts
      that decide differently can leave the row with one engine and the workflow with the
      other. */
  lemma OverlappingAttemptsCanDisagree(cfg: Config, w: World, x: nat, y: nat, c: Choice, d: Choice)
    returns (steps: seq<Step>, v: World)
    requires cfg.input.engineRequested == AUTO && Current(cfg, w) == Some(SelectEngine)
    requires w.row.Some? && w.row.value.status == Rows.Running
    requires x != y && x !in w.attempts && y !in w.attempts
    requires FitsActivity(SelectEngine, c.output) && FitsActivity(SelectEngine, d.output)
    ensures Leads(cfg, w, steps, v)
    ensures PendingEngine(cfg, v) == Some(c.output.engine)
    ensures v.row.Some? && v.row.value.engineSelected == Some(d.output.engine)
  {
    var both := BeginBoth(cfg, w, x, y);
    var first, decided := Decide(cfg, both, x, c.output, c);
    var second, overwritten := Decide(cfg, decided, y, d.output, d);
    v := Report(cfg, overwritten, x, EngineSelected(c.output.engine), c.output, c);
    LeadsOn(cfg, decided, second, overwritten, [Work(x, c), Accept(x)], v);
    LeadsOn(cfg, both, first, decided, second + [Work(x, c), Accept(x)], v);
    LeadsOn(cfg, w, [Begin(x), Begin(y)], both, first + (second + [Work(x, c), Accept(x)]), v);
    steps := [Begin(x), Begin(y)] + (first + (second + [Work(x, c), Accept(x)]));
  }

  /** The first attempt of `initialize` starts a queued task. */
  lemma Initializes(cfg: Config, w: World, id: nat, c: Choice) returns (steps: seq<Step>, v: World)
    requires cfg.input.engineRequested == AUTO && id in w.attempts && w.attempts[id] == Attempt(0, Initialize, Ready)
    requires w.row.Some? && w.row.value.status == Rows.Queued && w.row.value.engineSelected.None?
    requires c.output.Initialized?
    ensures Leads(cfg, w, steps, v) && forall i :: 0 <= i < |steps| ==> !steps[i].SetStatus?
    ensures v.row == Some(w.row.value.(status := Rows.Running)) && v.history == w.history
    ensures v.attempts == w.attempts[id := Attempt(0, Initialize, Returned(Initialized))]
  {
    var u := w.(row := Some(w.row.value.(status := Rows.Running)),
                attempts := w.attempts[id := Attempt(0, Initialize, Announcing(TaskStarted, Initialized))]);
    assert Apply(cfg, w, Work(id, c)) == u;
    v := Apply(cfg, u, Work(id, c));
    assert v.attempts == w.attempts[id := Attempt(0, Initialize, Returned(Initialized))];
    TwoSteps(cfg, w, Work(id, c), Work(id, c));
    steps := [Work(id, c), Work(id, c)];
  }

  /** The workflow takes the result, and waits for the router. */
  lemma AwaitsRouter(cfg: Config, w: World, id: nat) returns (v: World)
    requires cfg.input.engineRequested == AUTO && w.history == []
    requires id in w.attempts && w.attempts[id] == Attempt(0, Initialize, Returned(Initialized))
    ensures Leads(cfg, w, [Accept(id)] + [], v) && Current(cfg, v) == Some(SelectEngine)
    ensures v.row == w.row && v.attempts.Keys == w.attempts.Keys
  {
    v := Apply(cfg, w, Accept(id));
    LeadsStep(cfg, w, Accept(id), [], v);
    assert v.history == [Done(Initialized)] && v.history[..0] == [];
    assert Replay(cfg.input, []) == FirstFrame(cfg.input);
  }

  /** An automatic task is initialized, and waits for the router on a running row. */
  lemma RoutingIsReached(cfg: Config, first: World) returns (steps: seq<Step>, w: World)
    requires cfg.input.engineRequested == AUTO && Init(cfg, first) && first.row.Some?
    ensures Leads(cfg, first, steps, w) && Current(cfg, w) == Some(SelectEngine)
    ensures w.row == Some(first.row.value.(status := Rows.Running)) && w.attempts.Keys == {0}
    ensures forall i :: 0 <= i < |steps| ==> !steps[i].SetStatus?
  {
    assert Replay(cfg.input, []) == FirstFrame(cfg.input);
    var begun := Apply(cfg, first, Begin(0));
    var work, worked := Initializes(cfg, begun, 0, Choice(Initialized, "", true, false));
    w := AwaitsRouter(cfg, worked, 0);
    LeadsOn(cfg, begun, work, worked, [Accept(0)] + [], w);
    LeadsStep(cfg, first, Begin(0), work + ([Accept(0)] + []), w);
    steps := [Begin(0)] + (work + ([Accept(0)] + []));
  }

  /** So every automatic task that has a row has a run from its start after which the workflow
      runs one engine and the row names the other. */
  lemma EveryTaskCanDisagree(cfg: Config, first: World, c: Choice, d: Choice) returns (steps: seq<Step>, v: World)
    requires cfg.input.engineRequested == AUTO && Init(cfg, first) && first.row.Some?
    requires FitsActivity(SelectEngine, c.output) && FitsActivity(SelectEngine, d.output)
    ensures Leads(cfg, first, steps, v) && PendingEngine(cfg, v) == Some(c.output.engine)
    ensures v.row.Some? && v.row.value.engineSelected == Some(d.output.engine)
  {
    var reached, w := RoutingIsReached(cfg, first);
    var overlap, u := OverlappingAttemptsCanDisagree(cfg, w, 1, 2, c, d);
    LeadsOn(cfg, first, reached, w, overlap, u);
    steps, v := reached + overlap, u;
  }
}
