/**
 LangGraph runs over the Dapr checkpoint saver, under crashes, retries and duplicates.

 Any number of attempts work on one thread. An attempt looks for a checkpoint, enters the
 graph from it (or from the request if there was none), executes nodes, and persists the
 checkpoints it made in order: first the blob, then the index that names the latest blob.
 Persisting may lag behind execution. An attempt may crash between any two of these steps.

 The id under which a checkpoint is stored is a free choice of each save: the saver takes
 it from the caller's config or from the checkpoint, and nothing below depends on which.
 */
module CheckpointRun {
  import opened Wrappers
  import opened TaskGraph

  /** The checkpoint blobs of a thread by id, and its index entry. */
  datatype Store = Store(blobs: map<string, Checkpoint>, latest: Option<string>)

  function LatestCheckpoint(store: Store): Option<Checkpoint> {
    if store.latest.Some? && store.latest.value in store.blobs then Some(store.blobs[store.latest.value]) else None
  }

  /** `unsaved` are the checkpoints not yet persisted; the first has its blob written
      under `blobId` once that is set. */
  datatype Attempt =
    | Starting
    | Entering(resuming: bool)
    | Running(current: Checkpoint, unsaved: seq<Checkpoint>, blobId: Option<string>)
    | Returned(state: GraphState)
    | Dead

  datatype World = World(store: Store, attempts: map<nat, Attempt>)

  datatype Config = Config(agents: Agents, registry: set<string>, userQuery: string)

  datatype Step =
    | Launch(id: nat)
    | LookUp(id: nat)
    | Enter(id: nat)
    | Execute(id: nat)
    | PutBlob(id: nat, blobId: string)
    | PutIndex(id: nat)
    | Return(id: nat)
    | Crash(id: nat)

  predicate Enabled(w: World, step: Step) {
    if step.Launch? then step.id !in w.attempts
    else
      step.id in w.attempts &&
      var a := w.attempts[step.id];
      match step
      case LookUp(_) => a.Starting?
      case Enter(_) => a.Entering?
      case Execute(_) => a.Running? && a.current.next != End
      case PutBlob(_, _) => a.Running? && a.unsaved != [] && a.blobId.None?
      case PutIndex(_) => a.Running? && a.unsaved != [] && a.blobId.Some?
      case Return(_) => a.Running? && a.current.next == End && a.unsaved == []
      case Crash(_) => !a.Returned?
  }

  /** Resuming with no checkpoint raises; a fresh run first saves its input. */
  function EnterGraph(cfg: Config, store: Store, resuming: bool): Attempt {
    if !resuming then Running(Start(cfg.userQuery), [Start(cfg.userQuery)], None)
    else
      match LatestCheckpoint(store)
      case Some(c) => Running(c, [], None)
      case None => Dead
  }

  function Apply(cfg: Config, w: World, step: Step): World
    requires Enabled(w, step)
  {
    if step.Launch? then w.(attempts := w.attempts[step.id := Starting])
    else
      var a := w.attempts[step.id];
      match step
      case LookUp(id) => w.(attempts := w.attempts[id := Entering(LatestCheckpoint(w.store).Some?)])
      case Enter(id) => w.(attempts := w.attempts[id := EnterGraph(cfg, w.store, a.resuming)])
      case Execute(id) =>
        var c := Advance(cfg.agents, cfg.registry, a.current);
        w.(attempts := w.attempts[id := a.(current := c, unsaved := a.unsaved + [c])])
      case PutBlob(id, blobId) =>
        World(w.store.(blobs := w.store.blobs[blobId := a.unsaved[0]]),
              w.attempts[id := a.(blobId := Some(blobId))])
      case PutIndex(id) =>
        World(w.store.(latest := a.blobId), w.attempts[id := a.(unsaved := a.unsaved[1..], blobId := None)])
      case Return(id) => w.(attempts := w.attempts[id := Returned(a.current.state)])
      case Crash(id) => w.(attempts := w.attempts[id := Dead])
  }

  ghost predicate Leads(cfg: Config, w: World, steps: seq<Step>, v: World)
    decreases |steps|
  {
    if steps == [] then w == v
    else Enabled(w, steps[0]) && Leads(cfg, Apply(cfg, w, steps[0]), steps[1..], v)
  }

  const INITIAL := World(Store(map[], None), map[])

  // ---- Every stored or held checkpoint leads to the same end ----

  ghost predicate OnCourse(cfg: Config, c: Checkpoint) {
    Finish(cfg.agents, cfg.registry, c) == FinalState(cfg.agents, cfg.registry, cfg.userQuery)
  }

  ghost predicate AttemptOk(cfg: Config, store: Store, a: Attempt) {
    match a
    case Starting => true
    case Entering(resuming) => resuming ==> store.latest.Some?
    case Running(current, unsaved, blobId) =>
      && OnCourse(cfg, current)
      && (forall i :: 0 <= i < |unsaved| ==> OnCourse(cfg, unsaved[i]))
      && (blobId.Some? ==> blobId.value in store.blobs && unsaved != [])
      && (unsaved == [] ==> store.latest.Some?)
    case Returned(state) => state == FinalState(cfg.agents, cfg.registry, cfg.userQuery)
    case Dead => true
  }

  ghost predicate Inv(cfg: Config, w: World) {
    && (forall id :: id in w.store.blobs ==> OnCourse(cfg, w.store.blobs[id]))
    && (w.store.latest.Some? ==> w.store.latest.value in w.store.blobs)
    && (forall id :: id in w.attempts ==> AttemptOk(cfg, w.store, w.attempts[id]))
  }

  lemma OthersStayOk(cfg: Config, w: World, step: Step)
    requires Inv(cfg, w) && Enabled(w, step)
    ensures forall id :: id in w.attempts && id != step.id ==>
              AttemptOk(cfg, Apply(cfg, w, step).store, Apply(cfg, w, step).attempts[id])
  {
    forall id | id in w.attempts && id != step.id
      ensures AttemptOk(cfg, Apply(cfg, w, step).store, Apply(cfg, w, step).attempts[id])
    {
      assert AttemptOk(cfg, w.store, w.attempts[id]);
    }
  }

  lemma OwnStaysOk(cfg: Config, w: World, step: Step)
    requires Inv(cfg, w) && Enabled(w, step)
    ensures AttemptOk(cfg, Apply(cfg, w, step).store, Apply(cfg, w, step).attempts[step.id])
  {
    if !step.Launch? {
      assert AttemptOk(cfg, w.store, w.attempts[step.id]);
    }
    if step.Enter? {
      RunComputesFinalState(cfg.agents, cfg.registry, cfg.userQuery);
    } else if step.Execute? {
      OneNode(cfg.agents, cfg.registry, w.attempts[step.id].current);
    }
  }

  lemma StepInv(cfg: Config, w: World, step: Step)
    requires Inv(cfg, w) && Enabled(w, step)
    ensures Inv(cfg, Apply(cfg, w, step))
  {
    OthersStayOk(cfg, w, step);
    OwnStaysOk(cfg, w, step);
    if step.PutBlob? || step.PutIndex? {
      assert AttemptOk(cfg, w.store, w.attempts[step.id]);
    }
  }

  lemma {:induction false} RunInv(cfg: Config, w: World, steps: seq<Step>, v: World)
    requires Inv(cfg, w) && Leads(cfg, w, steps, v)
    ensures Inv(cfg, v)
    decreases |steps|
  {
    if steps != [] {
      StepInv(cfg, w, steps[0]);
      RunInv(cfg, Apply(cfg, w, steps[0]), steps[1..], v);
    }
  }

  // ---- What the workflow may rely on ----

  /** Whatever crashed, was retried or ran twice: every attempt that returns, returns the
      state of an uninterrupted run, and so do all later ones. */
  lemma EveryReturnIsTheUninterruptedResult(cfg: Config, steps: seq<Step>, w: World, id: nat)
    requires Leads(cfg, INITIAL, steps, w)
    requires id in w.attempts && w.attempts[id].Returned?
    ensures w.attempts[id].state == Finish(cfg.agents, cfg.registry, Start(cfg.userQuery))
  {
    RunInv(cfg, INITIAL, steps, w);
    ReturnedIsFinal(cfg, w, id);
  }

  /** The index never names a blob that is not there, and a thread that has a checkpoint
      keeps having one. */
  lemma IndexNeverDangles(cfg: Config, steps: seq<Step>, w: World, step: Step)
    requires Leads(cfg, INITIAL, steps, w) && Enabled(w, step)
    ensures w.store.latest.Some? <==> LatestCheckpoint(w.store).Some?
    ensures LatestCheckpoint(w.store).Some? ==> LatestCheckpoint(Apply(cfg, w, step).store).Some?
  {
    RunInv(cfg, INITIAL, steps, w);
    StepInv(cfg, w, step);
  }

  /** Saving one checkpoint: after its blob is written a lookup finds the previous or the new
      checkpoint. After its index is written it finds the new one if and only if nobody wrote
      another checkpoint under the same id between the two; otherwise it finds that one. */
  lemma LookupSeesOldOrNew(cfg: Config, steps: seq<Step>, w: World, step: Step)
    requires Leads(cfg, INITIAL, steps, w) && Enabled(w, step)
    ensures var before, after := LatestCheckpoint(w.store), LatestCheckpoint(Apply(cfg, w, step).store);
            match step
            case PutBlob(id, _) => after == before || after == Some(w.attempts[id].unsaved[0])
            case PutIndex(id) =>
              var a := w.attempts[id];
              && a.blobId.value in w.store.blobs && after == Some(w.store.blobs[a.blobId.value])
              && (after == Some(a.unsaved[0]) <==> w.store.blobs[a.blobId.value] == a.unsaved[0])
            case _ => after == before
  {
    RunInv(cfg, INITIAL, steps, w);
    assert step.PutIndex? ==> AttemptOk(cfg, w.store, w.attempts[step.id]);
  }

  /** Steps of one attempt that bring it to its end. */
  function Rest(cfg: Config, a: Attempt): nat
    requires a.Running?
  {
    3 * Remaining(a.current.next) + 2 * |a.unsaved| + (if a.blobId.None? then 1 else 0)
  }

  ghost predicate OwnSteps(steps: seq<Step>, id: nat) {
    forall i :: 0 <= i < |steps| ==> steps[i].id == id && !steps[i].Crash?
  }

  /** An attempt's next step: it makes progress, whatever else has happened. */
  lemma NextStep(cfg: Config, w: World, id: nat) returns (step: Step)
    requires id in w.attempts && w.attempts[id].Running?
    requires w.attempts[id].blobId.Some? ==> w.attempts[id].unsaved != []
    ensures step.id == id && !step.Crash? && Enabled(w, step)
    ensures var a := Apply(cfg, w, step).attempts[id];
            a.Returned? || (a.Running? && Rest(cfg, a) < Rest(cfg, w.attempts[id]))
  {
    var a := w.attempts[id];
    step :=
      if a.blobId.Some? then PutIndex(id)
      else if a.unsaved != [] then PutBlob(id, "checkpoint")
      else if a.current.next != End then Execute(id)
      else Return(id);
  }

  lemma OwnProgress(cfg: Config, w: World, id: nat) returns (step: Step)
    requires Inv(cfg, w) && id in w.attempts && w.attempts[id].Running?
    ensures step.id == id && !step.Crash? && Enabled(w, step) && Inv(cfg, Apply(cfg, w, step))
    ensures var a := Apply(cfg, w, step).attempts[id];
            a.Returned? || (a.Running? && Rest(cfg, a) < Rest(cfg, w.attempts[id]))
  {
    assert AttemptOk(cfg, w.store, w.attempts[id]);
    step := NextStep(cfg, w, id);
    StepInv(cfg, w, step);
  }

  lemma {:induction false} RunningAttemptCanReturn(cfg: Config, w: World, id: nat) returns (steps: seq<Step>, v: World)
    requires Inv(cfg, w) && id in w.attempts && w.attempts[id].Running?
    ensures Leads(cfg, w, steps, v) && OwnSteps(steps, id)
    ensures id in v.attempts && v.attempts[id].Returned?
    decreases Rest(cfg, w.attempts[id])
  {
    var step := OwnProgress(cfg, w, id);
    var next := Apply(cfg, w, step);
    if next.attempts[id].Returned? {
      LeadsStep(cfg, w, step, [], next);
      return [step], next;
    }
    var more;
    more, v := RunningAttemptCanReturn(cfg, next, id);
    LeadsStep(cfg, w, step, more, v);
    steps := [step] + more;
  }

  lemma NewAttemptEnters(cfg: Config, w: World, id: nat) returns (v: World)
    requires Inv(cfg, w) && id !in w.attempts
    ensures Inv(cfg, v) && id in v.attempts && v.attempts[id].Running?
    ensures forall more, u :: Leads(cfg, v, more, u) ==>
              Leads(cfg, w, EntrySteps(id, more), u)
  {
    var w1 := Apply(cfg, w, Launch(id));
    StepInv(cfg, w, Launch(id));
    var w2 := Apply(cfg, w1, LookUp(id));
    StepInv(cfg, w1, LookUp(id));
    v := Apply(cfg, w2, Enter(id));
    StepInv(cfg, w2, Enter(id));
    forall more, u | Leads(cfg, v, more, u)
      ensures Leads(cfg, w, EntrySteps(id, more), u)
    {
      LeadsStep(cfg, w2, Enter(id), more, u);
      LeadsStep(cfg, w1, LookUp(id), [Enter(id)] + more, u);
      LeadsStep(cfg, w, Launch(id), [LookUp(id)] + ([Enter(id)] + more), u);
    }
  }

  /** From every reachable state a new attempt, left alone, returns the uninterrupted result:
      a run may crash anywhere and be resumed any number of times. */
  lemma RetryCompletes(cfg: Config, before: seq<Step>, w: World, id: nat) returns (steps: seq<Step>, v: World)
    requires Leads(cfg, INITIAL, before, w) && id !in w.attempts
    ensures Leads(cfg, w, steps, v) && OwnSteps(steps, id)
    ensures id in v.attempts && v.attempts[id] == Returned(Finish(cfg.agents, cfg.registry, Start(cfg.userQuery)))
  {
    RunInv(cfg, INITIAL, before, w);
    var entered := NewAttemptEnters(cfg, w, id);
    var more;
    more, v := RunningAttemptCanReturn(cfg, entered, id);
    steps := EntrySteps(id, more);
    RunInv(cfg, entered, more, v);
    ReturnedIsFinal(cfg, v, id);
  }

  ghost function EntrySteps(id: nat, more: seq<Step>): (steps: seq<Step>)
    ensures OwnSteps(more, id) ==> OwnSteps(steps, id)
  {
    [Launch(id)] + ([LookUp(id)] + ([Enter(id)] + more))
  }

  lemma ReturnedIsFinal(cfg: Config, w: World, id: nat)
    requires Inv(cfg, w) && id in w.attempts && w.attempts[id].Returned?
    ensures w.attempts[id].state == Finish(cfg.agents, cfg.registry, Start(cfg.userQuery))
  {
    assert AttemptOk(cfg, w.store, w.attempts[id]);
    RunComputesFinalState(cfg.agents, cfg.registry, cfg.userQuery);
  }

  lemma LeadsStep(cfg: Config, w: World, step: Step, rest: seq<Step>, v: World)
    requires Enabled(w, step) && Leads(cfg, Apply(cfg, w, step), rest, v)
    ensures Leads(cfg, w, [step] + rest, v)
  {
    assert ([step] + rest)[1..] == rest;
  }

  // ---- The result that goes to the workflow ----

  /** A result fails if the run recorded errors or left no report, or an empty one. */
  predicate ResultFailed(s: GraphState) {
    s.errors != [] || s.report.None? || s.report.value == ""
  }

  /** The graph records no errors, so a result fails exactly when the writer's text is empty. */
  lemma ResultFailsExactlyOnEmptyText(cfg: Config)
    ensures ResultFailed(Finish(cfg.agents, cfg.registry, Start(cfg.userQuery))) <==>
            cfg.agents.summarize(cfg.userQuery, ResearchOf(cfg.agents, cfg.registry, cfg.userQuery).notes,
              TextOf(AnalysisOf(cfg.agents, cfg.registry, cfg.userQuery))) == ""
  {
    RunComputesFinalState(cfg.agents, cfg.registry, cfg.userQuery);
  }
}
