/**
 What an attempt of the LangGraph run does itself: a resumed one runs exactly the nodes that
 its checkpoint leaves, and whoever returns has saved every checkpoint that it made, in order.
 */
module CheckpointResume {
  import opened Sequences
  import opened Wrappers
  import opened TaskGraph
  import opened CheckpointRun

  /** The checkpoints that an uninterrupted run makes from `c` on, one after each node. */
  function Made(cfg: Config, c: Checkpoint): seq<Checkpoint>
    decreases Remaining(c.next)
  {
    if c.next == End then []
    else
      var next := Advance(cfg.agents, cfg.registry, c);
      [next] + Made(cfg, next)
  }

  /** The checkpoints of a whole uninterrupted run, that of its input first. */
  function AllMade(cfg: Config): seq<Checkpoint> {
    [Start(cfg.userQuery)] + Made(cfg, Start(cfg.userQuery))
  }

  // ---- One attempt's part of a run ----

  /** The nodes that an attempt executes in a run. */
  ghost function NodesRun(cfg: Config, w: World, steps: seq<Step>, id: nat): seq<Node>
    decreases |steps|
  {
    if steps == [] || !Enabled(w, steps[0]) then []
    else if steps[0] == Execute(id) then
      [w.attempts[id].current.next] + NodesRun(cfg, Apply(cfg, w, steps[0]), steps[1..], id)
    else NodesRun(cfg, Apply(cfg, w, steps[0]), steps[1..], id)
  }

  /** The checkpoints for which an attempt writes blob and index in a run, in order. */
  ghost function SavedBy(cfg: Config, w: World, steps: seq<Step>, id: nat): seq<Checkpoint>
    decreases |steps|
  {
    if steps == [] || !Enabled(w, steps[0]) then []
    else if steps[0] == PutIndex(id) then
      [w.attempts[id].unsaved[0]] + SavedBy(cfg, Apply(cfg, w, steps[0]), steps[1..], id)
    else SavedBy(cfg, Apply(cfg, w, steps[0]), steps[1..], id)
  }

  function NodesLeft(cfg: Config, a: Attempt): seq<Node> {
    if a.Running? then Path(cfg.agents, cfg.registry, a.current) else []
  }

  function SavesLeft(cfg: Config, a: Attempt): seq<Checkpoint> {
    if a.Running? then a.unsaved + Made(cfg, a.current) else []
  }

  predicate Begun(w: World, id: nat) {
    id in w.attempts && (w.attempts[id].Running? || w.attempts[id].Returned?)
  }

  predicate Ended(w: World, id: nat) {
    id in w.attempts && w.attempts[id].Dead?
  }

  lemma DeadStaysDead(cfg: Config, w: World, step: Step, id: nat)
    requires Enabled(w, step) && id in w.attempts
    ensures id in Apply(cfg, w, step).attempts
    ensures Ended(w, id) ==> Ended(Apply(cfg, w, step), id)
    ensures Begun(w, id) && !Ended(Apply(cfg, w, step), id) ==> Begun(Apply(cfg, w, step), id)
  {
  }

  lemma {:induction false} DeadAtTheEnd(cfg: Config, w: World, steps: seq<Step>, v: World, id: nat)
    requires Ended(w, id) && Leads(cfg, w, steps, v)
    ensures Ended(v, id)
    decreases |steps|
  {
    if steps != [] {
      DeadStaysDead(cfg, w, steps[0], id);
      DeadAtTheEnd(cfg, Apply(cfg, w, steps[0]), steps[1..], v, id);
    }
  }

  /** What one step takes from the nodes that an attempt still has to run. */
  lemma StepRuns(cfg: Config, w: World, step: Step, id: nat)
    requires Begun(w, id) && Enabled(w, step) && Begun(Apply(cfg, w, step), id)
    ensures var a, b := w.attempts[id], Apply(cfg, w, step).attempts[id];
            if step == Execute(id) then NodesLeft(cfg, a) == [a.current.next] + NodesLeft(cfg, b)
            else NodesLeft(cfg, a) == NodesLeft(cfg, b)
  {
  }

  /** What one step takes from the checkpoints that it still has to save. */
  lemma StepSaves(cfg: Config, w: World, step: Step, id: nat)
    requires Begun(w, id) && Enabled(w, step) && Begun(Apply(cfg, w, step), id)
    ensures var a, b := w.attempts[id], Apply(cfg, w, step).attempts[id];
            if step == PutIndex(id) then SavesLeft(cfg, a) == [a.unsaved[0]] + SavesLeft(cfg, b)
            else SavesLeft(cfg, a) == SavesLeft(cfg, b)
  {
    var a, b := w.attempts[id], Apply(cfg, w, step).attempts[id];
    if step == PutIndex(id) {
      assert a.unsaved == [a.unsaved[0]] + b.unsaved;
      Associates([a.unsaved[0]], b.unsaved, Made(cfg, a.current));
    } else if step == Execute(id) {
      Associates(a.unsaved, [b.current], Made(cfg, b.current));
    }
  }

  lemma {:induction false} RunsAndSavesWhatIsLeft(cfg: Config, w: World, steps: seq<Step>, v: World, id: nat)
    requires Begun(w, id) && Leads(cfg, w, steps, v) && Begun(v, id)
    ensures NodesLeft(cfg, w.attempts[id]) == NodesRun(cfg, w, steps, id) + NodesLeft(cfg, v.attempts[id])
    ensures SavesLeft(cfg, w.attempts[id]) == SavedBy(cfg, w, steps, id) + SavesLeft(cfg, v.attempts[id])
    decreases |steps|
  {
    if steps == [] {
      assert [] + NodesLeft(cfg, v.attempts[id]) == NodesLeft(cfg, v.attempts[id]);
    } else {
      var next := Apply(cfg, w, steps[0]);
      DeadStaysDead(cfg, w, steps[0], id);
      if Ended(next, id) {
        DeadAtTheEnd(cfg, next, steps[1..], v, id);
      }
      StepRuns(cfg, w, steps[0], id);
      StepSaves(cfg, w, steps[0], id);
      RunsAndSavesWhatIsLeft(cfg, next, steps[1..], v, id);
    }
  }

  // ---- What is stored ----

  ghost predicate IsMade(cfg: Config, c: Checkpoint) {
    c in AllMade(cfg)
  }

  lemma {:induction false} MadeIsClosed(cfg: Config, from: Checkpoint, c: Checkpoint)
    requires c in [from] + Made(cfg, from) && c.next != End
    ensures Advance(cfg.agents, cfg.registry, c) in Made(cfg, from)
    decreases Remaining(from.next)
  {
    if c != from {
      MadeIsClosed(cfg, Advance(cfg.agents, cfg.registry, from), c);
    }
  }

  ghost predicate HoldsMade(cfg: Config, a: Attempt) {
    a.Running? ==> IsMade(cfg, a.current) && forall i :: 0 <= i < |a.unsaved| ==> IsMade(cfg, a.unsaved[i])
  }

  ghost predicate MadeInv(cfg: Config, w: World) {
    && (forall id :: id in w.store.blobs ==> IsMade(cfg, w.store.blobs[id]))
    && (forall id :: id in w.attempts ==> HoldsMade(cfg, w.attempts[id]))
  }

  lemma StepMade(cfg: Config, w: World, step: Step)
    requires MadeInv(cfg, w) && Enabled(w, step)
    ensures MadeInv(cfg, Apply(cfg, w, step))
  {
    if step.Execute? {
      var a := w.attempts[step.id];
      assert HoldsMade(cfg, a);
      MadeIsClosed(cfg, Start(cfg.userQuery), a.current);
    }
  }

  lemma {:induction false} RunMade(cfg: Config, w: World, steps: seq<Step>, v: World)
    requires MadeInv(cfg, w) && Leads(cfg, w, steps, v)
    ensures MadeInv(cfg, v)
    decreases |steps|
  {
    if steps != [] {
      StepMade(cfg, w, steps[0]);
      RunMade(cfg, Apply(cfg, w, steps[0]), steps[1..], v);
    }
  }

  // ---- What the workflow may rely on ----

  /** Whatever crashed or ran twice: every stored checkpoint is one that an uninterrupted run makes. */
  lemma StoredCheckpointsAreOfTheRun(cfg: Config, steps: seq<Step>, w: World, id: string)
    requires Leads(cfg, INITIAL, steps, w) && id in w.store.blobs
    ensures w.store.blobs[id] in AllMade(cfg)
  {
    RunMade(cfg, INITIAL, steps, w);
  }

  /** After its lookup an attempt enters once, as it found the store. */
  predicate Entered(w: World, id: nat, resuming: bool) {
    id in w.attempts && !w.attempts[id].Starting? && (w.attempts[id].Entering? ==> w.attempts[id].resuming == resuming)
  }

  lemma {:induction false} StaysEntered(cfg: Config, w: World, steps: seq<Step>, v: World, id: nat, resuming: bool)
    requires Entered(w, id, resuming) && Leads(cfg, w, steps, v)
    ensures Entered(v, id, resuming)
    decreases |steps|
  {
    if steps != [] {
      StaysEntered(cfg, Apply(cfg, w, steps[0]), steps[1..], v, id, resuming);
    }
  }

  /** What an attempt has to do when it enters: the rest of the latest checkpoint's run, or all. */
  lemma EnteringDecides(cfg: Config, w: World, id: nat)
    requires Inv(cfg, w) && Enabled(w, Enter(id))
    ensures Begun(Apply(cfg, w, Enter(id)), id)
    ensures w.attempts[id].resuming ==> LatestCheckpoint(w.store).Some?
    ensures var a := Apply(cfg, w, Enter(id)).attempts[id];
            if w.attempts[id].resuming then
              && NodesLeft(cfg, a) == Path(cfg.agents, cfg.registry, LatestCheckpoint(w.store).value)
              && SavesLeft(cfg, a) == Made(cfg, LatestCheckpoint(w.store).value)
            else
              && NodesLeft(cfg, a) == Path(cfg.agents, cfg.registry, Start(cfg.userQuery))
              && SavesLeft(cfg, a) == AllMade(cfg)
  {
    assert AttemptOk(cfg, w.store, w.attempts[id]);
    var a := Apply(cfg, w, Enter(id)).attempts[id];
    assert [] + Made(cfg, a.current) == Made(cfg, a.current);
  }

  /** An attempt looks for a checkpoint at `found`, enters the graph at `w` and returns by `v`,
      with anything around these steps. If there was a checkpoint it has run exactly the nodes
      that the latest one at its entry leaves, none of those before it, and otherwise the whole
      graph; and it has saved each checkpoint that it made, in order. */
  lemma AttemptsRunExactlyTheRest(cfg: Config, before: seq<Step>, found: World, between: seq<Step>, w: World,
                                  steps: seq<Step>, v: World, id: nat)
    requires Leads(cfg, INITIAL, before, found) && Enabled(found, LookUp(id))
    requires Leads(cfg, Apply(cfg, found, LookUp(id)), between, w) && Enabled(w, Enter(id))
    requires Leads(cfg, Apply(cfg, w, Enter(id)), steps, v) && id in v.attempts && v.attempts[id].Returned?
    ensures LatestCheckpoint(found.store).Some? ==> LatestCheckpoint(w.store).Some?
    ensures var entered := Apply(cfg, w, Enter(id));
            var nodes, saved := NodesRun(cfg, entered, steps, id), SavedBy(cfg, entered, steps, id);
            if LatestCheckpoint(found.store).Some? then
              && nodes == Path(cfg.agents, cfg.registry, LatestCheckpoint(w.store).value)
              && saved == Made(cfg, LatestCheckpoint(w.store).value)
            else nodes == Path(cfg.agents, cfg.registry, Start(cfg.userQuery)) && saved == AllMade(cfg)
  {
    var looked := Apply(cfg, found, LookUp(id));
    RunInv(cfg, INITIAL, before, found);
    StepInv(cfg, found, LookUp(id));
    RunInv(cfg, looked, between, w);
    StaysEntered(cfg, looked, between, w, id, LatestCheckpoint(found.store).Some?);
    EnteringDecides(cfg, w, id);
    RunsAndSavesWhatIsLeft(cfg, Apply(cfg, w, Enter(id)), steps, v, id);
  }
}
