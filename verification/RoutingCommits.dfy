/**
 Automatic routing, exactly: when does the task row name the engine that the workflow runs?

 Any number of routing attempts may overlap and decide differently. The row names the decision
 of the last routing session that committed; the workflow runs the decision of the attempt
 that it accepted. The two agree exactly when the last session to commit decided as the
 accepted one had. Other activities, overlapping or not, have no part in it.
 */
module RoutingCommits {
  import opened Sequences
  import opened Wrappers
  import opened EngineChoices
  import opened Orchestration
  import opened WorkflowSchedules
  import opened DurableTask
  import Rows = TaskRows

  /** A routing attempt's session that committed. */
  datatype Commit = Commit(id: nat, engine: string)

  /** The routing session that a step commits, if it does. */
  function CommitOf(w: World, step: Step): Option<Commit> {
    if step.Work? && step.id in w.attempts && w.attempts[step.id].activity.SelectEngine?
       && w.attempts[step.id].progress.Computed? && w.attempts[step.id].progress.output.Selected?
       && w.row.Some? && Rows.CanTransition(w.row.value.status, Rows.Running)
    then Some(Commit(step.id, w.attempts[step.id].progress.output.engine))
    else None
  }

  function Listed<T>(item: Option<T>): seq<T> {
    if item.Some? then [item.value] else []
  }

  /** The routing sessions that a run commits, in order. */
  ghost function Commits(cfg: Config, w: World, steps: seq<Step>): seq<Commit>
    decreases |steps|
  {
    if steps == [] || !Enabled(cfg, w, steps[0]) then []
    else Listed(CommitOf(w, steps[0])) + Commits(cfg, Apply(cfg, w, steps[0]), steps[1..])
  }

  /** The routing attempt whose result a step hands to the workflow. */
  function AcceptedBy(cfg: Config, w: World, step: Step): Option<nat> {
    if step.Accept? && Current(cfg, w) == Some(SelectEngine) then Some(step.id) else None
  }

  /** The first routing attempt that a run accepts. */
  ghost function Accepted(cfg: Config, w: World, steps: seq<Step>): Option<nat>
    decreases |steps|
  {
    if steps == [] || !Enabled(cfg, w, steps[0]) then None
    else if AcceptedBy(cfg, w, steps[0]).Some? then AcceptedBy(cfg, w, steps[0])
    else Accepted(cfg, Apply(cfg, w, steps[0]), steps[1..])
  }

  // ---- The invariant ----

  predicate RowIsLast(w: World, commits: seq<Commit>) {
    w.row.Some? ==>
      w.row.value.engineSelected == if commits == [] then None else Some(commits[|commits| - 1].engine)
  }

  /** The decision of a routing attempt that has committed. */
  function Decided(a: Attempt): Option<Payload> {
    if !a.activity.SelectEngine? then None
    else
      match a.progress
      case Announcing(_, decision) => Some(decision)
      case Returned(decision) => Some(decision)
      case _ => None
  }

  predicate IsUndecided(a: Attempt) {
    a.activity.SelectEngine? && (a.progress.Ready? || a.progress.Computed?)
  }

  /** A routing attempt that has decided is in the list of commits; one that has not, is not. */
  ghost predicate AttemptListed(w: World, commits: seq<Commit>, id: nat)
    requires id in w.attempts
  {
    var a := w.attempts[id];
    && (Decided(a).Some? && w.row.Some? ==>
          Decided(a).value.Selected? && Commit(id, Decided(a).value.engine) in commits)
    && (IsUndecided(a) ==> NeverCommitted(commits, id))
  }

  ghost predicate NeverCommitted(commits: seq<Commit>, id: nat) {
    forall k :: 0 <= k < |commits| ==> commits[k].id != id
  }

  ghost predicate CommitsOk(w: World, commits: seq<Commit>) {
    && (forall k :: 0 <= k < |commits| ==> commits[k].id in w.attempts)
    && (forall j, k :: 0 <= j < k < |commits| ==> commits[j].id != commits[k].id)
  }

  predicate Routed(p: Point) {
    !p.AtInitialize? && !p.AtSelect? && !p.AtMarkFailed? && !p.Raised?
  }

  /** Once routed, the workflow runs the committed decision of the accepted attempt. */
  ghost predicate EngineListed(cfg: Config, w: World, commits: seq<Commit>, accepted: Option<nat>) {
    var f := Replay(cfg.input, w.history);
    && (Routed(f.point) ==>
          && accepted.Some? && f.engine in {LANGGRAPH, CREWAI}
          && (w.row.Some? ==> Commit(accepted.value, f.engine) in commits))
    && (accepted.Some? ==> !f.point.AtInitialize? && !f.point.AtSelect?)
  }

  ghost predicate RouteInv(cfg: Config, w: World, commits: seq<Commit>, accepted: Option<nat>) {
    && cfg.input.engineRequested == AUTO
    && Inv(cfg, w) && RowIsLast(w, commits) && CommitsOk(w, commits)
    && (forall id :: id in w.attempts ==> AttemptListed(w, commits, id))
    && EngineListed(cfg, w, commits, accepted)
  }

  function OrElse(first: Option<nat>, second: Option<nat>): Option<nat> {
    if first.Some? then first else second
  }

  // ---- Every step keeps it ----

  /** Only a routing session changes the row's engine. */
  lemma StepRowIsLast(cfg: Config, w: World, step: Step, commits: seq<Commit>, accepted: Option<nat>)
    requires RouteInv(cfg, w, commits, accepted) && Enabled(cfg, w, step)
    ensures RowIsLast(Apply(cfg, w, step), commits + Listed(CommitOf(w, step)))
  {
    if step.Work? {
      WorkRowIsLast(cfg, w, step.id, step.choice, commits, accepted);
    } else {
      OtherStepsKeepEngine(cfg, w, step);
      assert commits + [] == commits;
    }
  }

  lemma OtherStepsKeepEngine(cfg: Config, w: World, step: Step)
    requires Enabled(cfg, w, step) && !step.Work?
    ensures var v := Apply(cfg, w, step);
            && v.row.Some? == w.row.Some? && CommitOf(w, step).None?
            && (w.row.Some? ==> v.row.value.engineSelected == w.row.value.engineSelected)
  {
  }

  lemma WorkRowIsLast(cfg: Config, w: World, id: nat, c: Choice, commits: seq<Commit>, accepted: Option<nat>)
    requires RouteInv(cfg, w, commits, accepted) && Enabled(cfg, w, Work(id, c))
    ensures RowIsLast(Apply(cfg, w, Work(id, c)), commits + Listed(CommitOf(w, Work(id, c))))
  {
    var a := w.attempts[id];
    assert AttemptOk(cfg, w, a);
    assert commits + [] == commits;
    if a.activity.SelectEngine? {
      RoutingEffect(cfg, w, id, c);
    } else {
      EffectRow(cfg, w, a, c);
    }
  }

  lemma RoutingEffect(cfg: Config, w: World, id: nat, c: Choice)
    requires id in w.attempts && w.attempts[id].activity.SelectEngine?
    requires ProgressOk(w, w.attempts[id].activity, w.attempts[id].progress)
    ensures var e := WorkEffect(cfg, w, w.attempts[id], c);
            match CommitOf(w, Work(id, c))
            case Some(commit) => e.row.Some? && e.row.value.engineSelected == Some(commit.engine)
            case None => e.row == w.row
  {
  }

  lemma StepCommits(cfg: Config, w: World, step: Step, commits: seq<Commit>, accepted: Option<nat>)
    requires RouteInv(cfg, w, commits, accepted) && Enabled(cfg, w, step)
    ensures CommitsOk(Apply(cfg, w, step), commits + Listed(CommitOf(w, step)))
  {
    if CommitOf(w, step).Some? {
      assert AttemptListed(w, commits, step.id);
    }
  }

  /** What a step of a routing attempt makes of its decision. */
  lemma RoutingProgress(cfg: Config, w: World, id: nat, c: Choice)
    requires id in w.attempts && w.attempts[id].activity.SelectEngine? && Enabled(cfg, w, Work(id, c))
    requires ProgressOk(w, w.attempts[id].activity, w.attempts[id].progress)
    ensures var a, b := w.attempts[id], Apply(cfg, w, Work(id, c)).attempts[id];
            && (Decided(b).Some? ==>
                  if Decided(a).Some? then Decided(b) == Decided(a)
                  else Decided(b).value.Selected?
                       && (w.row.Some? ==> CommitOf(w, Work(id, c)) == Some(Commit(id, Decided(b).value.engine))))
            && (IsUndecided(b) ==> IsUndecided(a) && CommitOf(w, Work(id, c)).None?)
  {
  }

  lemma Append(commits: seq<Commit>, more: Option<Commit>)
    ensures forall commit :: commit in commits ==> commit in commits + Listed(more)
    ensures forall id :: NeverCommitted(commits, id) && (more.Some? ==> more.value.id != id) ==>
              NeverCommitted(commits + Listed(more), id)
  {
  }

  lemma WorkListed(cfg: Config, w: World, id: nat, c: Choice, commits: seq<Commit>, accepted: Option<nat>)
    requires RouteInv(cfg, w, commits, accepted) && Enabled(cfg, w, Work(id, c))
    ensures AttemptListed(Apply(cfg, w, Work(id, c)), commits + Listed(CommitOf(w, Work(id, c))), id)
  {
    var more := CommitOf(w, Work(id, c));
    assert AttemptListed(w, commits, id) && AttemptOk(cfg, w, w.attempts[id]);
    Append(commits, more);
    if w.attempts[id].activity.SelectEngine? {
      RoutingProgress(cfg, w, id, c);
      assert more.Some? ==> more.value in commits + Listed(more);
    }
    StepRow(cfg, w, Work(id, c));
  }

  lemma StepListed(cfg: Config, w: World, step: Step, commits: seq<Commit>, accepted: Option<nat>, id: nat)
    requires RouteInv(cfg, w, commits, accepted) && Enabled(cfg, w, step) && id in Apply(cfg, w, step).attempts
    ensures AttemptListed(Apply(cfg, w, step), commits + Listed(CommitOf(w, step)), id)
  {
    if step.Work? && step.id == id {
      WorkListed(cfg, w, id, step.choice, commits, accepted);
    } else {
      assert id in w.attempts ==> AttemptListed(w, commits, id);
      Append(commits, CommitOf(w, step));
      StepRow(cfg, w, step);
    }
  }

  /** The generator's engine, one outcome later. */
  lemma ResumeEngine(cfg: Config, history: seq<Outcome>, outcome: Outcome)
    requires cfg.input.engineRequested == AUTO
    ensures var f := Replay(cfg.input, history);
            var g := Replay(cfg.input, history + [outcome]);
            && (Routed(g.point) ==>
                  if f.point.AtSelect?
                  then outcome.Done? && outcome.payload.Selected? && g.engine == outcome.payload.engine
                  else Routed(f.point) && g.engine == f.engine)
            && (g.point.AtInitialize? || g.point.AtSelect? ==> f.point.AtInitialize? || f.point.AtSelect?)
            && (f.point.AtSelect? ==> !g.point.AtInitialize? && !g.point.AtSelect?)
  {
    assert (history + [outcome])[..|history|] == history;
  }

  lemma StepHistory(cfg: Config, w: World, step: Step)
    requires Enabled(cfg, w, step)
    ensures Apply(cfg, w, step).history ==
            match step
            case Accept(id) => w.history + [Done(w.attempts[id].progress.result)]
            case GiveUp(error) => w.history + [Failed(error)]
            case _ => w.history
    ensures Current(cfg, w) == Some(SelectEngine) <==> Replay(cfg.input, w.history).point.AtSelect?
  {
  }

  lemma AcceptEngine(cfg: Config, w: World, id: nat, commits: seq<Commit>, accepted: Option<nat>)
    requires RouteInv(cfg, w, commits, accepted) && Enabled(cfg, w, Accept(id))
    ensures EngineListed(cfg, Apply(cfg, w, Accept(id)), commits, OrElse(accepted, AcceptedBy(cfg, w, Accept(id))))
  {
    var a := w.attempts[id];
    assert AttemptOk(cfg, w, a) && AttemptListed(w, commits, id);
    StepHistory(cfg, w, Accept(id));
    ResumeEngine(cfg, w.history, Done(a.progress.result));
    AcceptedIsPending(cfg, w, id);
  }

  lemma StepEngine(cfg: Config, w: World, step: Step, commits: seq<Commit>, accepted: Option<nat>)
    requires RouteInv(cfg, w, commits, accepted) && Enabled(cfg, w, step)
    ensures EngineListed(cfg, Apply(cfg, w, step), commits + Listed(CommitOf(w, step)),
                         OrElse(accepted, AcceptedBy(cfg, w, step)))
  {
    Append(commits, CommitOf(w, step));
    if step.Accept? {
      AcceptEngine(cfg, w, step.id, commits, accepted);
      assert commits + [] == commits;
    } else {
      StepRow(cfg, w, step);
      StepHistory(cfg, w, step);
      if step.GiveUp? {
        ResumeEngine(cfg, w.history, Failed(step.error));
      }
    }
  }

  lemma StepRoute(cfg: Config, w: World, step: Step, commits: seq<Commit>, accepted: Option<nat>)
    requires RouteInv(cfg, w, commits, accepted) && Enabled(cfg, w, step)
    ensures RouteInv(cfg, Apply(cfg, w, step), commits + Listed(CommitOf(w, step)),
                     OrElse(accepted, AcceptedBy(cfg, w, step)))
  {
    StepInv(cfg, w, step);
    StepRowIsLast(cfg, w, step, commits, accepted);
    StepCommits(cfg, w, step, commits, accepted);
    StepEngine(cfg, w, step, commits, accepted);
    forall id | id in Apply(cfg, w, step).attempts
      ensures AttemptListed(Apply(cfg, w, step), commits + Listed(CommitOf(w, step)), id)
    {
      StepListed(cfg, w, step, commits, accepted, id);
    }
  }

  lemma FirstCommit(cfg: Config, w: World, steps: seq<Step>)
    requires steps != [] && Enabled(cfg, w, steps[0])
    ensures Commits(cfg, w, steps) == Listed(CommitOf(w, steps[0])) + Commits(cfg, Apply(cfg, w, steps[0]), steps[1..])
    ensures Accepted(cfg, w, steps)
         == OrElse(AcceptedBy(cfg, w, steps[0]), Accepted(cfg, Apply(cfg, w, steps[0]), steps[1..]))
  {
  }

  lemma {:induction false} RunRoute(cfg: Config, w: World, steps: seq<Step>, v: World,
                                    commits: seq<Commit>, accepted: Option<nat>, all: seq<Commit>, final: Option<nat>)
    requires RouteInv(cfg, w, commits, accepted) && Leads(cfg, w, steps, v)
    requires all == commits + Commits(cfg, w, steps) && final == OrElse(accepted, Accepted(cfg, w, steps))
    ensures RouteInv(cfg, v, all, final)
    decreases |steps|
  {
    if steps == [] {
      assert all == commits;
    } else {
      var more := Listed(CommitOf(w, steps[0]));
      StepRoute(cfg, w, steps[0], commits, accepted);
      FirstCommit(cfg, w, steps);
      Associates(commits, more, Commits(cfg, Apply(cfg, w, steps[0]), steps[1..]));
      RunRoute(cfg, Apply(cfg, w, steps[0]), steps[1..], v, commits + more,
               OrElse(accepted, AcceptedBy(cfg, w, steps[0])), all, final);
    }
  }

  lemma RunRouteInv(cfg: Config, first: World, steps: seq<Step>, w: World)
    requires cfg.input.engineRequested == AUTO && Init(cfg, first) && Leads(cfg, first, steps, w)
    ensures RouteInv(cfg, w, Commits(cfg, first, steps), Accepted(cfg, first, steps))
  {
    InitInv(cfg, first);
    assert Replay(cfg.input, []) == FirstFrame(cfg.input);
    assert [] + Commits(cfg, first, steps) == Commits(cfg, first, steps);
    RunRoute(cfg, first, steps, w, [], None, Commits(cfg, first, steps), Accepted(cfg, first, steps));
  }

  // ---- What holds in every run ----

  /** However routing attempts overlap, the row names the decision of the last routing session
      that committed, or no engine before the first. */
  lemma RowNamesTheLastCommit(cfg: Config, first: World, steps: seq<Step>, w: World)
    requires cfg.input.engineRequested == AUTO && Init(cfg, first) && Leads(cfg, first, steps, w)
    ensures w.row.Some? ==>
              var commits := Commits(cfg, first, steps);
              w.row.value.engineSelected == if commits == [] then None else Some(commits[|commits| - 1].engine)
  {
    RunRouteInv(cfg, first, steps, w);
  }

  function EngineOf(a: Activity): Option<string> {
    match a
    case RunLangGraph(engine) => Some(engine)
    case RunResearcher(engine, _) => Some(engine)
    case RunAnalyst(engine, _, _) => Some(engine)
    case RunWriter(engine, _, _, _) => Some(engine)
    case Delay(engine) => Some(engine)
    case Finalize(engine, _) => Some(engine)
    case _ => None
  }

  /** The engine that the activity which the workflow waits for runs under, if it has one. */
  function PendingEngine(cfg: Config, w: World): Option<string> {
    if Current(cfg, w).Some? then EngineOf(Current(cfg, w).value) else None
  }

  lemma PendingIsRouted(cfg: Config, w: World)
    requires PendingEngine(cfg, w).Some?
    ensures Routed(Replay(cfg.input, w.history).point)
    ensures PendingEngine(cfg, w) == Some(Replay(cfg.input, w.history).engine)
  {
  }

  /** In every run, an engine activity runs under an engine of the router, whatever the row
      names, and whatever overlapped. */
  lemma PendingEngineIsKnown(cfg: Config, first: World, steps: seq<Step>, w: World)
    requires cfg.input.engineRequested == AUTO && Init(cfg, first) && Leads(cfg, first, steps, w)
    ensures PendingEngine(cfg, w).Some? ==> PendingEngine(cfg, w).value in {LANGGRAPH, CREWAI}
  {
    RunRouteInv(cfg, first, steps, w);
    if PendingEngine(cfg, w).Some? {
      PendingIsRouted(cfg, w);
    }
  }

  /** Whether the row names `engine`, the decision of the `k`-th commit. */
  predicate AgreesExactly(w: World, commits: seq<Commit>, k: nat, engine: string) {
    w.row.Some? && k < |commits| && commits[k].engine == engine
    && var named := w.row.value.engineSelected == Some(engine);
       && (named <==> commits[|commits| - 1].engine == engine)
       && ((forall j :: k < j < |commits| ==> commits[j].engine == engine) ==> named)
       && (!named ==> exists j :: k < j < |commits| && commits[j].engine != engine)
  }

  lemma LastDecides(w: World, commits: seq<Commit>, k: nat)
    requires w.row.Some? && RowIsLast(w, commits) && k < |commits|
    ensures AgreesExactly(w, commits, k, commits[k].engine)
  {
    var last := |commits| - 1;
    assert k == last || k < last;
  }

  /** In every run: the accepted attempt has one commit, the `k`-th, and its decision is the
      engine of the activity that the workflow waits for. The row names that engine if and
      only if the last routing session to commit decided alike. So it does when no session
      with another decision commits after the accepted one, and when it does not, one has. */
  lemma RowAgreesExactly(cfg: Config, first: World, steps: seq<Step>, w: World) returns (k: nat)
    requires cfg.input.engineRequested == AUTO && Init(cfg, first) && Leads(cfg, first, steps, w)
    requires w.row.Some? && PendingEngine(cfg, w).Some?
    ensures var commits := Commits(cfg, first, steps);
            && k < |commits| && Accepted(cfg, first, steps) == Some(commits[k].id)
            && (forall j :: 0 <= j < |commits| && j != k ==> commits[j].id != commits[k].id)
            && PendingEngine(cfg, w) == Some(commits[k].engine)
            && AgreesExactly(w, commits, k, commits[k].engine)
  {
    RunRouteInv(cfg, first, steps, w);
    PendingIsRouted(cfg, w);
    var commits, accepted := Commits(cfg, first, steps), Accepted(cfg, first, steps);
    k :| 0 <= k < |commits| && commits[k] == Commit(accepted.value, Replay(cfg.input, w.history).engine);
    LastDecides(w, commits, k);
  }
}
