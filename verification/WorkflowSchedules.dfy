/**
 What the task workflow schedules, over every history: a grammar of activity kinds, a bound
 on counted attempts, and where each activity's inputs come from.
 */
module WorkflowSchedules {
  import opened Sequences
  import opened Wrappers
  import opened EngineChoices
  import opened Orchestration

  datatype Kind =
    | KInitialize | KSelect | KLangGraph | KResearcher | KAnalyst | KWriter | KDelay | KFinalize | KMarkFailed

  function KindOf(a: Activity): Kind {
    match a
    case Initialize => KInitialize
    case SelectEngine => KSelect
    case RunLangGraph(_) => KLangGraph
    case RunResearcher(_, _) => KResearcher
    case RunAnalyst(_, _, _) => KAnalyst
    case RunWriter(_, _, _, _) => KWriter
    case Delay(_) => KDelay
    case Finalize(_, _) => KFinalize
    case MarkFailed(_) => KMarkFailed
  }

  function Kinds(activities: seq<Activity>): (kinds: seq<Kind>)
    ensures |kinds| == |activities|
    ensures forall i :: 0 <= i < |kinds| ==> kinds[i] == KindOf(activities[i])
  {
    seq(|activities|, i requires 0 <= i < |activities| => KindOf(activities[i]))
  }

  // ---- The grammar ----

  /** initialize [select] (langgraph | researcher analyst writer) [delay] finalize */
  function Word(auto: bool, graph: bool, delayed: bool): seq<Kind> {
    [KInitialize] + (When(auto, [KSelect]) + (Roles(graph) + Ending(delayed)))
  }

  function Roles(graph: bool): seq<Kind> {
    if graph then [KLangGraph] else [KResearcher, KAnalyst, KWriter]
  }

  function Ending(delayed: bool): seq<Kind> {
    When(delayed, [KDelay]) + [KFinalize]
  }

  /** The engine that `graph` stands for is one that this input can resolve to. */
  predicate CanResolve(input: WorkflowInput, graph: bool) {
    input.engineRequested == AUTO || graph == (input.engineRequested == LANGGRAPH)
  }

  function WordOf(input: WorkflowInput, graph: bool): seq<Kind> {
    Word(input.engineRequested == AUTO, graph, input.delay > 0)
  }

  /** A non-empty prefix of a word, or such a prefix and then mark_failed. */
  ghost predicate IsSchedule(input: WorkflowInput, kinds: seq<Kind>) {
    exists graph, begun :: Begun(input, graph, begun) && (kinds == begun || kinds == begun + [KMarkFailed])
  }

  predicate Begun(input: WorkflowInput, graph: bool, begun: seq<Kind>) {
    CanResolve(input, graph) && begun != [] && begun <= WordOf(input, graph)
  }

  // ---- Replay ----

  lemma {:induction false} ReplayIsDeterministic(input: WorkflowInput, history: seq<Outcome>, n: nat)
    requires n <= |history|
    ensures Scheduled(input, history[..n]) <= Scheduled(input, history)
  {
    if n == |history| {
      assert history[..n] == history;
    } else {
      var shorter := history[..|history| - 1];
      assert shorter[..n] == history[..n];
      ReplayIsDeterministic(input, shorter, n);
    }
  }

  lemma {:induction false} HistoryIsPending(input: WorkflowInput, history: seq<Outcome>, n: nat)
    requires IsHistory(input, history) && n < |history|
    ensures Pending(Replay(input, history[..n])).Some?
    decreases |history|
  {
    var last := |history| - 1;
    if n < last {
      assert history[..last][..n] == history[..n];
      HistoryIsPending(input, history[..last], n);
    }
  }

  lemma Longer(history: seq<Outcome>, n: nat)
    requires n < |history|
    ensures history[..n + 1] == history[..n] + [history[n]]
  {
  }

  lemma Whole(history: seq<Outcome>)
    ensures history[..|history|] == history
  {
  }

  /** A restart: a new generator is sent the recorded outcomes, and what it yields is collected. */
  method ReplayHistory(input: WorkflowInput, history: seq<Outcome>)
    returns (generator: TaskOrchestration, activities: seq<Activity>)
    requires IsHistory(input, history)
    ensures fresh(generator) && generator.Valid() && generator.input == input && generator.history == history
    ensures activities == generator.yielded == Scheduled(input, history)
  {
    generator := new TaskOrchestration(input);
    activities := [Initialize];
    for i := 0 to |history|
      invariant fresh(generator) && generator.Valid() && generator.input == input
      invariant generator.history == history[..i] && activities == generator.yielded
    {
      HistoryIsPending(input, history, i);
      Longer(history, i);
      var next := generator.Send(history[i]);
      activities := activities + (if next.Some? then [next.value] else []);
    }
    Whole(history);
  }

  /** A restart after which `original` is lost, on a history that it, or a later generator, has
      recorded: the new generator first activities again exactly what the original has yielded, and
      if nothing was recorded since, it ends in the original's state. */
  method Recover(original: TaskOrchestration, history: seq<Outcome>)
    returns (generator: TaskOrchestration, activities: seq<Activity>)
    requires original.Valid() && IsHistory(original.input, history)
    requires original.history <= history
    ensures fresh(generator) && generator.Valid() && generator.history == history
    ensures activities == generator.yielded && original.yielded <= activities
    ensures history == original.history ==> activities == original.yielded && generator.State() == original.State()
  {
    generator, activities := ReplayHistory(original.input, history);
    assert history[..|original.history|] == original.history;
    ReplayIsDeterministic(original.input, history, |original.history|);
  }

  /** The `n`-th activity scheduled is the one pending after the first `n` outcomes. */
  lemma {:induction false} ScheduledAt(input: WorkflowInput, history: seq<Outcome>, n: nat)
    requires IsHistory(input, history) && n <= |history|
    ensures |Scheduled(input, history)| == |history| + if Pending(Replay(input, history)).Some? then 1 else 0
    ensures n < |Scheduled(input, history)| ==>
              Pending(Replay(input, history[..n])) == Some(Scheduled(input, history)[n])
  {
    if history != [] {
      var shorter := history[..|history| - 1];
      if n == |history| {
        assert history[..n] == history;
        ScheduledAt(input, shorter, n - 1);
      } else {
        assert shorter[..n] == history[..n];
        ScheduledAt(input, shorter, n);
      }
    } else {
      assert history[..n] == history;
    }
  }

  // ---- Schedules are words of the grammar ----

  predicate Normal(p: Point) {
    !p.AtMarkFailed? && !p.Completed? && !p.Raised?
  }

  /** The letters that follow the one scheduled at `p`. */
  function Rest(input: WorkflowInput, graph: bool, p: Point): seq<Kind>
    requires Normal(p)
  {
    match p
    case AtInitialize => When(input.engineRequested == AUTO, [KSelect]) + (Roles(graph) + Ending(input.delay > 0))
    case AtSelect => Roles(graph) + Ending(input.delay > 0)
    case AtLangGraph => Ending(input.delay > 0)
    case AtResearcher => [KAnalyst, KWriter] + Ending(input.delay > 0)
    case AtAnalyst => [KWriter] + Ending(input.delay > 0)
    case AtWriter => Ending(input.delay > 0)
    case AtDelay => [KFinalize]
    case AtFinalize => []
  }

  function Graph(f: Frame): bool {
    f.engine == LANGGRAPH
  }

  /** Before the engine is resolved, both branches of the word are open. */
  predicate IsOpen(input: WorkflowInput, f: Frame, graph: bool) {
    if f.point.AtSelect? || f.point.AtInitialize? then CanResolve(input, graph) else graph == Graph(f)
  }

  predicate FrameOk(input: WorkflowInput, f: Frame) {
    && CanResolve(input, Graph(f))
    && match f.point
       case AtInitialize => f.engine == input.engineRequested
       case AtSelect => input.engineRequested == AUTO
       case AtLangGraph => Graph(f)
       case AtResearcher => !Graph(f)
       case _ => true
  }

  /** What the generator has scheduled, given where it is. */
  ghost predicate KindsOk(input: WorkflowInput, f: Frame, kinds: seq<Kind>) {
    if Normal(f.point) then
      && kinds != []
      && forall graph :: IsOpen(input, f, graph) ==> kinds + Rest(input, graph, f.point) == WordOf(input, graph)
    else if f.point.Completed? then kinds == WordOf(input, Graph(f))
    else exists begun :: Begun(input, Graph(f), begun) && kinds == begun + [KMarkFailed]
  }

  function Letter(f: Frame): seq<Kind> {
    if Pending(f).Some? then [KindOf(Pending(f).value)] else []
  }

  lemma NextLetter(input: WorkflowInput, f: Frame, payload: Payload, graph: bool)
    requires Normal(f.point) && FrameOk(input, f) && Normal(OnResult(input, f, payload).point)
    requires IsOpen(input, OnResult(input, f, payload), graph)
    ensures var g := OnResult(input, f, payload);
            && FrameOk(input, g) && IsOpen(input, f, graph)
            && Rest(input, graph, f.point) == Letter(g) + Rest(input, graph, g.point)
  {
  }

  lemma AdvanceOk(input: WorkflowInput, f: Frame, payload: Payload, kinds: seq<Kind>)
    requires Normal(f.point) && FrameOk(input, f) && KindsOk(input, f, kinds)
    requires Normal(OnResult(input, f, payload).point)
    ensures var g := OnResult(input, f, payload);
            FrameOk(input, g) && KindsOk(input, g, kinds + Letter(g))
  {
    var g := OnResult(input, f, payload);
    NextLetter(input, f, payload, Graph(g));
    forall graph | IsOpen(input, g, graph)
      ensures kinds + Letter(g) + Rest(input, graph, g.point) == WordOf(input, graph)
    {
      AdvanceOn(input, f, payload, kinds, graph);
    }
  }

  lemma AdvanceOn(input: WorkflowInput, f: Frame, payload: Payload, kinds: seq<Kind>, graph: bool)
    requires Normal(f.point) && FrameOk(input, f) && KindsOk(input, f, kinds)
    requires Normal(OnResult(input, f, payload).point) && IsOpen(input, OnResult(input, f, payload), graph)
    ensures var g := OnResult(input, f, payload);
            kinds + Letter(g) + Rest(input, graph, g.point) == WordOf(input, graph)
  {
    var g := OnResult(input, f, payload);
    NextLetter(input, f, payload, graph);
    Associates(kinds, Letter(g), Rest(input, graph, g.point));
  }

  lemma PrefixIs(a: seq<Kind>, b: seq<Kind>)
    ensures a <= a + b && (a + b)[..|a|] == a
  {
  }

  lemma FailureOk(input: WorkflowInput, f: Frame, error: string, kinds: seq<Kind>)
    requires Normal(f.point) && FrameOk(input, f) && KindsOk(input, f, kinds)
    ensures var g := f.(point := AtMarkFailed(error));
            FrameOk(input, g) && KindsOk(input, g, kinds + Letter(g))
  {
    assert IsOpen(input, f, Graph(f));
    PrefixIs(kinds, Rest(input, Graph(f), f.point));
    assert Begun(input, Graph(f), kinds);
  }

  lemma EndOk(input: WorkflowInput, f: Frame, outcome: Outcome, kinds: seq<Kind>)
    requires Pending(f).Some? && FrameOk(input, f) && KindsOk(input, f, kinds)
    requires Pending(Resume(input, f, outcome)).None?
    ensures var g := Resume(input, f, outcome);
            FrameOk(input, g) && KindsOk(input, g, kinds + Letter(g))
  {
    assert kinds + [] == kinds;
  }

  lemma ResumeOk(input: WorkflowInput, f: Frame, outcome: Outcome, kinds: seq<Kind>)
    requires Pending(f).Some? && FrameOk(input, f) && KindsOk(input, f, kinds)
    ensures var g := Resume(input, f, outcome);
            FrameOk(input, g) && KindsOk(input, g, kinds + Letter(g))
  {
    var g := Resume(input, f, outcome);
    if Pending(g).None? {
      EndOk(input, f, outcome, kinds);
    } else if g.point.AtMarkFailed? {
      FailureOk(input, f, g.point.error, kinds);
    } else {
      AdvanceOk(input, f, outcome.payload, kinds);
    }
  }

  lemma ScheduledGrows(input: WorkflowInput, history: seq<Outcome>)
    requires history != []
    ensures Kinds(Scheduled(input, history))
         == Kinds(Scheduled(input, history[..|history| - 1])) + Letter(Replay(input, history))
  {
  }

  lemma {:induction false} ScheduleInv(input: WorkflowInput, history: seq<Outcome>)
    requires IsHistory(input, history)
    ensures FrameOk(input, Replay(input, history))
    ensures KindsOk(input, Replay(input, history), Kinds(Scheduled(input, history)))
  {
    if history == [] {
      assert Kinds(Scheduled(input, history)) == [KInitialize];
    } else {
      var shorter := history[..|history| - 1];
      ScheduleInv(input, shorter);
      ResumeOk(input, Replay(input, shorter), history[|history| - 1], Kinds(Scheduled(input, shorter)));
      ScheduledGrows(input, history);
    }
  }

  /** Every schedule is a non-empty prefix of a word, or one followed by mark_failed. */
  lemma SchedulesAreWords(input: WorkflowInput, history: seq<Outcome>)
    requires IsHistory(input, history)
    ensures IsSchedule(input, Kinds(Scheduled(input, history)))
  {
    ScheduleInv(input, history);
    var f := Replay(input, history);
    var kinds := Kinds(Scheduled(input, history));
    if Normal(f.point) {
      assert IsOpen(input, f, Graph(f));
      PrefixIs(kinds, Rest(input, Graph(f), f.point));
      assert Begun(input, Graph(f), kinds);
    } else if f.point.Completed? {
      assert Begun(input, Graph(f), kinds);
    }
  }

  /** `select_engine` is scheduled for automatic routing only. */
  lemma ManualChoiceIsNeverRouted(input: WorkflowInput, history: seq<Outcome>)
    requires IsHistory(input, history) && input.engineRequested != AUTO
    ensures SelectEngine !in Scheduled(input, history)
  {
    SchedulesAreWords(input, history);
    var kinds := Kinds(Scheduled(input, history));
    var graph, begun :| Begun(input, graph, begun) && (kinds == begun || kinds == begun + [KMarkFailed]);
    NoSelectLetter(input, graph);
    forall i | 0 <= i < |kinds|
      ensures Scheduled(input, history)[i] != SelectEngine
    {
      assert kinds[i] == if i < |begun| then WordOf(input, graph)[i] else KMarkFailed;
    }
  }

  lemma NoSelectLetter(input: WorkflowInput, graph: bool)
    requires input.engineRequested != AUTO
    ensures forall i :: 0 <= i < |WordOf(input, graph)| ==> WordOf(input, graph)[i] != KSelect
  {
  }

  // ---- Every word is a schedule ----

  /** A result that the generator accepts at `p`, resolving `auto` as `graph` says. */
  function Accepted(graph: bool, p: Point): Payload {
    match p
    case AtSelect => Selected(if graph then LANGGRAPH else CREWAI, map[])
    case AtLangGraph => GraphReport(None)
    case AtResearcher => Notes([], [])
    case AtAnalyst => Analysed("")
    case AtWriter => Written("")
    case _ => Initialized
  }

  lemma AcceptedAdvances(input: WorkflowInput, graph: bool, f: Frame)
    requires Normal(f.point) && !f.point.AtFinalize? && FrameOk(input, f) && IsOpen(input, f, graph)
    requires CanResolve(input, graph)
    ensures var g := OnResult(input, f, Accepted(graph, f.point));
            Normal(g.point) && IsOpen(input, g, graph)
  {
  }

  /** `history` is one that leaves the generator at `f` with `kinds` scheduled. */
  ghost predicate LeavesAt(input: WorkflowInput, history: seq<Outcome>, f: Frame, kinds: seq<Kind>) {
    IsHistory(input, history) && Replay(input, history) == f && Kinds(Scheduled(input, history)) == kinds
  }

  lemma OneMore(input: WorkflowInput, history: seq<Outcome>, f: Frame, kinds: seq<Kind>, outcome: Outcome, g: Frame)
    requires LeavesAt(input, history, f, kinds) && Pending(f).Some? && g == Resume(input, f, outcome)
    ensures LeavesAt(input, history + [outcome], g, kinds + Letter(g))
  {
    var longer := history + [outcome];
    assert longer[..|longer| - 1] == history;
    ScheduledGrows(input, longer);
  }

  /** An accepted result schedules the next letter of the word. */
  lemma ExtendPrefix(input: WorkflowInput, graph: bool, f: Frame, kinds: seq<Kind>)
    requires Normal(f.point) && FrameOk(input, f) && KindsOk(input, f, kinds)
    requires CanResolve(input, graph) && IsOpen(input, f, graph) && |kinds| < |WordOf(input, graph)|
    ensures var g := OnResult(input, f, Accepted(graph, f.point));
            Normal(g.point) && IsOpen(input, g, graph) && kinds + Letter(g) <= WordOf(input, graph)
  {
    var g := OnResult(input, f, Accepted(graph, f.point));
    assert kinds + Rest(input, graph, f.point) == WordOf(input, graph);
    AcceptedAdvances(input, graph, f);
    AdvanceOn(input, f, Accepted(graph, f.point), kinds, graph);
    PrefixIs(kinds + Letter(g), Rest(input, graph, g.point));
  }

  /** Accepted results lead through the word, letter by letter. */
  lemma {:induction false} PrefixesAreScheduled(input: WorkflowInput, graph: bool, n: nat)
    returns (history: seq<Outcome>, f: Frame, kinds: seq<Kind>)
    requires CanResolve(input, graph) && n < |WordOf(input, graph)|
    ensures LeavesAt(input, history, f, kinds) && Normal(f.point) && IsOpen(input, f, graph)
    ensures FrameOk(input, f) && KindsOk(input, f, kinds)
    ensures |kinds| == n + 1 && kinds <= WordOf(input, graph)
  {
    if n == 0 {
      history, f, kinds := [], FirstFrame(input), [KInitialize];
      assert Kinds(Scheduled(input, [])) == [KInitialize];
      ScheduleInv(input, []);
    } else {
      history, f, kinds := PrefixesAreScheduled(input, graph, n - 1);
      history, f, kinds := NextIsScheduled(input, graph, history, f, kinds);
    }
  }

  lemma NextIsScheduled(input: WorkflowInput, graph: bool, history: seq<Outcome>, f: Frame, kinds: seq<Kind>)
    returns (longer: seq<Outcome>, g: Frame, more: seq<Kind>)
    requires LeavesAt(input, history, f, kinds) && Normal(f.point) && FrameOk(input, f) && KindsOk(input, f, kinds)
    requires CanResolve(input, graph) && IsOpen(input, f, graph) && |kinds| < |WordOf(input, graph)|
    ensures LeavesAt(input, longer, g, more) && Normal(g.point) && IsOpen(input, g, graph)
    ensures FrameOk(input, g) && KindsOk(input, g, more)
    ensures |more| == |kinds| + 1 && more <= WordOf(input, graph)
  {
    var outcome := Done(Accepted(graph, f.point));
    ExtendPrefix(input, graph, f, kinds);
    ResumeOk(input, f, outcome, kinds);
    g := Resume(input, f, outcome);
    OneMore(input, history, f, kinds, outcome, g);
    longer, more := history + [outcome], kinds + Letter(g);
  }

  lemma BegunIsScheduled(input: WorkflowInput, graph: bool, begun: seq<Kind>)
    returns (history: seq<Outcome>, f: Frame)
    requires Begun(input, graph, begun)
    ensures LeavesAt(input, history, f, begun) && Normal(f.point)
  {
    var kinds;
    history, f, kinds := PrefixesAreScheduled(input, graph, |begun| - 1);
    SamePrefix(kinds, begun, WordOf(input, graph));
  }

  lemma FailureIsScheduled(input: WorkflowInput, history: seq<Outcome>, f: Frame, kinds: seq<Kind>, error: string)
    requires LeavesAt(input, history, f, kinds) && Normal(f.point)
    ensures var g := f.(point := AtMarkFailed(error));
            LeavesAt(input, history + [Failed(error)], g, kinds + [KMarkFailed])
  {
    var g := f.(point := AtMarkFailed(error));
    assert Resume(input, f, Failed(error)) == g && Letter(g) == [KMarkFailed];
    OneMore(input, history, f, kinds, Failed(error), g);
  }

  /** The grammar is exact: each of its schedules is that of some history. */
  lemma WordsAreSchedules(input: WorkflowInput, kinds: seq<Kind>) returns (history: seq<Outcome>)
    requires IsSchedule(input, kinds)
    ensures IsHistory(input, history) && Kinds(Scheduled(input, history)) == kinds
  {
    var graph, begun :| Begun(input, graph, begun) && (kinds == begun || kinds == begun + [KMarkFailed]);
    var shorter, f := BegunIsScheduled(input, graph, begun);
    FailureIsScheduled(input, shorter, f, begun, "activity failed");
    history := if kinds == begun then shorter else shorter + [Failed("activity failed")];
  }

  lemma SamePrefix(a: seq<Kind>, b: seq<Kind>, c: seq<Kind>)
    requires a <= c && b <= c && |a| == |b|
    ensures a == b
  {
    assert a == c[..|a|] && b == c[..|b|];
  }

  // ---- Counted attempts ----

  /** How often an activity of each kind may be attempted. */
  function MaxAttempts(kind: Kind): nat {
    match kind
    case KFinalize => 2
    case KMarkFailed => 2
    case _ => 3
  }

  function TotalAttempts(kinds: seq<Kind>): nat {
    if kinds == [] then 0 else MaxAttempts(kinds[0]) + TotalAttempts(kinds[1..])
  }

  lemma {:induction false} TotalOfBoth(a: seq<Kind>, b: seq<Kind>)
    ensures TotalAttempts(a + b) == TotalAttempts(a) + TotalAttempts(b)
  {
    if a == [] {
      assert a + b == b;
    } else {
      assert (a + b)[1..] == a[1..] + b;
      TotalOfBoth(a[1..], b);
    }
  }

  lemma TotalOfOne(kind: Kind)
    ensures TotalAttempts([kind]) == MaxAttempts(kind)
  {
    assert [kind][1..] == [];
  }

  lemma TotalOfRoles(graph: bool)
    ensures TotalAttempts(Roles(graph)) == if graph then 3 else 9
  {
    TotalOfOne(KWriter);
    assert [KAnalyst, KWriter][1..] == [KWriter] && [KResearcher, KAnalyst, KWriter][1..] == [KAnalyst, KWriter];
    TotalOfOne(KLangGraph);
  }

  lemma TotalOfWord(auto: bool, graph: bool, delayed: bool)
    ensures TotalAttempts(Word(auto, graph, delayed)) ==
              3 + (if auto then 3 else 0) + (if graph then 3 else 9) + (if delayed then 3 else 0) + 2
  {
    TotalOfOne(KInitialize);
    TotalOfOne(KSelect);
    TotalOfOne(KDelay);
    TotalOfOne(KFinalize);
    TotalOfRoles(graph);
    TotalOfBoth(When(delayed, [KDelay]), [KFinalize]);
    TotalOfBoth(Roles(graph), Ending(delayed));
    TotalOfBoth(When(auto, [KSelect]), Roles(graph) + Ending(delayed));
    TotalOfBoth([KInitialize], When(auto, [KSelect]) + (Roles(graph) + Ending(delayed)));
  }

  lemma TotalOfBegun(input: WorkflowInput, graph: bool, begun: seq<Kind>)
    requires Begun(input, graph, begun)
    ensures TotalAttempts(begun) <= 20
  {
    var word := WordOf(input, graph);
    TotalOfBoth(begun, word[|begun|..]);
    assert word == begun + word[|begun|..];
    TotalOfWord(input.engineRequested == AUTO, graph, input.delay > 0);
  }

  /** A run makes at most 22 counted attempts. */
  lemma AttemptsAreBounded(input: WorkflowInput, history: seq<Outcome>)
    requires IsHistory(input, history)
    ensures TotalAttempts(Kinds(Scheduled(input, history))) <= 22
  {
    SchedulesAreWords(input, history);
    var kinds := Kinds(Scheduled(input, history));
    var graph, begun :| Begun(input, graph, begun) && (kinds == begun || kinds == begun + [KMarkFailed]);
    TotalOfBegun(input, graph, begun);
    TotalOfBoth(begun, [KMarkFailed]);
    TotalOfOne(KMarkFailed);
  }

  /** The bound is met: routed to CrewAI, delayed, and failing in the last activity. */
  lemma AttemptBoundIsMet(userQuery: string) returns (input: WorkflowInput, history: seq<Outcome>)
    ensures IsHistory(input, history) && TotalAttempts(Kinds(Scheduled(input, history))) == 22
  {
    input := WorkflowInput(userQuery, AUTO, 1);
    var word := WordOf(input, false);
    assert Begun(input, false, word);
    history := WordsAreSchedules(input, word + [KMarkFailed]);
    TotalOfWord(true, false, true);
    TotalOfBoth(word, [KMarkFailed]);
    TotalOfOne(KMarkFailed);
  }

  // ---- Where inputs come from ----

  /** How many outcomes come before the roles: those of initialize, and of the router if it runs. */
  function RolesBegin(input: WorkflowInput): nat {
    if input.engineRequested == AUTO then 2 else 1
  }

  function RolesEnd(input: WorkflowInput, engine: string): nat {
    RolesBegin(input) + if engine == LANGGRAPH then 1 else 3
  }

  function FinalizeAt(input: WorkflowInput, engine: string): nat {
    RolesEnd(input, engine) + if input.delay > 0 then 1 else 0
  }

  predicate AllDone(history: seq<Outcome>) {
    forall i :: 0 <= i < |history| ==> history[i].Done?
  }

  /** The first `n` outcomes are results; for automatic routing the second one is the router's
      decision, otherwise the engine is the requested one and there are no subtasks. */
  predicate RoutedTo(input: WorkflowInput, history: seq<Outcome>, n: nat, engine: string,
                     subtasks: map<string, string>) {
    && |history| == n && AllDone(history)
    && if input.engineRequested == AUTO then n > 1 && history[1] == Done(Selected(engine, subtasks))
       else engine == input.engineRequested && subtasks == map[]
  }

  /** The same, with the subtask that the router gave one role. */
  predicate RoutedRole(input: WorkflowInput, history: seq<Outcome>, n: nat, engine: string, role: string,
                       subtask: Option<string>) {
    && |history| == n && AllDone(history)
    && if input.engineRequested == AUTO then
         && n > 1 && history[1].payload.Selected? && history[1].payload.engine == engine
         && var subtasks := history[1].payload.subtasks;
            (role in subtasks ==> subtask == Some(subtasks[role])) && (role !in subtasks ==> subtask == None)
       else engine == input.engineRequested && subtask == None
  }

  predicate RoutedEngine(input: WorkflowInput, history: seq<Outcome>, n: nat, engine: string) {
    && |history| == n && AllDone(history)
    && if input.engineRequested == AUTO then
         n > 1 && history[1].payload.Selected? && history[1].payload.engine == engine
       else engine == input.engineRequested
  }

  predicate IsNotes(outcome: Outcome, notes: seq<string>) {
    outcome.Done? && outcome.payload.Notes? && outcome.payload.notes == notes
  }

  /** LangGraph's report, or the CrewAI writer's text. */
  predicate IsReport(input: WorkflowInput, history: seq<Outcome>, engine: string, report: Option<string>) {
    && |history| >= RolesEnd(input, engine)
    && var last := history[RolesEnd(input, engine) - 1];
       if engine == LANGGRAPH then last == Done(GraphReport(report))
       else report.Some? && last == Done(Written(report.value))
  }

  /** The results that the workflow can read where it waits for `a`. */
  predicate Readable(a: Activity, p: Payload) {
    match a
    case SelectEngine => p.Selected?
    case RunLangGraph(_) => p.GraphReport?
    case RunResearcher(_, _) => p.Notes?
    case RunAnalyst(_, _, _) => p.Analysed?
    case RunWriter(_, _, _, _) => p.Written?
    case _ => true
  }

  /** The last outcome is the first failure, or the first result that is not readable. */
  ghost predicate FailsLast(input: WorkflowInput, history: seq<Outcome>, error: string) {
    && history != []
    && var before, last := history[..|history| - 1], history[|history| - 1];
       && AllDone(before)
       && var a := Pending(Replay(input, before));
          && a.Some? && !a.value.MarkFailed?
          && if last.Failed? then error == last.error
             else error == INVALID_RESULT && !Readable(a.value, last.payload)
  }

  /** mark_failed has ended, for a failure before it. */
  ghost predicate RaisesLast(input: WorkflowInput, history: seq<Outcome>) {
    history != [] && HasFailed(input, history[..|history| - 1])
  }

  ghost predicate HasFailed(input: WorkflowInput, history: seq<Outcome>) {
    exists error :: FailsLast(input, history, error)
  }

  /** What an activity scheduled after `history` carries: its place in the schedule, the engine,
      its role's subtask, and what the activities before it returned. */
  ghost predicate CarriesRecordedData(input: WorkflowInput, history: seq<Outcome>, a: Activity) {
    var roles := RolesBegin(input);
    match a
    case Initialize => history == []
    case SelectEngine => input.engineRequested == AUTO && |history| == 1 && AllDone(history)
    case RunLangGraph(engine) => RoutedEngine(input, history, roles, engine) && engine == LANGGRAPH
    case RunResearcher(engine, subtask) =>
      RoutedRole(input, history, roles, engine, "researcher", subtask) && engine != LANGGRAPH
    case RunAnalyst(engine, notes, subtask) =>
      && RoutedRole(input, history, roles + 1, engine, "analyst", subtask) && engine != LANGGRAPH
      && IsNotes(history[roles], notes)
    case RunWriter(engine, notes, analysis, subtask) =>
      && RoutedRole(input, history, roles + 2, engine, "writer", subtask) && engine != LANGGRAPH
      && IsNotes(history[roles], notes) && history[roles + 1] == Done(Analysed(analysis))
    case Delay(engine) => input.delay > 0 && RoutedEngine(input, history, RolesEnd(input, engine), engine)
    case Finalize(engine, report) =>
      RoutedEngine(input, history, FinalizeAt(input, engine), engine) && IsReport(input, history, engine, report)
    case MarkFailed(error) => FailsLast(input, history, error)
  }

  /** A history that ends the workflow normally: finalize has returned. */
  ghost predicate Finishes(input: WorkflowInput, history: seq<Outcome>, engine: string) {
    RoutedEngine(input, history, FinalizeAt(input, engine) + 1, engine)
  }

  ghost predicate FrameHolds(input: WorkflowInput, history: seq<Outcome>, f: Frame) {
    var roles := RolesBegin(input);
    match f.point
    case AtInitialize => history == [] && f.engine == input.engineRequested && f.subtasks == map[]
    case AtSelect => input.engineRequested == AUTO && |history| == 1 && AllDone(history)
    case AtLangGraph => RoutedTo(input, history, roles, f.engine, f.subtasks) && f.engine == LANGGRAPH
    case AtResearcher => RoutedTo(input, history, roles, f.engine, f.subtasks) && f.engine != LANGGRAPH
    case AtAnalyst =>
      && RoutedTo(input, history, roles + 1, f.engine, f.subtasks) && f.engine != LANGGRAPH
      && IsNotes(history[roles], f.notes)
    case AtWriter =>
      && RoutedTo(input, history, roles + 2, f.engine, f.subtasks) && f.engine != LANGGRAPH
      && IsNotes(history[roles], f.notes) && history[roles + 1] == Done(Analysed(f.analysis))
    case AtDelay =>
      && input.delay > 0 && RoutedTo(input, history, RolesEnd(input, f.engine), f.engine, f.subtasks)
      && IsReport(input, history, f.engine, f.report)
    case AtFinalize =>
      && RoutedTo(input, history, FinalizeAt(input, f.engine), f.engine, f.subtasks)
      && IsReport(input, history, f.engine, f.report)
    case Completed => RoutedTo(input, history, FinalizeAt(input, f.engine) + 1, f.engine, f.subtasks)
    case AtMarkFailed(error) => FailsLast(input, history, error)
    case Raised => RaisesLast(input, history)
  }

  lemma DoneSoFar(input: WorkflowInput, history: seq<Outcome>, f: Frame)
    requires Normal(f.point) && FrameHolds(input, history, f)
    ensures AllDone(history)
  {
  }

  lemma FailureStep(input: WorkflowInput, history: seq<Outcome>, f: Frame, outcome: Outcome)
    requires f == Replay(input, history) && Normal(f.point) && AllDone(history)
    requires outcome.Done? ==> !Readable(Pending(f).value, outcome.payload)
    ensures FrameHolds(input, history + [outcome], Resume(input, f, outcome))
  {
    var longer := history + [outcome];
    assert longer[..|longer| - 1] == history;
  }

  lemma RaiseStep(input: WorkflowInput, history: seq<Outcome>, f: Frame, outcome: Outcome)
    requires f.point.AtMarkFailed? && FrameHolds(input, history, f)
    ensures FrameHolds(input, history + [outcome], Resume(input, f, outcome))
  {
    var longer := history + [outcome];
    assert longer[..|longer| - 1] == history;
    assert FailsLast(input, history, f.point.error);
  }

  lemma RoutedOn(input: WorkflowInput, history: seq<Outcome>, n: nat, engine: string, subtasks: map<string, string>,
                 payload: Payload)
    requires RoutedTo(input, history, n, engine, subtasks)
    ensures RoutedTo(input, history + [Done(payload)], n + 1, engine, subtasks)
  {
  }

  lemma RoutingStep(input: WorkflowInput, history: seq<Outcome>, f: Frame, payload: Payload)
    requires (f.point.AtInitialize? || f.point.AtSelect?) && FrameHolds(input, history, f)
    requires Readable(Pending(f).value, payload)
    ensures FrameHolds(input, history + [Done(payload)], OnResult(input, f, payload))
  {
  }

  lemma RoleStep(input: WorkflowInput, history: seq<Outcome>, f: Frame, payload: Payload)
    requires f.point.AtLangGraph? || f.point.AtResearcher? || f.point.AtAnalyst? || f.point.AtWriter?
    requires FrameHolds(input, history, f) && Readable(Pending(f).value, payload)
    ensures FrameHolds(input, history + [Done(payload)], OnResult(input, f, payload))
  {
    RoutedOn(input, history, |history|, f.engine, f.subtasks, payload);
  }

  lemma EndingStep(input: WorkflowInput, history: seq<Outcome>, f: Frame, payload: Payload)
    requires (f.point.AtDelay? || f.point.AtFinalize?) && FrameHolds(input, history, f)
    ensures FrameHolds(input, history + [Done(payload)], OnResult(input, f, payload))
  {
    RoutedOn(input, history, |history|, f.engine, f.subtasks, payload);
  }

  lemma FrameStep(input: WorkflowInput, history: seq<Outcome>, f: Frame, outcome: Outcome)
    requires f == Replay(input, history) && Pending(f).Some? && FrameHolds(input, history, f)
    ensures FrameHolds(input, history + [outcome], Resume(input, f, outcome))
  {
    if f.point.AtMarkFailed? {
      RaiseStep(input, history, f, outcome);
    } else {
      DoneSoFar(input, history, f);
      if outcome.Failed? || !Readable(Pending(f).value, outcome.payload) {
        FailureStep(input, history, f, outcome);
      } else if f.point.AtInitialize? || f.point.AtSelect? {
        RoutingStep(input, history, f, outcome.payload);
      } else if f.point.AtDelay? || f.point.AtFinalize? {
        EndingStep(input, history, f, outcome.payload);
      } else {
        RoleStep(input, history, f, outcome.payload);
      }
    }
  }

  lemma {:induction false} ReplayHolds(input: WorkflowInput, history: seq<Outcome>)
    requires IsHistory(input, history)
    ensures FrameHolds(input, history, Replay(input, history))
  {
    if history != [] {
      var n := |history| - 1;
      ReplayHolds(input, history[..n]);
      FrameStep(input, history[..n], Replay(input, history[..n]), history[n]);
      assert history[..n] + [history[n]] == history;
    }
  }

  lemma {:induction false} PendingMeansHistory(input: WorkflowInput, history: seq<Outcome>)
    requires Pending(Replay(input, history)).Some?
    ensures IsHistory(input, history)
  {
    if history != [] {
      PendingMeansHistory(input, history[..|history| - 1]);
    }
  }

  /** Whatever is scheduled carries recorded results, at its place in the schedule: each role the
      subtask that the router gave it, and none for a manual choice; the analyst the
      researcher's notes, the writer those and the analysis, finalize the report, and
      mark_failed the first failure. */
  lemma InputsAreRecordedResults(input: WorkflowInput, history: seq<Outcome>)
    ensures var next := Pending(Replay(input, history));
            next.Some? ==> CarriesRecordedData(input, history, next.value)
  {
    if Pending(Replay(input, history)).Some? {
      PendingMeansHistory(input, history);
      ReplayHolds(input, history);
    }
  }

  lemma CompletedByFinalize(input: WorkflowInput, history: seq<Outcome>)
    requires IsHistory(input, history) && Replay(input, history).point.Completed?
    ensures history != []
    ensures var n := |history| - 1;
            && history[n].Done?
            && Pending(Replay(input, history[..n])).Some? && Pending(Replay(input, history[..n])).value.Finalize?
  {
  }

  /** A workflow that schedules nothing more has either finished, after finalize returned, or
      raised, after mark_failed ended. */
  lemma EndsAfterFinalizeOrFailure(input: WorkflowInput, history: seq<Outcome>)
    requires IsHistory(input, history) && Pending(Replay(input, history)).None?
    ensures var f := Replay(input, history);
            if f.point.Completed? then Finishes(input, history, f.engine)
            else f.point.Raised? && RaisesLast(input, history)
  {
    ReplayHolds(input, history);
  }
}
