/**
 The fixed LangGraph graph of a task: plan, select roles, then researcher and analyst if
 they were assigned, then writer and persist-result.

 The agents (an LLM with tools) are functions of what a node hands them; an agent that
 fails is a crash of the run, which `CheckpointRun` covers.
 */
module TaskGraph {
  import opened Sequences
  import opened Wrappers

  datatype Source = Source(title: string, url: string)

  datatype ToolCall = ToolCall(toolName: string, arguments: string, startedAt: string,
                               outcome: string, stepName: Option<string>)

  /** The fields of the working state that a run reads or writes. */
  datatype GraphState = GraphState(
    userQuery: string,
    plan: map<string, string>,
    assignedRoles: seq<string>,
    sources: seq<Source>,
    researchNotes: seq<string>,
    analysis: Option<string>,
    report: Option<string>,
    currentStep: Option<string>,
    toolCalls: seq<ToolCall>,
    errors: seq<string>)

  datatype PlanOutput = PlanOutput(assignedRoles: seq<string>, subtasks: map<string, string>)
  datatype Research = Research(notes: seq<string>, sources: seq<Source>, toolCalls: seq<ToolCall>)
  datatype Analysis = Analysis(analysis: string, toolCalls: seq<ToolCall>)

  datatype Agents = Agents(
    plan: string -> PlanOutput,
    research: (string, Option<string>) -> Research,
    analyze: (string, seq<string>, Option<string>) -> Analysis,
    summarize: (string, seq<string>, Option<string>) -> string)

  datatype Node = Plan | SelectRoles | Researcher | Analyst | Writer | PersistResult | End

  function InitialState(userQuery: string): GraphState {
    GraphState(userQuery, map[], [], [], [], None, None, None, [], [])
  }

  function Known(roles: seq<string>, registry: set<string>): seq<string> {
    if roles == [] then []
    else (if roles[0] in registry then [roles[0]] else []) + Known(roles[1..], registry)
  }

  /** The planner's roles that are registered, with `writer` always among them. */
  function SelectedRoles(roles: seq<string>, registry: set<string>): seq<string> {
    var requested := if Known(roles, registry) == [] then ["writer"] else Known(roles, registry);
    if "writer" in requested then requested else requested + ["writer"]
  }

  function Tagged(calls: seq<ToolCall>, step: string): (tagged: seq<ToolCall>)
    ensures |tagged| == |calls|
    ensures forall i :: 0 <= i < |calls| ==> tagged[i] == calls[i].(stepName := Some(step))
  {
    seq(|calls|, i requires 0 <= i < |calls| => calls[i].(stepName := Some(step)))
  }

  /** What a node does to the state. */
  function RunNode(agents: Agents, registry: set<string>, node: Node, s: GraphState): GraphState {
    match node
    case Plan =>
      var output := agents.plan(s.userQuery);
      s.(plan := output.subtasks, assignedRoles := output.assignedRoles, currentStep := Some("plan"))
    case SelectRoles =>
      s.(assignedRoles := SelectedRoles(s.assignedRoles, registry), currentStep := Some("select_roles"))
    case Researcher =>
      var result := agents.research(s.userQuery, Get(s.plan, "researcher"));
      s.(researchNotes := result.notes, sources := result.sources, currentStep := Some("researcher"),
         toolCalls := s.toolCalls + Tagged(result.toolCalls, "researcher"))
    case Analyst =>
      var result := agents.analyze(s.userQuery, s.researchNotes, Get(s.plan, "analyst"));
      s.(analysis := Some(result.analysis), currentStep := Some("analyst"),
         toolCalls := s.toolCalls + Tagged(result.toolCalls, "analyst"))
    case Writer =>
      s.(report := Some(agents.summarize(s.userQuery, s.researchNotes, s.analysis)), currentStep := Some("writer"))
    case PersistResult => s
    case End => s
  }

  function RouteAfterSelectRoles(s: GraphState): Node {
    if "researcher" in s.assignedRoles then Researcher
    else if "analyst" in s.assignedRoles then Analyst
    else Writer
  }

  function RouteAfterResearcher(s: GraphState): Node {
    if "analyst" in s.assignedRoles then Analyst else Writer
  }

  function NextNode(node: Node, s: GraphState): Node {
    match node
    case Plan => SelectRoles
    case SelectRoles => RouteAfterSelectRoles(s)
    case Researcher => RouteAfterResearcher(s)
    case Analyst => Writer
    case Writer => PersistResult
    case PersistResult => End
    case End => End
  }

  /** A checkpoint: the state, and the node to run next. */
  datatype Checkpoint = Checkpoint(state: GraphState, next: Node)

  function Advance(agents: Agents, registry: set<string>, c: Checkpoint): Checkpoint {
    var s := RunNode(agents, registry, c.next, c.state);
    Checkpoint(s, NextNode(c.next, s))
  }

  /** How many nodes a run may still execute. */
  function Remaining(node: Node): nat {
    match node
    case Plan => 6
    case SelectRoles => 5
    case Researcher => 4
    case Analyst => 3
    case Writer => 2
    case PersistResult => 1
    case End => 0
  }

  function Start(userQuery: string): Checkpoint {
    Checkpoint(InitialState(userQuery), Plan)
  }

  /** The state at the end of an uninterrupted run from `c`. */
  function Finish(agents: Agents, registry: set<string>, c: Checkpoint): GraphState
    decreases Remaining(c.next)
  {
    if c.next == End then c.state else Finish(agents, registry, Advance(agents, registry, c))
  }

  /** The nodes of an uninterrupted run from `c`, in order. */
  function Path(agents: Agents, registry: set<string>, c: Checkpoint): seq<Node>
    decreases Remaining(c.next)
  {
    if c.next == End then [] else [c.next] + Path(agents, registry, Advance(agents, registry, c))
  }

  // ---- What an uninterrupted run computes, without running the graph ----

  function RolesOf(agents: Agents, registry: set<string>, userQuery: string): seq<string> {
    SelectedRoles(agents.plan(userQuery).assignedRoles, registry)
  }

  /** The researcher's output, or an empty one if no researcher is assigned. */
  function ResearchOf(agents: Agents, registry: set<string>, userQuery: string): Research {
    if "researcher" in RolesOf(agents, registry, userQuery)
    then agents.research(userQuery, Get(agents.plan(userQuery).subtasks, "researcher"))
    else Research([], [], [])
  }

  /** The analyst's output on the researcher's notes, if an analyst is assigned. */
  function AnalysisOf(agents: Agents, registry: set<string>, userQuery: string): Option<Analysis> {
    if "analyst" in RolesOf(agents, registry, userQuery)
    then Some(agents.analyze(userQuery, ResearchOf(agents, registry, userQuery).notes,
                             Get(agents.plan(userQuery).subtasks, "analyst")))
    else None
  }

  function TextOf(analysis: Option<Analysis>): Option<string> {
    if analysis.Some? then Some(analysis.value.analysis) else None
  }

  function CallsOf(analysis: Option<Analysis>): seq<ToolCall> {
    if analysis.Some? then analysis.value.toolCalls else []
  }

  function FinalState(agents: Agents, registry: set<string>, userQuery: string): GraphState {
    var research := ResearchOf(agents, registry, userQuery);
    var analysis := AnalysisOf(agents, registry, userQuery);
    GraphState(userQuery, agents.plan(userQuery).subtasks, RolesOf(agents, registry, userQuery),
               research.sources, research.notes, TextOf(analysis),
               Some(agents.summarize(userQuery, research.notes, TextOf(analysis))), Some("writer"),
               Tagged(research.toolCalls, "researcher") + Tagged(CallsOf(analysis), "analyst"), [])
  }

  lemma OneNode(agents: Agents, registry: set<string>, c: Checkpoint)
    requires c.next != End
    ensures Finish(agents, registry, c) == Finish(agents, registry, Advance(agents, registry, c))
    ensures Path(agents, registry, c) == [c.next] + Path(agents, registry, Advance(agents, registry, c))
  {
  }

  /** Each node writes its own fields and its name, appends to the calls, and leaves the rest. */
  lemma NodesWriteTheirOwn(agents: Agents, registry: set<string>, node: Node, s: GraphState)
    ensures var t := RunNode(agents, registry, node, s);
            && t.userQuery == s.userQuery && t.errors == s.errors && s.toolCalls <= t.toolCalls
            && (node != Plan ==> t.plan == s.plan)
            && (node !in {Plan, SelectRoles} ==> t.assignedRoles == s.assignedRoles)
            && (node != Researcher ==> t.researchNotes == s.researchNotes && t.sources == s.sources)
            && (node != Analyst ==> t.analysis == s.analysis) && (node != Writer ==> t.report == s.report)
            && (node !in {Researcher, Analyst} ==> t.toolCalls == s.toolCalls)
            && t.currentStep == match node
                                case Plan => Some("plan")
                                case SelectRoles => Some("select_roles")
                                case Researcher => Some("researcher")
                                case Analyst => Some("analyst")
                                case Writer => Some("writer")
                                case _ => s.currentStep
  {
  }

  lemma FinishFromWriter(agents: Agents, registry: set<string>, s: GraphState)
    ensures Finish(agents, registry, Checkpoint(s, Writer)) == RunNode(agents, registry, Writer, s)
    ensures Path(agents, registry, Checkpoint(s, Writer)) == [Writer, PersistResult]
  {
    var c := Advance(agents, registry, Checkpoint(s, Writer));
    var d := Advance(agents, registry, c);
    assert c == Checkpoint(RunNode(agents, registry, Writer, s), PersistResult) && d.next == End;
    assert Path(agents, registry, d) == [] && Finish(agents, registry, d) == c.state;
    assert Path(agents, registry, c) == [PersistResult] && Finish(agents, registry, c) == c.state;
  }

  lemma FinishFromRoute(agents: Agents, registry: set<string>, s: GraphState)
    ensures var c := Checkpoint(s, RouteAfterResearcher(s));
            var t := if "analyst" in s.assignedRoles then RunNode(agents, registry, Analyst, s) else s;
            && Finish(agents, registry, c) == RunNode(agents, registry, Writer, t)
            && Path(agents, registry, c) == When("analyst" in s.assignedRoles, [Analyst]) + [Writer, PersistResult]
  {
    var c := Checkpoint(s, RouteAfterResearcher(s));
    if "analyst" in s.assignedRoles {
      assert Advance(agents, registry, c) == Checkpoint(RunNode(agents, registry, Analyst, s), Writer);
      FinishFromWriter(agents, registry, RunNode(agents, registry, Analyst, s));
    } else {
      FinishFromWriter(agents, registry, s);
    }
  }

  lemma FinishFromSelection(agents: Agents, registry: set<string>, s: GraphState)
    ensures var c := Checkpoint(s, RouteAfterSelectRoles(s));
            var t := if "researcher" in s.assignedRoles then RunNode(agents, registry, Researcher, s) else s;
            && Finish(agents, registry, c) == Finish(agents, registry, Checkpoint(t, RouteAfterResearcher(t)))
            && Path(agents, registry, c) == When("researcher" in s.assignedRoles, [Researcher])
                                            + Path(agents, registry, Checkpoint(t, RouteAfterResearcher(t)))
  {
    if "researcher" in s.assignedRoles {
      var t := RunNode(agents, registry, Researcher, s);
      assert Advance(agents, registry, Checkpoint(s, Researcher)) == Checkpoint(t, RouteAfterResearcher(t));
    }
  }

  function AfterSelection(agents: Agents, registry: set<string>, userQuery: string): GraphState {
    RunNode(agents, registry, SelectRoles, RunNode(agents, registry, Plan, InitialState(userQuery)))
  }

  lemma FinishFromStart(agents: Agents, registry: set<string>, userQuery: string)
    ensures var s := AfterSelection(agents, registry, userQuery);
            var c := Checkpoint(s, RouteAfterSelectRoles(s));
            && Finish(agents, registry, Start(userQuery)) == Finish(agents, registry, c)
            && Path(agents, registry, Start(userQuery)) == [Plan, SelectRoles] + Path(agents, registry, c)
  {
    var planned := Checkpoint(RunNode(agents, registry, Plan, InitialState(userQuery)), SelectRoles);
    OneNode(agents, registry, Start(userQuery));
    OneNode(agents, registry, planned);
    assert [Plan] + ([SelectRoles] + Path(agents, registry, Advance(agents, registry, planned)))
        == [Plan, SelectRoles] + Path(agents, registry, Advance(agents, registry, planned));
  }

  /** The state that the researcher, if assigned, leaves behind. */
  function AfterResearch(agents: Agents, registry: set<string>, userQuery: string): GraphState {
    var s := AfterSelection(agents, registry, userQuery);
    if "researcher" in s.assignedRoles then RunNode(agents, registry, Researcher, s) else s
  }

  /** An uninterrupted run visits the assigned roles in the fixed order, and always ends with
      the writer. */
  lemma RunVisitsAssignedRoles(agents: Agents, registry: set<string>, userQuery: string)
    ensures var roles := RolesOf(agents, registry, userQuery);
            Path(agents, registry, Start(userQuery)) ==
              [Plan, SelectRoles] + When("researcher" in roles, [Researcher])
              + When("analyst" in roles, [Analyst]) + [Writer, PersistResult]
  {
    FinishFromStart(agents, registry, userQuery);
    FinishFromSelection(agents, registry, AfterSelection(agents, registry, userQuery));
    FinishFromRoute(agents, registry, AfterResearch(agents, registry, userQuery));
    var roles := RolesOf(agents, registry, userQuery);
    var research, analysis := When("researcher" in roles, [Researcher]), When("analyst" in roles, [Analyst]);
    Associates([Plan, SelectRoles], research, analysis + [Writer, PersistResult]);
    Associates([Plan, SelectRoles] + research, analysis, [Writer, PersistResult]);
  }

  /** An uninterrupted run computes the final state given above. */
  lemma RunComputesFinalState(agents: Agents, registry: set<string>, userQuery: string)
    ensures Finish(agents, registry, Start(userQuery)) == FinalState(agents, registry, userQuery)
  {
    FinishFromStart(agents, registry, userQuery);
    FinishFromSelection(agents, registry, AfterSelection(agents, registry, userQuery));
    FinishFromRoute(agents, registry, AfterResearch(agents, registry, userQuery));
    AfterResearchIs(agents, registry, userQuery);
  }

  lemma AfterResearchIs(agents: Agents, registry: set<string>, userQuery: string)
    ensures var s := AfterResearch(agents, registry, userQuery);
            var research := ResearchOf(agents, registry, userQuery);
            s == GraphState(userQuery, agents.plan(userQuery).subtasks, RolesOf(agents, registry, userQuery),
                            research.sources, research.notes, None, None, s.currentStep,
                            Tagged(research.toolCalls, "researcher"), [])
  {
    var s := AfterSelection(agents, registry, userQuery);
    assert s.toolCalls + Tagged(ResearchOf(agents, registry, userQuery).toolCalls, "researcher")
        == Tagged(ResearchOf(agents, registry, userQuery).toolCalls, "researcher");
  }

  lemma {:induction false} KnownRoles(roles: seq<string>, registry: set<string>, role: string)
    ensures role in Known(roles, registry) <==> role in roles && role in registry
  {
    if roles != [] {
      KnownRoles(roles[1..], registry, role);
    }
  }

  /** Role selection keeps exactly the registered roles that were asked for, and adds the
      writer; with a registry that has the writer, selecting again changes nothing. */
  lemma RoleSelectionKeepsRegistered(roles: seq<string>, registry: set<string>, role: string)
    ensures role in SelectedRoles(roles, registry) <==> role == "writer" || (role in roles && role in registry)
  {
    KnownRoles(roles, registry, role);
    KnownRoles(roles, registry, "writer");
  }

  lemma RoleSelectionIsIdempotent(roles: seq<string>, registry: set<string>)
    requires "writer" in registry
    ensures SelectedRoles(SelectedRoles(roles, registry), registry) == SelectedRoles(roles, registry)
  {
    KnownOfKnown(roles, registry);
    KnownAppend(Known(roles, registry), registry);
    KnownAppend([], registry);
    assert Known(["writer"], registry) == ["writer"] by {
      assert ["writer"] == [] + ["writer"];
    }
  }

  lemma {:induction false} KnownOfKnown(roles: seq<string>, registry: set<string>)
    ensures Known(Known(roles, registry), registry) == Known(roles, registry)
  {
    if roles != [] {
      var tail := Known(roles[1..], registry);
      KnownOfKnown(roles[1..], registry);
      if roles[0] in registry {
        assert Known(roles, registry) == [roles[0]] + tail && Known(roles, registry)[1..] == tail;
      } else {
        assert Known(roles, registry) == tail;
      }
    }
  }

  lemma {:induction false} KnownAppend(roles: seq<string>, registry: set<string>)
    requires "writer" in registry
    ensures Known(roles + ["writer"], registry) == Known(roles, registry) + ["writer"]
  {
    if roles != [] {
      assert (roles + ["writer"])[1..] == roles[1..] + ["writer"];
      KnownAppend(roles[1..], registry);
    } else {
      assert (roles + ["writer"])[1..] == [];
    }
  }
}
