/**
 The durable task workflow: a generator that schedules one activity at a time, and is
 replayed from its recorded history after every restart.

 `Replay` runs the generator on a history. What it schedules is compared with a grammar of
 activity kinds that knows nothing of the generator's variables.
 */
module Orchestration {
  import opened Wrappers
  import opened EngineChoices

  /** Delays only matter by being positive or not, so they are counted in whole units. */
  datatype WorkflowInput = WorkflowInput(userQuery: string, engineRequested: string, delay: int)

  datatype Activity =
    | Initialize
    | SelectEngine
    | RunLangGraph(engine: string)
    | RunResearcher(engine: string, subtask: Option<string>)
    | RunAnalyst(engine: string, researchNotes: seq<string>, subtask: Option<string>)
    | RunWriter(engine: string, researchNotes: seq<string>, analysis: string, subtask: Option<string>)
    | Delay(engine: string)
    | Finalize(engine: string, report: Option<string>)
    | MarkFailed(error: string)

  /** What an activity returns. */
  datatype Payload =
    | Initialized
    | Selected(engine: string, subtasks: map<string, string>)
    | GraphReport(graphReport: Option<string>)
    | Notes(notes: seq<string>, sources: seq<string>)
    | Analysed(analysis: string)
    | Written(report: string)
    | Delayed
    | Finalized(finalReport: string)
    | Marked(status: string)

  /** A scheduled activity ends with a result, or with the error of its last attempt. */
  datatype Outcome = Done(payload: Payload) | Failed(error: string)

  datatype Point =
    | AtInitialize | AtSelect | AtLangGraph | AtResearcher | AtAnalyst | AtWriter | AtDelay | AtFinalize
    | AtMarkFailed(error: string)
    | Completed
    | Raised

  const INVALID_RESULT := "invalid activity result"

  /** The generator between two yields: its position and its variables. */
  datatype Frame = Frame(point: Point, engine: string, subtasks: map<string, string>,
                         notes: seq<string>, analysis: string, report: Option<string>)

  function FirstFrame(input: WorkflowInput): Frame {
    Frame(AtInitialize, input.engineRequested, map[], [], "", None)
  }

  /** The activity a generator is waiting for. */
  function Pending(f: Frame): Option<Activity> {
    match f.point
    case AtInitialize => Some(Initialize)
    case AtSelect => Some(SelectEngine)
    case AtLangGraph => Some(RunLangGraph(f.engine))
    case AtResearcher => Some(RunResearcher(f.engine, Get(f.subtasks, "researcher")))
    case AtAnalyst => Some(RunAnalyst(f.engine, f.notes, Get(f.subtasks, "analyst")))
    case AtWriter => Some(RunWriter(f.engine, f.notes, f.analysis, Get(f.subtasks, "writer")))
    case AtDelay => Some(Delay(f.engine))
    case AtFinalize => Some(Finalize(f.engine, f.report))
    case AtMarkFailed(error) => Some(MarkFailed(error))
    case Completed => None
    case Raised => None
  }

  function EnginePoint(engine: string): Point {
    if engine == LANGGRAPH then AtLangGraph else AtResearcher
  }

  function AfterReport(input: WorkflowInput): Point {
    if input.delay > 0 then AtDelay else AtFinalize
  }

  /** A failure inside the `try` goes to mark_failed; a failure of mark_failed is raised. */
  function Resume(input: WorkflowInput, f: Frame, outcome: Outcome): Frame {
    if Pending(f).None? then f
    else if f.point.AtMarkFailed? then f.(point := Raised)
    else
      match outcome
      case Failed(error) => f.(point := AtMarkFailed(error))
      case Done(payload) => OnResult(input, f, payload)
  }

  function OnResult(input: WorkflowInput, f: Frame, payload: Payload): Frame {
    match f.point
    case AtInitialize =>
      f.(engine := input.engineRequested,
         point := if input.engineRequested == AUTO then AtSelect else EnginePoint(input.engineRequested))
    case AtSelect =>
      if payload.Selected?
      then f.(engine := payload.engine, subtasks := payload.subtasks, point := EnginePoint(payload.engine))
      else f.(point := AtMarkFailed(INVALID_RESULT))
    case AtLangGraph =>
      if payload.GraphReport? then f.(report := payload.graphReport, point := AfterReport(input))
      else f.(point := AtMarkFailed(INVALID_RESULT))
    case AtResearcher =>
      if payload.Notes? then f.(notes := payload.notes, point := AtAnalyst)
      else f.(point := AtMarkFailed(INVALID_RESULT))
    case AtAnalyst =>
      if payload.Analysed? then f.(analysis := payload.analysis, point := AtWriter)
      else f.(point := AtMarkFailed(INVALID_RESULT))
    case AtWriter =>
      if payload.Written? then f.(report := Some(payload.report), point := AfterReport(input))
      else f.(point := AtMarkFailed(INVALID_RESULT))
    case AtDelay => f.(point := AtFinalize)
    case AtFinalize => f.(point := Completed)
    case _ => f
  }

  /** The generator after it was sent the outcomes of `history`, one after another. */
  function Replay(input: WorkflowInput, history: seq<Outcome>): Frame {
    if history == [] then FirstFrame(input)
    else Resume(input, Replay(input, history[..|history| - 1]), history[|history| - 1])
  }

  /** The activities that the generator has scheduled by then. */
  function Scheduled(input: WorkflowInput, history: seq<Outcome>): seq<Activity> {
    var pending := Pending(Replay(input, history));
    (if history == [] then [] else Scheduled(input, history[..|history| - 1]))
    + (if pending.Some? then [pending.value] else [])
  }

  /** A history has one outcome for each activity scheduled before its end. */
  predicate IsHistory(input: WorkflowInput, history: seq<Outcome>) {
    history != [] ==>
      && IsHistory(input, history[..|history| - 1])
      && Pending(Replay(input, history[..|history| - 1])).Some?
  }

  /** The generator object. Sending an outcome resumes it until it yields again or ends;
      `yielded` is all that it has yielded. */
  class TaskOrchestration {
    const input: WorkflowInput
    ghost var history: seq<Outcome>
    ghost var yielded: seq<Activity>
    var point: Point
    var resolvedEngine: string
    var subtasks: map<string, string>
    var notes: seq<string>
    var analysis: string
    var report: Option<string>

    function State(): Frame
      reads this
    {
      Frame(point, resolvedEngine, subtasks, notes, analysis, report)
    }

    ghost predicate Valid()
      reads this
    {
      State() == Replay(input, history) && yielded == Scheduled(input, history)
    }

    constructor (input: WorkflowInput)
      ensures Valid() && this.input == input && history == []
    {
      this.input := input;
      yielded := [Initialize];
      history, point, resolvedEngine, subtasks := [], AtInitialize, input.engineRequested, map[];
      notes, analysis, report := [], "", None;
    }

    /** Sends the outcome of the pending activity; returns the next activity, if any. */
    method Send(outcome: Outcome) returns (next: Option<Activity>)
      requires Valid() && Pending(Replay(input, history)).Some?
      modifies this
      ensures Valid() && history == old(history) + [outcome]
      ensures next == Pending(Replay(input, history))
      ensures yielded == old(yielded) + (if next.Some? then [next.value] else [])
    {
      history := history + [outcome];
      assert history[..|history| - 1] == old(history);
      if point.AtMarkFailed? {
        point := Raised;
      } else if outcome.Failed? {
        point := AtMarkFailed(outcome.error);
      } else {
        Receive(outcome.payload);
      }
      next := Pending(State());
      yielded := yielded + (if next.Some? then [next.value] else []);
    }

    /** The assignments that the generator makes on a result. */
    method Receive(payload: Payload)
      modifies this
      ensures history == old(history) && yielded == old(yielded)
      ensures State() == OnResult(input, old(State()), payload)
    {
      match point
      case AtInitialize =>
        resolvedEngine := input.engineRequested;
        point := if resolvedEngine == AUTO then AtSelect else EnginePoint(resolvedEngine);
      case AtSelect =>
        if payload.Selected? {
          resolvedEngine, subtasks := payload.engine, payload.subtasks;
          point := EnginePoint(resolvedEngine);
        } else {
          point := AtMarkFailed(INVALID_RESULT);
        }
      case AtLangGraph =>
        if payload.GraphReport? {
          report, point := payload.graphReport, AfterReport(input);
        } else {
          point := AtMarkFailed(INVALID_RESULT);
        }
      case AtResearcher =>
        if payload.Notes? {
          notes, point := payload.notes, AtAnalyst;
        } else {
          point := AtMarkFailed(INVALID_RESULT);
        }
      case AtAnalyst =>
        if payload.Analysed? {
          analysis, point := payload.analysis, AtWriter;
        } else {
          point := AtMarkFailed(INVALID_RESULT);
        }
      case AtWriter =>
        if payload.Written? {
          report, point := Some(payload.report), AfterReport(input);
        } else {
          point := AtMarkFailed(INVALID_RESULT);
        }
      case AtDelay => point := AtFinalize;
      case AtFinalize => point := Completed;
      case _ =>
    }
  }
}
