/**
 The rows of tool calls: written once per key, whenever a step completes, and again
 whenever a step's stored output is returned.
 */
module ToolCallRows {
  import opened Wrappers
  import opened Keys
  import opened TaskGraph

  datatype Row = Row(call: ToolCall, stepId: Option<string>)

  /** Where calls are persisted: the task, the step, the engine, and the step's row. The hash
      of a call's arguments is a parameter. */
  datatype Place = Place(taskId: string, stepName: string, engineSuffix: string, stepId: Option<string>,
                         argsHash: string -> string)

  function EffectiveStep(call: ToolCall, stepName: string): string {
    if call.stepName.Some? && call.stepName.value != "" then call.stepName.value else stepName
  }

  function KeyAt(at: Place, call: ToolCall): string {
    ToolCallKey(at.taskId, EffectiveStep(call, at.stepName), at.engineSuffix, call.toolName, call.startedAt,
                at.argsHash(call.arguments))
  }

  /** A step persists the calls that are its own, or nobody's. */
  predicate IsRelevant(call: ToolCall, stepName: string) {
    call.stepName.None? || call.stepName.value == stepName
  }

  function Relevant(calls: seq<ToolCall>, stepName: string): seq<ToolCall> {
    if calls == [] then []
    else (if IsRelevant(calls[0], stepName) then [calls[0]] else []) + Relevant(calls[1..], stepName)
  }

  function RecordCall(rows: map<string, Row>, at: Place, call: ToolCall): map<string, Row> {
    if KeyAt(at, call) in rows then rows else rows[KeyAt(at, call) := Row(call, at.stepId)]
  }

  function RecordAll(rows: map<string, Row>, at: Place, calls: seq<ToolCall>): map<string, Row>
    decreases |calls|
  {
    if calls == [] then rows else RecordAll(RecordCall(rows, at, calls[0]), at, calls[1..])
  }

  function Persist(rows: map<string, Row>, at: Place, calls: seq<ToolCall>): map<string, Row> {
    RecordAll(rows, at, Relevant(calls, at.stepName))
  }

  /** The table of tool calls. A session that fails leaves it as it was, and is only logged. */
  class ToolCallTable {
    var rows: map<string, Row>

    constructor ()
      ensures rows == map[]
    {
      rows := map[];
    }

    method RecordToolCall(key: string, row: Row) returns (created: bool)
      modifies this
      ensures created <==> key !in old(rows)
      ensures rows == if created then old(rows)[key := row] else old(rows)
    {
      if key in rows {
        return false;
      }
      rows := rows[key := row];
      return true;
    }

    method PersistMissingToolCalls(at: Place, calls: seq<ToolCall>, commits: bool)
      modifies this
      ensures rows == if commits then Persist(old(rows), at, calls) else old(rows)
    {
      var before := rows;
      var relevant := Relevant(calls, at.stepName);
      for i := 0 to |relevant|
        invariant RecordAll(before, at, relevant) == RecordAll(rows, at, relevant[i..])
      {
        assert relevant[i..][0] == relevant[i] && relevant[i..][1..] == relevant[i + 1..];
        var _ := RecordToolCall(KeyAt(at, relevant[i]), Row(relevant[i], at.stepId));
      }
      if !commits {
        rows := before;
      }
    }
  }

  // ---- Persisting again ----

  predicate Extends(rows: map<string, Row>, more: map<string, Row>) {
    forall key :: key in rows ==> key in more && more[key] == rows[key]
  }

  lemma {:induction false} RecordAllExtends(rows: map<string, Row>, at: Place, calls: seq<ToolCall>)
    ensures Extends(rows, RecordAll(rows, at, calls))
    ensures forall i :: 0 <= i < |calls| ==> KeyAt(at, calls[i]) in RecordAll(rows, at, calls)
    decreases |calls|
  {
    if calls != [] {
      var next := RecordCall(rows, at, calls[0]);
      RecordAllExtends(next, at, calls[1..]);
      assert KeyAt(at, calls[0]) in next;
      forall i | 0 <= i < |calls|
        ensures KeyAt(at, calls[i]) in RecordAll(rows, at, calls)
      {
        if i > 0 {
          assert calls[1..][i - 1] == calls[i];
        }
      }
    }
  }

  lemma {:induction false} RecordAllOfStored(rows: map<string, Row>, at: Place, calls: seq<ToolCall>)
    requires forall i :: 0 <= i < |calls| ==> KeyAt(at, calls[i]) in rows
    ensures RecordAll(rows, at, calls) == rows
    decreases |calls|
  {
    if calls != [] {
      RecordAllOfStored(rows, at, calls[1..]);
    }
  }

  /** Persisting the same calls again changes nothing, at any later time: rows are only added. */
  lemma PersistingAgainIsNoOp(rows: map<string, Row>, at: Place, calls: seq<ToolCall>, later: map<string, Row>)
    requires Extends(Persist(rows, at, calls), later)
    ensures Extends(rows, later) && Persist(later, at, calls) == later
  {
    RecordAllExtends(rows, at, Relevant(calls, at.stepName));
    RecordAllOfStored(later, at, Relevant(calls, at.stepName));
  }

  // ---- Which call a row holds ----

  /** Two calls share a row exactly when they are of one task, engine and tool, started at the
      same time with arguments of one hash, and are of one step: a call's own one if it has
      one, otherwise the step that persists it. */
  lemma CallsShareRowsExactly(at: Place, call: ToolCall, place: Place, other: ToolCall)
    requires |at.taskId| == |place.taskId| == UUID_LENGTH
    requires |at.argsHash(call.arguments)| == |place.argsHash(other.arguments)| == HASH_LENGTH
    requires NoColon(at.stepName) && (call.stepName.Some? ==> NoColon(call.stepName.value))
    requires NoColon(place.stepName) && (other.stepName.Some? ==> NoColon(other.stepName.value))
    requires NoColon(at.engineSuffix) && NoColon(place.engineSuffix)
    requires NoColon(call.toolName) && NoColon(other.toolName)
    ensures var step := if call.stepName in {None, Some("")} then at.stepName else call.stepName.value;
            var otherStep := if other.stepName in {None, Some("")} then place.stepName else other.stepName.value;
            KeyAt(at, call) == KeyAt(place, other) <==>
              && at.taskId == place.taskId && step == otherStep && at.engineSuffix == place.engineSuffix
              && call.toolName == other.toolName && call.startedAt == other.startedAt
              && at.argsHash(call.arguments) == place.argsHash(other.arguments)
  {
    ToolCallKeysAreInjective(
      at.taskId, EffectiveStep(call, at.stepName), at.engineSuffix, call.toolName, call.startedAt,
      at.argsHash(call.arguments),
      place.taskId, EffectiveStep(other, place.stepName), place.engineSuffix, other.toolName, other.startedAt,
      place.argsHash(other.arguments));
  }

  lemma PersistFirst(rows: map<string, Row>, at: Place, calls: seq<ToolCall>)
    requires calls != []
    ensures Persist(rows, at, calls) ==
            Persist(if IsRelevant(calls[0], at.stepName) then RecordCall(rows, at, calls[0]) else rows, at, calls[1..])
  {
    var rest := Relevant(calls[1..], at.stepName);
    if IsRelevant(calls[0], at.stepName) {
      assert Relevant(calls, at.stepName) == [calls[0]] + rest && ([calls[0]] + rest)[1..] == rest;
    } else {
      assert Relevant(calls, at.stepName) == rest;
    }
  }

  lemma PersistExtends(rows: map<string, Row>, at: Place, calls: seq<ToolCall>)
    ensures Extends(rows, Persist(rows, at, calls))
  {
    RecordAllExtends(rows, at, Relevant(calls, at.stepName));
  }

  /** The row of a new key holds the first call with it that is untagged or tagged with the
      persisting step, and that step's row. */
  lemma {:induction false} RowsHoldFirstCalls(rows: map<string, Row>, at: Place, calls: seq<ToolCall>, i: nat)
    requires i < |calls| && calls[i].stepName in {None, Some(at.stepName)} && KeyAt(at, calls[i]) !in rows
    requires forall j :: 0 <= j < i && calls[j].stepName in {None, Some(at.stepName)} ==>
               KeyAt(at, calls[j]) != KeyAt(at, calls[i])
    ensures var key, after := KeyAt(at, calls[i]), Persist(rows, at, calls);
            key in after && after[key].call == calls[i] && after[key].stepId == at.stepId
    decreases |calls|
  {
    var key := KeyAt(at, calls[i]);
    var next := if IsRelevant(calls[0], at.stepName) then RecordCall(rows, at, calls[0]) else rows;
    PersistFirst(rows, at, calls);
    if i == 0 {
      assert key in next && next[key] == Row(calls[0], at.stepId);
      PersistExtends(next, at, calls[1..]);
    } else {
      assert calls[1..][i - 1] == calls[i];
      RowsHoldFirstCalls(next, at, calls[1..], i - 1);
    }
  }

  // ---- The keys that are stored ----

  function KeysOf(at: Place, calls: seq<ToolCall>): set<string> {
    set call <- calls :: KeyAt(at, call)
  }

  lemma {:induction false} RecordAllKeys(rows: map<string, Row>, at: Place, calls: seq<ToolCall>)
    ensures RecordAll(rows, at, calls).Keys == rows.Keys + KeysOf(at, calls)
    decreases |calls|
  {
    if calls != [] {
      RecordAllKeys(RecordCall(rows, at, calls[0]), at, calls[1..]);
      assert calls == [calls[0]] + calls[1..];
      assert KeysOf(at, calls) == {KeyAt(at, calls[0])} + KeysOf(at, calls[1..]);
    }
  }

  lemma {:induction false} RelevantCalls(calls: seq<ToolCall>, stepName: string, call: ToolCall)
    ensures call in Relevant(calls, stepName) <==> call in calls && IsRelevant(call, stepName)
  {
    if calls != [] {
      RelevantCalls(calls[1..], stepName, call);
    }
  }

  // ---- A run of the graph ----

  function StepName(node: Node): string {
    match node
    case Plan => "plan"
    case SelectRoles => "select_roles"
    case Researcher => "researcher"
    case Analyst => "analyst"
    case Writer => "writer"
    case PersistResult => "persist_result"
    case End => ""
  }

  function AfterNode(agents: Agents, registry: set<string>, c: Checkpoint, rows: map<string, Row>, at: Place)
    : map<string, Row>
  {
    Persist(rows, at.(stepName := StepName(c.next)), Advance(agents, registry, c).state.toolCalls)
  }

  /** The table after an uninterrupted run from `c`: each node's callback persists the calls
      of the state that the node leaves. */
  function AfterRun(agents: Agents, registry: set<string>, c: Checkpoint, rows: map<string, Row>, at: Place)
    : map<string, Row>
    decreases Remaining(c.next)
  {
    if c.next == End then rows
    else AfterRun(agents, registry, Advance(agents, registry, c), AfterNode(agents, registry, c, rows, at), at)
  }

  /** Calls of a run carry the name of the step that made them. */
  predicate AreTagged(calls: seq<ToolCall>) {
    forall i :: 0 <= i < |calls| ==> calls[i].stepName.Some? && calls[i].stepName.value != ""
  }

  lemma TaggedKeys(at: Place, stepName: string, calls: seq<ToolCall>)
    requires AreTagged(calls)
    ensures KeysOf(at.(stepName := stepName), calls) == KeysOf(at, calls)
  {
  }

  /** The calls that a node itself makes. */
  function OwnCalls(agents: Agents, node: Node, s: GraphState): seq<ToolCall> {
    match node
    case Researcher => Tagged(agents.research(s.userQuery, Get(s.plan, "researcher")).toolCalls, "researcher")
    case Analyst => Tagged(agents.analyze(s.userQuery, s.researchNotes, Get(s.plan, "analyst")).toolCalls, "analyst")
    case _ => []
  }

  lemma NodeAppendsOwnCalls(agents: Agents, registry: set<string>, node: Node, s: GraphState)
    ensures RunNode(agents, registry, node, s).toolCalls == s.toolCalls + OwnCalls(agents, node, s)
    ensures AreTagged(OwnCalls(agents, node, s))
    ensures forall call :: call in OwnCalls(agents, node, s) ==> IsRelevant(call, StepName(node))
  {
  }

  lemma PersistAddsOwn(rows: map<string, Row>, at: Place, former: seq<ToolCall>, own: seq<ToolCall>, first: set<string>)
    requires AreTagged(former) && AreTagged(own) && rows.Keys == first + KeysOf(at, former)
    requires forall call :: call in own ==> IsRelevant(call, at.stepName)
    ensures Persist(rows, at, former + own).Keys == first + KeysOf(at, former + own)
  {
    var all := former + own;
    RecordAllKeys(rows, at, Relevant(all, at.stepName));
    forall call
      ensures call in Relevant(all, at.stepName) <==> call in all && IsRelevant(call, at.stepName)
    {
      RelevantCalls(all, at.stepName, call);
    }
    assert KeysOf(at, all) == KeysOf(at, former) + KeysOf(at, own);
    assert KeysOf(at, own) <= KeysOf(at, Relevant(all, at.stepName)) <= KeysOf(at, all);
  }

  /** The rows hold exactly the calls of the state, besides those of the start. */
  predicate Stores(rows: map<string, Row>, at: Place, s: GraphState, first: set<string>) {
    AreTagged(s.toolCalls) && rows.Keys == first + KeysOf(at, s.toolCalls)
  }

  lemma NodeStores(agents: Agents, registry: set<string>, c: Checkpoint, rows: map<string, Row>, at: Place,
                   first: set<string>)
    requires Stores(rows, at, c.state, first)
    ensures Stores(AfterNode(agents, registry, c, rows, at), at, Advance(agents, registry, c).state, first)
  {
    var here := at.(stepName := StepName(c.next));
    NodeAppendsOwnCalls(agents, registry, c.next, c.state);
    TaggedKeys(at, here.stepName, c.state.toolCalls);
    TaggedKeys(at, here.stepName, Advance(agents, registry, c).state.toolCalls);
    PersistAddsOwn(rows, here, c.state.toolCalls, OwnCalls(agents, c.next, c.state), first);
  }

  lemma {:induction false} RunStores(agents: Agents, registry: set<string>, c: Checkpoint, rows: map<string, Row>,
                                     at: Place, first: set<string>)
    requires Stores(rows, at, c.state, first)
    ensures Stores(AfterRun(agents, registry, c, rows, at), at, Finish(agents, registry, c), first)
    decreases Remaining(c.next)
  {
    if c.next != End {
      NodeStores(agents, registry, c, rows, at, first);
      RunStores(agents, registry, Advance(agents, registry, c), AfterNode(agents, registry, c, rows, at), at, first);
    }
  }

  /** After an uninterrupted run whose writes all succeed, the rows that the run added are
      exactly those of the tool calls in its final state. */
  lemma RunStoresItsToolCalls(agents: Agents, registry: set<string>, userQuery: string, rows: map<string, Row>,
                              at: Place)
    ensures AfterRun(agents, registry, Start(userQuery), rows, at).Keys
         == rows.Keys + KeysOf(at, FinalState(agents, registry, userQuery).toolCalls)
  {
    assert KeysOf(at, InitialState(userQuery).toolCalls) == {};
    RunStores(agents, registry, Start(userQuery), rows, at, rows.Keys);
    RunComputesFinalState(agents, registry, userQuery);
  }
}
