/**
 The runtime state of tasks: a map per task in a key-value store, changed by merging patches.

 Within one process, a merge holds its task's lock while it reads the map and writes it
 back; the store's get and save are separate steps, and either may fail; a save may also take effect
 and then raise. A report of token usage reads the map before it takes the lock, and then
 merges the new sum. The state at the start is arbitrary: a task's creation writes it before
 any merge begins.
 */
module RuntimeState {
  import opened Wrappers
  import opened TokenUsage

  datatype Value = Other(json: string) | Tokens(report: Report)

  type Patch = map<string, Value>

  const TOKEN_USAGE := "token_usage"

  /** A call whose save took effect is `Saved`; if the save raised nevertheless, it is not
      `acknowledged`, and the call raises. */
  datatype Phase = Peeking | Waiting | Holding | Loaded(found: Patch) | Saved(acknowledged: bool) | Ended

  /** A call of a task, with the usage that it reports, if it is a report. `start` is the
      number of saves there were when it read the usage. */
  datatype Call = Call(task: string, patch: Patch, reported: Option<Usage>, start: nat, phase: Phase)

  /** `granted` lists, per task, the calls that were given its lock, in order; `saves` lists
      the calls of all tasks in the order of their saves. */
  datatype System = System(store: map<string, Patch>, calls: map<nat, Call>, locks: map<string, nat>,
                           granted: map<string, seq<nat>>, saves: seq<nat>)

  datatype Step =
    | StartMerge(id: nat, task: string, patch: Patch)
    | StartReport(id: nat, task: string, usage: Usage)
    | Peek(id: nat)
    | Acquire(id: nat)
    | Get(id: nat)
    | Save(id: nat, acknowledged: bool)
    | Fail(id: nat)

  function Stored(s: System, task: string): Patch {
    if task in s.store then s.store[task] else map[]
  }

  function Granted(s: System, task: string): seq<nat> {
    if task in s.granted then s.granted[task] else []
  }

  function UsageIn(snapshot: Patch): Usage {
    if TOKEN_USAGE in snapshot && snapshot[TOKEN_USAGE].Tokens? then snapshot[TOKEN_USAGE].report.usage else NOTHING
  }

  function UsagePatch(snapshot: Patch, usage: Usage): Patch {
    map[TOKEN_USAGE := Tokens(MergeTokenUsage(UsageIn(snapshot), usage))]
  }

  predicate Holds(c: Call) {
    c.phase.Holding? || c.phase.Loaded?
  }

  predicate Enabled(s: System, step: Step) {
    match step
    case StartMerge(id, _, _) => id !in s.calls
    case StartReport(id, _, usage) => id !in s.calls && usage != NOTHING
    case Peek(id) => id in s.calls && s.calls[id].phase.Peeking?
    case Acquire(id) => id in s.calls && s.calls[id].phase.Waiting? && s.calls[id].task !in s.locks
    case Get(id) => id in s.calls && s.calls[id].phase.Holding?
    case Save(id, _) => id in s.calls && s.calls[id].phase.Loaded?
    case Fail(id) => id in s.calls && !s.calls[id].phase.Saved? && !s.calls[id].phase.Ended?
  }

  function SetPhase(s: System, id: nat, phase: Phase): map<nat, Call>
    requires id in s.calls
  {
    s.calls[id := s.calls[id].(phase := phase)]
  }

  function Apply(s: System, step: Step): System
    requires Enabled(s, step)
  {
    match step
    case StartMerge(id, task, patch) => s.(calls := s.calls[id := Call(task, patch, None, 0, Waiting)])
    case StartReport(id, task, usage) => s.(calls := s.calls[id := Call(task, map[], Some(usage), 0, Peeking)])
    case Peek(id) =>
      var c := s.calls[id];
      var patch := if c.reported.Some? then UsagePatch(Stored(s, c.task), c.reported.value) else c.patch;
      s.(calls := s.calls[id := c.(patch := patch, start := |s.saves|, phase := Waiting)])
    case Acquire(id) =>
      var task := s.calls[id].task;
      s.(calls := SetPhase(s, id, Holding), locks := s.locks[task := id],
         granted := s.granted[task := Granted(s, task) + [id]])
    case Get(id) => s.(calls := SetPhase(s, id, Loaded(Stored(s, s.calls[id].task))))
    case Save(id, acknowledged) =>
      var c := s.calls[id];
      s.(store := s.store[c.task := c.phase.found + c.patch], calls := SetPhase(s, id, Saved(acknowledged)),
         locks := s.locks - {c.task}, saves := s.saves + [id])
    case Fail(id) =>
      var c := s.calls[id];
      s.(calls := SetPhase(s, id, Ended), locks := if Holds(c) then s.locks - {c.task} else s.locks)
  }

  predicate Init(s: System) {
    s.calls == map[] && s.locks == map[] && s.granted == map[] && s.saves == []
  }

  ghost predicate Leads(s: System, steps: seq<Step>, t: System)
    decreases |steps|
  {
    if steps == [] then s == t
    else Enabled(s, steps[0]) && Leads(Apply(s, steps[0]), steps[1..], t)
  }

  // ---- Merging one after another ----

  predicate HasSaved(calls: map<nat, Call>, id: nat) {
    id in calls && calls[id].phase.Saved?
  }

  /** The patches of the calls in `order` that were saved. */
  function Patches(calls: map<nat, Call>, order: seq<nat>): seq<Patch> {
    if order == [] then []
    else
      var last := order[|order| - 1];
      Patches(calls, order[..|order| - 1]) + (if HasSaved(calls, last) then [calls[last].patch] else [])
  }

  function MergeAll(base: Patch, patches: seq<Patch>): Patch {
    if patches == [] then base else MergeAll(base, patches[..|patches| - 1]) + patches[|patches| - 1]
  }

  lemma MergeAllSnoc(base: Patch, patches: seq<Patch>, p: Patch)
    ensures MergeAll(base, patches + [p]) == MergeAll(base, patches) + p
  {
    assert (patches + [p])[..|patches|] == patches;
  }

  // ---- The invariant of the lock ----

  ghost predicate CallOk(s: System, id: nat)
    requires id in s.calls
  {
    var c := s.calls[id];
    && (Holds(c) ==> c.task in s.locks && s.locks[c.task] == id)
    && (c.phase.Loaded? ==> c.phase.found == Stored(s, c.task))
  }

  ghost predicate LockOk(s: System, task: string)
    requires task in s.locks
  {
    var id := s.locks[task];
    && id in s.calls && s.calls[id].task == task && Holds(s.calls[id])
    && Granted(s, task) != [] && Granted(s, task)[|Granted(s, task)| - 1] == id
  }

  predicate WasGranted(s: System, id: nat, task: string) {
    id in s.calls && s.calls[id].task == task && !s.calls[id].phase.Peeking? && !s.calls[id].phase.Waiting?
  }

  ghost predicate GrantedOk(s: System, task: string) {
    var order := Granted(s, task);
    && (forall i :: 0 <= i < |order| ==> WasGranted(s, order[i], task))
    && (forall i, j :: 0 <= i < j < |order| ==> order[i] != order[j])
  }

  /** A call that has the lock, or has saved, was given the lock. */
  ghost predicate IsGranted(s: System, id: nat)
    requires id in s.calls
  {
    Holds(s.calls[id]) || s.calls[id].phase.Saved? ==> id in Granted(s, s.calls[id].task)
  }

  ghost predicate Inv(base: System, s: System) {
    && (forall id :: id in s.calls ==> CallOk(s, id))
    && (forall id :: id in s.calls ==> IsGranted(s, id))
    && (forall task :: task in s.locks ==> LockOk(s, task))
    && (forall task :: GrantedOk(s, task))
    && (forall task :: StoreOk(base, s, task))
  }

  ghost predicate StoreOk(base: System, s: System, task: string) {
    Stored(s, task) == MergeAll(Stored(base, task), Patches(s.calls, Granted(s, task)))
  }

  predicate SavedAlike(calls: map<nat, Call>, others: map<nat, Call>, id: nat) {
    HasSaved(calls, id) == HasSaved(others, id) && (HasSaved(calls, id) ==> calls[id].patch == others[id].patch)
  }

  lemma PatchesSnoc(calls: map<nat, Call>, order: seq<nat>, id: nat)
    ensures Patches(calls, order + [id])
         == Patches(calls, order) + (if HasSaved(calls, id) then [calls[id].patch] else [])
  {
    assert (order + [id])[..|order|] == order;
  }

  lemma {:induction false} PatchesDependOnSaved(calls: map<nat, Call>, others: map<nat, Call>, order: seq<nat>)
    requires forall i :: 0 <= i < |order| ==> SavedAlike(calls, others, order[i])
    ensures Patches(calls, order) == Patches(others, order)
    decreases |order|
  {
    if order != [] {
      PatchesDependOnSaved(calls, others, order[..|order| - 1]);
    }
  }

  lemma StepGranted(base: System, s: System, step: Step, task: string)
    requires Inv(base, s) && Enabled(s, step)
    ensures GrantedOk(Apply(s, step), task)
  {
    assert GrantedOk(s, task);
  }

  /** Saving appends the call's patch: it is the last call that was given the lock, and what
      it read is still stored. */
  lemma SaveStore(base: System, s: System, id: nat, acknowledged: bool)
    requires Inv(base, s) && Enabled(s, Save(id, acknowledged))
    ensures StoreOk(base, Apply(s, Save(id, acknowledged)), s.calls[id].task)
  {
    var c, t := s.calls[id], Apply(s, Save(id, acknowledged));
    var order := Granted(s, c.task);
    assert CallOk(s, id) && LockOk(s, c.task) && StoreOk(base, s, c.task);
    SavePatches(base, s, id, acknowledged);
    MergeAllSnoc(Stored(base, c.task), Patches(s.calls, order), c.patch);
  }

  /** The call that saves is the last one that was given its task's lock. */
  lemma SaverIsLast(base: System, s: System, id: nat, acknowledged: bool) returns (before: seq<nat>)
    requires Inv(base, s) && Enabled(s, Save(id, acknowledged))
    ensures Granted(s, s.calls[id].task) == before + [id] && id !in before
  {
    var order := Granted(s, s.calls[id].task);
    assert CallOk(s, id) && LockOk(s, s.calls[id].task) && GrantedOk(s, s.calls[id].task);
    before := order[..|order| - 1];
  }

  lemma SavePatches(base: System, s: System, id: nat, acknowledged: bool)
    requires Inv(base, s) && Enabled(s, Save(id, acknowledged))
    ensures var order := Granted(s, s.calls[id].task);
            Patches(SetPhase(s, id, Saved(acknowledged)), order) == Patches(s.calls, order) + [s.calls[id].patch]
  {
    var before := SaverIsLast(base, s, id, acknowledged);
    PatchesDependOnSaved(s.calls, SetPhase(s, id, Saved(acknowledged)), before);
    PatchesSnoc(s.calls, before, id);
    PatchesSnoc(SetPhase(s, id, Saved(acknowledged)), before, id);
  }

  /** Other steps save nothing of the task. */
  lemma QuietPatches(base: System, s: System, step: Step, task: string)
    requires Inv(base, s) && Enabled(s, step)
    requires step.Save? ==> s.calls[step.id].task != task
    ensures Patches(Apply(s, step).calls, Granted(s, task)) == Patches(s.calls, Granted(s, task))
  {
    var t, order := Apply(s, step), Granted(s, task);
    assert GrantedOk(s, task);
    forall i | 0 <= i < |order|
      ensures SavedAlike(s.calls, t.calls, order[i])
    {
      assert WasGranted(s, order[i], task);
    }
    PatchesDependOnSaved(s.calls, t.calls, order);
  }

  lemma QuietStore(base: System, s: System, step: Step, task: string)
    requires Inv(base, s) && Enabled(s, step)
    requires step.Save? ==> s.calls[step.id].task != task
    ensures StoreOk(base, Apply(s, step), task)
  {
    var t := Apply(s, step);
    assert StoreOk(base, s, task) && Stored(t, task) == Stored(s, task);
    QuietPatches(base, s, step, task);
    if step.Acquire? && s.calls[step.id].task == task {
      PatchesSnoc(t.calls, Granted(s, task), step.id);
      assert Patches(t.calls, Granted(t, task)) == Patches(t.calls, Granted(s, task));
    } else {
      assert Granted(t, task) == Granted(s, task);
    }
  }

  lemma CallStays(base: System, s: System, step: Step, id: nat)
    requires Inv(base, s) && Enabled(s, step) && id in Apply(s, step).calls
    ensures CallOk(Apply(s, step), id)
  {
    if step.Save? || step.Fail? {
      OthersStay(base, s, step, id);
    } else {
      assert id in s.calls ==> CallOk(s, id);
    }
  }

  /** The call that gives the lock back is the only one that had it. */
  lemma OthersStay(base: System, s: System, step: Step, id: nat)
    requires Inv(base, s) && Enabled(s, step) && (step.Save? || step.Fail?) && id in s.calls
    ensures CallOk(Apply(s, step), id)
  {
    assert CallOk(s, id) && CallOk(s, step.id);
  }

  lemma GrantStays(s: System, step: Step, id: nat)
    requires Enabled(s, step) && id in Apply(s, step).calls
    requires id in s.calls ==> IsGranted(s, id)
    ensures IsGranted(Apply(s, step), id)
  {
  }

  lemma LockStays(base: System, s: System, step: Step, task: string)
    requires Inv(base, s) && Enabled(s, step) && task in Apply(s, step).locks
    ensures LockOk(Apply(s, step), task)
  {
    assert task in s.locks ==> LockOk(s, task);
    if step.Save? || step.Fail? {
      assert CallOk(s, step.id);
    }
  }

  lemma StepInv(base: System, s: System, step: Step)
    requires Inv(base, s) && Enabled(s, step)
    ensures Inv(base, Apply(s, step))
  {
    var t := Apply(s, step);
    forall id | id in t.calls
      ensures CallOk(t, id) && IsGranted(t, id)
    {
      CallStays(base, s, step, id);
      GrantStays(s, step, id);
    }
    forall task | task in t.locks
      ensures LockOk(t, task)
    {
      LockStays(base, s, step, task);
    }
    forall task
      ensures GrantedOk(t, task) && StoreOk(base, t, task)
    {
      StepGranted(base, s, step, task);
      if step.Save? && s.calls[step.id].task == task {
        SaveStore(base, s, step.id, step.acknowledged);
      } else {
        QuietStore(base, s, step, task);
      }
    }
  }

  lemma InitInv(s: System)
    requires Init(s)
    ensures Inv(s, s)
  {
  }

  lemma {:induction false} RunInv(base: System, s: System, steps: seq<Step>, t: System)
    requires Inv(base, s) && Leads(s, steps, t)
    ensures Inv(base, t)
    decreases |steps|
  {
    if steps != [] {
      StepInv(base, s, steps[0]);
      RunInv(base, Apply(s, steps[0]), steps[1..], t);
    }
  }

  // ---- What holds in every run ----

  /** However merges and reports interleave, a task's state is what merging the patches whose
      saves took effect one after another, in the order of the lock, makes of the state at the
      start; every call whose save took effect is among them, whether or not it raised. */
  lemma MergesFoldInLockOrder(first: System, steps: seq<Step>, s: System, task: string)
    requires Init(first) && Leads(first, steps, s)
    ensures Stored(s, task) == MergeAll(Stored(first, task), Patches(s.calls, Granted(s, task)))
    ensures forall id :: HasSaved(s.calls, id) && s.calls[id].task == task ==> id in Granted(s, task)
  {
    InitInv(first);
    RunInv(first, first, steps, s);
    assert StoreOk(first, s, task);
    assert forall id :: HasSaved(s.calls, id) ==> IsGranted(s, id);
  }

  lemma StepKeepsKeys(base: System, s: System, step: Step, task: string)
    requires Inv(base, s) && Enabled(s, step)
    ensures Stored(s, task).Keys <= Stored(Apply(s, step), task).Keys
  {
    if step.Save? {
      assert CallOk(s, step.id);
    }
  }

  lemma {:induction false} KeysStay(base: System, s: System, steps: seq<Step>, t: System, task: string)
    requires Inv(base, s) && Leads(s, steps, t)
    ensures Stored(s, task).Keys <= Stored(t, task).Keys
    decreases |steps|
  {
    if steps != [] {
      StepKeepsKeys(base, s, steps[0], task);
      StepInv(base, s, steps[0]);
      KeysStay(base, Apply(s, steps[0]), steps[1..], t, task);
    }
  }

  /** No key is ever dropped, and the keys of a saved patch are there. */
  lemma NoKeyIsDropped(first: System, steps: seq<Step>, s: System, more: seq<Step>, t: System, task: string)
    requires Init(first) && Leads(first, steps, s) && Leads(s, more, t)
    ensures Stored(s, task).Keys <= Stored(t, task).Keys
    ensures forall i :: 0 <= i < |Granted(s, task)| && HasSaved(s.calls, Granted(s, task)[i]) ==>
              s.calls[Granted(s, task)[i]].patch.Keys <= Stored(t, task).Keys
  {
    InitInv(first);
    RunInv(first, first, steps, s);
    KeysStay(first, s, more, t, task);
    forall i | 0 <= i < |Granted(s, task)| && HasSaved(s.calls, Granted(s, task)[i])
      ensures s.calls[Granted(s, task)[i]].patch.Keys <= Stored(t, task).Keys
    {
      SavedPatchIsListed(s.calls, Granted(s, task), i);
      var patches := Patches(s.calls, Granted(s, task));
      var k :| 0 <= k < |patches| && patches[k] == s.calls[Granted(s, task)[i]].patch;
      MergedKeys(Stored(first, task), patches, k);
      assert StoreOk(first, s, task);
    }
  }

  lemma {:induction false} SavedPatchIsListed(calls: map<nat, Call>, order: seq<nat>, i: nat)
    requires i < |order| && HasSaved(calls, order[i])
    ensures calls[order[i]].patch in Patches(calls, order)
    decreases |order|
  {
    var n := |order| - 1;
    if i < n {
      SavedPatchIsListed(calls, order[..n], i);
    }
  }

  lemma {:induction false} MergedKeys(base: Patch, patches: seq<Patch>, k: nat)
    requires k < |patches|
    ensures patches[k].Keys <= MergeAll(base, patches).Keys
    decreases |patches|
  {
    var n := |patches| - 1;
    if k < n {
      MergedKeys(base, patches[..n], k);
    }
  }

  // ---- The order of patches ----

  /** Patches with no key in common, or with the same value for it. */
  ghost predicate Compatible(patches: seq<Patch>) {
    forall i, j, key :: 0 <= i < |patches| && 0 <= j < |patches| && key in patches[i] && key in patches[j] ==>
      patches[i][key] == patches[j][key]
  }

  /** A merged key has the value of the last patch that has it. */
  lemma {:induction false} MergedValue(base: Patch, patches: seq<Patch>, k: nat, key: string)
    requires k < |patches| && key in patches[k]
    requires forall j :: k < j < |patches| ==> key !in patches[j]
    ensures key in MergeAll(base, patches) && MergeAll(base, patches)[key] == patches[k][key]
    decreases |patches|
  {
    var n := |patches| - 1;
    if k < n {
      MergedValue(base, patches[..n], k, key);
    }
  }

  lemma {:induction false} UntouchedKey(base: Patch, patches: seq<Patch>, key: string)
    requires forall j :: 0 <= j < |patches| ==> key !in patches[j]
    ensures key in MergeAll(base, patches) <==> key in base
    ensures key in base ==> MergeAll(base, patches)[key] == base[key]
    decreases |patches|
  {
    if patches != [] {
      UntouchedKey(base, patches[..|patches| - 1], key);
    }
  }

  lemma {:induction false} LastWith(patches: seq<Patch>, key: string) returns (k: nat)
    requires exists i :: 0 <= i < |patches| && key in patches[i]
    ensures k < |patches| && key in patches[k] && forall j :: k < j < |patches| ==> key !in patches[j]
    decreases |patches|
  {
    var n := |patches| - 1;
    if key in patches[n] {
      k := n;
    } else {
      var i :| 0 <= i < |patches| && key in patches[i];
      assert patches[..n][i] == patches[i];
      k := LastWith(patches[..n], key);
    }
  }

  lemma SameKey(base: Patch, patches: seq<Patch>, others: seq<Patch>, key: string)
    requires Compatible(patches) && (forall p :: p in others ==> p in patches)
    requires key in MergeAll(base, others)
    requires (exists i :: 0 <= i < |patches| && key in patches[i]) ==> exists j :: 0 <= j < |others| && key in others[j]
    ensures key in MergeAll(base, patches) && MergeAll(base, patches)[key] == MergeAll(base, others)[key]
  {
    if j :| 0 <= j < |others| && key in others[j] {
      var last := LastWith(others, key);
      MergedValue(base, others, last, key);
      assert others[last] in patches;
      var i :| 0 <= i < |patches| && patches[i] == others[last];
      var final := LastWith(patches, key);
      MergedValue(base, patches, final, key);
      assert patches[i][key] == patches[final][key];
    } else {
      UntouchedKey(base, others, key);
      UntouchedKey(base, patches, key);
    }
  }

  lemma CompatibleSubset(patches: seq<Patch>, others: seq<Patch>)
    requires Compatible(patches) && forall p :: p in others ==> p in patches
    ensures Compatible(others)
  {
    forall i, j, key | 0 <= i < |others| && 0 <= j < |others| && key in others[i] && key in others[j]
      ensures others[i][key] == others[j][key]
    {
      assert others[i] in patches && others[j] in patches;
      var x :| 0 <= x < |patches| && patches[x] == others[i];
      var y :| 0 <= y < |patches| && patches[y] == others[j];
    }
  }

  lemma TouchedAlike(patches: seq<Patch>, others: seq<Patch>, key: string)
    requires forall p :: p in others ==> p in patches
    requires exists j :: 0 <= j < |others| && key in others[j]
    ensures exists i :: 0 <= i < |patches| && key in patches[i]
  {
    var j :| 0 <= j < |others| && key in others[j];
    assert others[j] in patches;
    var i :| 0 <= i < |patches| && patches[i] == others[j];
  }

  /** When no two patches disagree on a key, in particular when their keys are disjoint, the
      order in which they were granted the lock, and repetitions, do not matter. */
  lemma OrderOfCompatiblePatchesIsIrrelevant(base: Patch, patches: seq<Patch>, others: seq<Patch>)
    requires Compatible(patches) && forall p :: p in patches <==> p in others
    ensures MergeAll(base, patches) == MergeAll(base, others)
  {
    CompatibleSubset(patches, others);
    forall key | key in MergeAll(base, others)
      ensures key in MergeAll(base, patches) && MergeAll(base, patches)[key] == MergeAll(base, others)[key]
    {
      if exists i :: 0 <= i < |patches| && key in patches[i] {
        TouchedAlike(others, patches, key);
      }
      SameKey(base, patches, others, key);
    }
    forall key | key in MergeAll(base, patches)
      ensures key in MergeAll(base, others)
    {
      if exists i :: 0 <= i < |others| && key in others[i] {
        TouchedAlike(patches, others, key);
      }
      SameKey(base, others, patches, key);
    }
  }

  // ---- One caller at a time ----

  /** The store as an object. A merge holds the task's lock from its read to its save, so
      that nothing comes between the two. */
  class DaprStateStore {
    var states: map<string, Patch>

    constructor ()
      ensures states == map[]
    {
      states := map[];
    }

    function GetTaskRuntimeState(task: string): Option<Patch>
      reads this
    {
      if task in states then Some(states[task]) else None
    }

    function State(task: string): Patch
      reads this
    {
      if task in states then states[task] else map[]
    }

    method SaveTaskRuntimeState(task: string, snapshot: Patch)
      modifies this
      ensures states == old(states)[task := snapshot]
    {
      states := states[task := snapshot];
    }

    /** The patch's values, and the old values of the other keys. */
    method MergeTaskRuntimeState(task: string, patch: Patch)
      modifies this
      ensures State(task) == old(State(task)) + patch
      ensures forall other :: other != task ==> State(other) == old(State(other))
    {
      var existing := GetTaskRuntimeState(task);
      var merged := (if existing.Some? then existing.value else map[]) + patch;
      SaveTaskRuntimeState(task, merged);
    }

    /** Merges of one task, one after another. */
    method MergeEach(task: string, patches: seq<Patch>)
      modifies this
      ensures State(task) == MergeAll(old(State(task)), patches)
      ensures forall other :: other != task ==> State(other) == old(State(other))
    {
      ghost var first := State(task);
      for i := 0 to |patches|
        invariant State(task) == MergeAll(first, patches[..i])
        invariant forall other :: other != task ==> State(other) == old(State(other))
      {
        MergeAllSnoc(first, patches[..i], patches[i]);
        assert patches[..i + 1] == patches[..i] + [patches[i]];
        MergeTaskRuntimeState(task, patches[i]);
      }
      assert patches[..|patches|] == patches;
    }
  }
}
