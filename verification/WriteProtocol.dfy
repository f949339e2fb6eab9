/**
 Concurrent `aput_writes` calls on one key of the state store.

 Each call loops at most three times over a read of the blob and a save of the merged
 entries. A save that carries an etag succeeds only if the blob still has that etag; a
 save without one is unconditional. The protocol is a state machine: a step is one read or
 one save of one writer, so every interleaving of the calls is a run.

 An etag is modelled by the number of saves made before it, which is all the protocol
 uses of it: a save gives the blob an etag it never had before.
 */
module WriteProtocol {
  import opened Wrappers
  import opened PendingWrites

  const MAX_WRITE_RETRIES := 3

  datatype Blob = Absent | Present(entries: seq<Entry>, etag: nat)

  /** Where a call is. `start` is the number of saves there were when it began. */
  datatype Progress =
    | Fresh
    | Ready(attempt: nat, start: nat)
    | Holding(attempt: nat, start: nat, base: seq<Entry>, etag: Option<nat>)
    | Stored
    | RaisedConflict(start: nat)
    | Crashed

  /** `calls` gives each writer the entries it wants to store; `saves` lists the writers
      in the order of their saves. */
  datatype System = System(calls: map<nat, seq<Entry>>, initial: Blob, blob: Blob,
                           progress: map<nat, Progress>, saves: seq<nat>)

  datatype Step =
    | Load(writer: nat)
    | Save(writer: nat, acknowledged: bool)
    | Crash(writer: nat)

  predicate WellTyped(s: System) {
    s.progress.Keys == s.calls.Keys
  }

  predicate Init(s: System) {
    && WellTyped(s)
    && s.blob == s.initial && s.saves == []
    && (s.initial.Present? ==> s.initial.etag == 0)
    && forall w :: w in s.progress ==> s.progress[w] == Fresh
  }

  // ---- The store's two operations ----

  function EntriesIn(blob: Blob): seq<Entry> {
    match blob
    case Absent => []
    case Present(entries, _) => entries
  }

  function EtagOf(blob: Blob): Option<nat> {
    match blob
    case Absent => None
    case Present(_, etag) => Some(etag)
  }

  /** A save without an etag is unconditional. */
  predicate SaveSucceeds(blob: Blob, etag: Option<nat>) {
    etag.None? || EtagOf(blob) == etag
  }

  // ---- Steps ----

  predicate Enabled(s: System, step: Step)
    requires WellTyped(s)
  {
    step.writer in s.calls &&
    var p := s.progress[step.writer];
    match step
    case Load(_) => p.Fresh? || p.Ready?
    case Save(_, _) => p.Holding?
    case Crash(_) => p.Fresh? || p.Ready? || p.Holding?
  }

  function Apply(s: System, step: Step): (s': System)
    requires WellTyped(s) && Enabled(s, step)
    ensures WellTyped(s') && s'.calls == s.calls && s'.initial == s.initial
  {
    var w := step.writer;
    var p := s.progress[w];
    match step
    case Load(_) =>
      var (attempt, start) := if p.Fresh? then (0, |s.saves|) else (p.attempt, p.start);
      s.(progress := s.progress[w := Holding(attempt, start, EntriesIn(s.blob), EtagOf(s.blob))])
    case Save(_, acknowledged) =>
      if SaveSucceeds(s.blob, p.etag) then
        s.(blob := Present(Merge(p.base, s.calls[w]), |s.saves| + 1),
           saves := s.saves + [w],
           progress := s.progress[w := if acknowledged then Stored else Crashed])
      else
        s.(progress := s.progress[w :=
          if p.attempt + 1 < MAX_WRITE_RETRIES then Ready(p.attempt + 1, p.start) else RaisedConflict(p.start)])
    case Crash(_) =>
      s.(progress := s.progress[w := Crashed])
  }

  /** A blind save overwrites a blob without having read it. */
  predicate Blind(s: System, step: Step)
    requires WellTyped(s) && Enabled(s, step)
  {
    step.Save? && s.progress[step.writer].etag.None? && s.blob.Present?
  }

  /** A run, as the steps that lead from `s` to `t`. */
  ghost predicate Leads(s: System, steps: seq<Step>, t: System): (leads: bool)
    requires WellTyped(s)
    ensures leads ==> WellTyped(t) && t.calls == s.calls && t.initial == s.initial
    decreases |steps|
  {
    if steps == [] then s == t
    else Enabled(s, steps[0]) && Leads(Apply(s, steps[0]), steps[1..], t)
  }

  ghost predicate NeverBlind(s: System, steps: seq<Step>)
    requires WellTyped(s)
    decreases |steps|
  {
    steps != [] && Enabled(s, steps[0]) ==>
      !Blind(s, steps[0]) && NeverBlind(Apply(s, steps[0]), steps[1..])
  }

  // ---- The one-at-a-time reference ----

  /** The entries after the given writers' calls, made one at a time in that order. */
  function OneByOne(calls: map<nat, seq<Entry>>, entries: seq<Entry>, order: seq<nat>): seq<Entry>
    requires forall w :: w in order ==> w in calls
  {
    if order == [] then entries
    else Merge(OneByOne(calls, entries, order[..|order| - 1]), calls[order[|order| - 1]])
  }

  ghost predicate SavesAreCalls(s: System) {
    forall w :: w in s.saves ==> w in s.calls
  }

  /** The entries that the blob has after its first `n` saves, if calls ran one at a time. */
  ghost function After(s: System, n: nat): seq<Entry>
    requires SavesAreCalls(s) && n <= |s.saves|
  {
    OneByOne(s.calls, EntriesIn(s.initial), s.saves[..n])
  }

  ghost predicate HoldsSnapshot(s: System, p: Progress)
    requires SavesAreCalls(s) && p.Holding?
  {
    match p.etag
    case None => s.initial.Absent? && p.base == []
    case Some(n) => p.start + p.attempt <= n <= |s.saves| && p.base == After(s, n) && (s.initial.Present? || n > 0)
  }

  ghost predicate ProgressOk(s: System, w: nat, p: Progress)
    requires SavesAreCalls(s)
  {
    match p
    case Fresh => w !in s.saves
    case Ready(attempt, start) => w !in s.saves && attempt < MAX_WRITE_RETRIES && start + attempt <= |s.saves|
    case Holding(attempt, start, base, etag) =>
      w !in s.saves && attempt < MAX_WRITE_RETRIES && start + attempt <= |s.saves| && HoldsSnapshot(s, p)
    case Stored => w in s.saves
    case RaisedConflict(start) => w !in s.saves && start + MAX_WRITE_RETRIES <= |s.saves|
    case Crashed => true
  }

  ghost predicate Inv(s: System) {
    && WellTyped(s) && SavesAreCalls(s)
    && (forall i, j :: 0 <= i < j < |s.saves| ==> s.saves[i] != s.saves[j])
    && EntriesIn(s.blob) == After(s, |s.saves|)
    && (s.blob.Absent? <==> s.initial.Absent? && s.saves == [])
    && (s.blob.Present? ==> s.blob.etag == |s.saves|)
    && forall w :: w in s.progress ==> ProgressOk(s, w, s.progress[w])
  }

  lemma InitInv(s: System)
    requires Init(s)
    ensures Inv(s)
  {
  }

  /** More saves do not change what an earlier snapshot was. */
  lemma AfterIsStable(s: System, t: System, n: nat)
    requires SavesAreCalls(s) && SavesAreCalls(t) && s.calls == t.calls && s.initial == t.initial
    requires n <= |s.saves| && s.saves <= t.saves
    ensures After(s, n) == After(t, n)
  {
    assert s.saves[..n] == t.saves[..n];
  }

  lemma StepInv(s: System, step: Step)
    requires Inv(s) && Enabled(s, step) && !Blind(s, step)
    ensures Inv(Apply(s, step))
  {
    if step.Load? {
      LoadInv(s, step);
    } else if step.Save? && SaveSucceeds(s.blob, s.progress[step.writer].etag) {
      SaveInv(s, step);
    } else {
      assert ProgressOk(s, step.writer, s.progress[step.writer]);
      OthersKeepTheirProgress(s, step);
    }
  }

  lemma OthersKeepTheirProgress(s: System, step: Step)
    requires Inv(s) && Enabled(s, step) && Apply(s, step).saves == s.saves
    ensures forall v :: v in s.progress && v != step.writer ==>
              ProgressOk(Apply(s, step), v, Apply(s, step).progress[v])
  {
    forall v | v in s.progress && v != step.writer
      ensures ProgressOk(Apply(s, step), v, Apply(s, step).progress[v])
    {
      assert ProgressOk(s, v, s.progress[v]);
    }
  }

  lemma LoadInv(s: System, step: Step)
    requires Inv(s) && Enabled(s, step) && step.Load?
    ensures Inv(Apply(s, step))
  {
    var t, w := Apply(s, step), step.writer;
    assert ProgressOk(s, w, s.progress[w]);
    OthersKeepTheirProgress(s, step);
    assert HoldsSnapshot(t, t.progress[w]);
    assert ProgressOk(t, w, t.progress[w]);
  }

  /** A save that goes through appends the writer's call to the one-at-a-time order. */
  lemma SaveExtends(s: System, step: Step)
    requires Inv(s) && Enabled(s, step) && !Blind(s, step)
    requires step.Save? && SaveSucceeds(s.blob, s.progress[step.writer].etag)
    ensures var t := Apply(s, step);
            && SavesAreCalls(t) && t.saves == s.saves + [step.writer] && step.writer !in s.saves
            && EntriesIn(t.blob) == After(t, |t.saves|)
  {
    var t, w := Apply(s, step), step.writer;
    assert t.saves[..|t.saves|] == t.saves && t.saves[..|s.saves|] == s.saves == s.saves[..|s.saves|];
    assert ProgressOk(s, w, s.progress[w]);
    assert s.progress[w].base == After(s, |s.saves|);
  }

  lemma SaveInv(s: System, step: Step)
    requires Inv(s) && Enabled(s, step) && !Blind(s, step)
    requires step.Save? && SaveSucceeds(s.blob, s.progress[step.writer].etag)
    ensures Inv(Apply(s, step))
  {
    var t := Apply(s, step);
    SaveExtends(s, step);
    forall v | v in t.progress
      ensures ProgressOk(t, v, t.progress[v])
    {
      var p := s.progress[v];
      assert ProgressOk(s, v, p);
      if p.Holding? && p.etag.Some? {
        AfterIsStable(s, t, p.etag.value);
      }
    }
  }

  lemma {:induction false} RunInv(s: System, steps: seq<Step>, t: System)
    requires Inv(s) && Leads(s, steps, t) && NeverBlind(s, steps)
    ensures Inv(t) && s.saves <= t.saves
    decreases |steps|
  {
    if steps != [] {
      StepInv(s, steps[0]);
      RunInv(Apply(s, steps[0]), steps[1..], t);
    }
  }

  /** Once the blob exists no save is blind: a blind save needs a read that found no blob. */
  lemma {:induction false} ExistingBlobNeverBlind(s: System, steps: seq<Step>)
    requires Inv(s) && s.initial.Present?
    ensures NeverBlind(s, steps)
    decreases |steps|
  {
    if steps != [] && Enabled(s, steps[0]) {
      assert ProgressOk(s, steps[0].writer, s.progress[steps[0].writer]);
      StepInv(s, steps[0]);
      ExistingBlobNeverBlind(Apply(s, steps[0]), steps[1..]);
    }
  }

  // ---- What callers may rely on, over every run without a blind save ----

  /** No save of the run is blind; for a blob that exists, that is every run. */
  ghost predicate SafeRun(s: System, steps: seq<Step>, t: System) {
    Init(s) && Leads(s, steps, t) && (s.initial.Present? || NeverBlind(s, steps))
  }

  lemma SafeRunInv(s: System, steps: seq<Step>, t: System)
    requires SafeRun(s, steps, t)
    ensures Inv(t) && NeverBlind(s, steps)
    ensures EntriesIn(t.blob) == OneByOne(t.calls, EntriesIn(t.initial), t.saves)
  {
    InitInv(s);
    if s.initial.Present? {
      ExistingBlobNeverBlind(s, steps);
    }
    RunInv(s, steps, t);
    assert t.saves[..|t.saves|] == t.saves;
  }

  /** The saves are linearizable: the blob holds what the successful calls would have left
      one at a time, in the order of their saves; each writer saves at most once, and a call
      that returned has saved. */
  lemma RunsAreLinearizable(s: System, steps: seq<Step>, t: System)
    requires SafeRun(s, steps, t)
    ensures SavesAreCalls(t) && EntriesIn(t.blob) == OneByOne(t.calls, EntriesIn(s.initial), t.saves)
    ensures forall i, j :: 0 <= i < j < |t.saves| ==> t.saves[i] != t.saves[j]
    ensures forall w :: w in t.progress && t.progress[w] == Stored ==> w in t.saves
  {
    SafeRunInv(s, steps, t);
    forall w | w in t.progress && t.progress[w] == Stored
      ensures w in t.saves
    {
      assert ProgressOk(t, w, t.progress[w]);
    }
  }

  lemma {:induction false} OneByOneAppends(calls: map<nat, seq<Entry>>, entries: seq<Entry>, order: seq<nat>, n: nat)
    requires (forall w :: w in order ==> w in calls) && n <= |order|
    ensures OneByOne(calls, entries, order[..n]) <= OneByOne(calls, entries, order)
  {
    if n == |order| {
      assert order[..n] == order;
    } else {
      var m := |order| - 1;
      assert order[..m][..n] == order[..n];
      OneByOneAppends(calls, entries, order[..m], n);
      MergeAppends(OneByOne(calls, entries, order[..m]), calls[order[m]]);
    }
  }

  lemma LongerRunsExtend(t: System, u: System)
    requires Inv(t) && Inv(u) && t.calls == u.calls && t.initial == u.initial && t.saves <= u.saves
    ensures EntriesIn(t.blob) <= EntriesIn(u.blob)
  {
    assert u.saves[..|t.saves|] == t.saves[..|t.saves|] && u.saves[..|u.saves|] == u.saves;
    OneByOneAppends(u.calls, EntriesIn(u.initial), u.saves, |t.saves|);
  }

  /** Entries are only ever appended. */
  lemma EntriesOnlyGrow(s: System, before: seq<Step>, t: System, after: seq<Step>, u: System)
    requires SafeRun(s, before, t) && Leads(t, after, u) && (s.initial.Present? || NeverBlind(t, after))
    ensures EntriesIn(t.blob) <= EntriesIn(u.blob)
  {
    SafeRunInv(s, before, t);
    if s.initial.Present? {
      ExistingBlobNeverBlind(t, after);
    }
    RunInv(t, after, u);
    LongerRunsExtend(t, u);
  }

  /** The keys of a call that returned are in every later blob. */
  lemma ReturnedKeysStay(s: System, before: seq<Step>, t: System, after: seq<Step>, u: System, w: nat, k: nat)
    requires SafeRun(s, before, t) && Leads(t, after, u) && (s.initial.Present? || NeverBlind(t, after))
    requires w in t.progress && t.progress[w] == Stored && k < |t.calls[w]| && t.calls[w][k].idx >= 0
    ensures Has(EntriesIn(u.blob), KeyOf(t.calls[w][k]))
  {
    SafeRunInv(s, before, t);
    assert ProgressOk(t, w, t.progress[w]);
    SavedKeysArePresent(t, w, k);
    EntriesOnlyGrow(s, before, t, after, u);
    HasInExtension(EntriesIn(t.blob), EntriesIn(u.blob), KeyOf(t.calls[w][k]));
  }

  lemma HasInExtension(a: seq<Entry>, b: seq<Entry>, key: Key)
    requires a <= b && Has(a, key)
    ensures Has(b, key)
  {
    var i :| 0 <= i < |a| && KeyOf(a[i]) == key;
    assert b[i] == a[i];
  }

  lemma SavedKeysArePresent(t: System, w: nat, k: nat)
    requires Inv(t) && w in t.saves && k < |t.calls[w]| && t.calls[w][k].idx >= 0
    ensures Has(EntriesIn(t.blob), KeyOf(t.calls[w][k]))
  {
    var n :| 0 <= n < |t.saves| && t.saves[n] == w;
    var order := t.saves[..n + 1];
    assert order[..n] == t.saves[..n] && t.saves[..|t.saves|] == t.saves;
    MergeStoresAll(OneByOne(t.calls, EntriesIn(t.initial), order[..n]), t.calls[w], k);
    OneByOneAppends(t.calls, EntriesIn(t.initial), t.saves, n + 1);
    HasInExtension(OneByOne(t.calls, EntriesIn(t.initial), order), EntriesIn(t.blob), KeyOf(t.calls[w][k]));
  }

  /** A call that raises after three conflicts stored nothing, and while it ran at least
      three saves of other writers succeeded: a conflict always means another's progress. */
  lemma ConflictsMeanProgress(s: System, steps: seq<Step>, t: System, w: nat)
    requires SafeRun(s, steps, t)
    requires w in t.progress && t.progress[w].RaisedConflict?
    ensures w !in t.saves
    ensures t.progress[w].start + MAX_WRITE_RETRIES <= |t.saves|
    ensures forall i :: t.progress[w].start <= i < |t.saves| ==> t.saves[i] in t.calls && t.saves[i] != w
  {
    SafeRunInv(s, steps, t);
    assert ProgressOk(t, w, t.progress[w]);
  }

  // ---- What an absent blob changes ----

  /** A save that goes through keeps what another task has stored exactly when it carries
      an etag: a save without one drops the other task's entries. */
  lemma SaveKeepsExactlyWithEtag(s: System, step: Step)
    requires Inv(s) && Enabled(s, step) && step.Save? && SaveSucceeds(s.blob, s.progress[step.writer].etag)
    requires EntriesIn(s.blob) != []
    requires forall e :: e in s.calls[step.writer] ==> e.taskId != EntriesIn(s.blob)[0].taskId
    ensures EntriesIn(s.blob) <= EntriesIn(Apply(s, step).blob) <==> s.progress[step.writer].etag.Some?
  {
    var w := step.writer;
    assert ProgressOk(s, w, s.progress[w]);
    MergeAppends(s.progress[w].base, s.calls[w]);
    if s.progress[w].etag.None? {
      MergeOfOwn([], s.calls[w]);
      assert forall e :: e in Apply(s, step).blob.entries ==> e in s.calls[w];
    }
  }

  /** What holds in every run from an absent blob, blind saves and all. */
  ghost predicate AnyInv(s: System) {
    && WellTyped(s) && SavesAreCalls(s)
    && (if s.saves == [] then s.blob.Absent? else s.blob.Present? && s.blob.etag == |s.saves|)
    && forall w :: w in s.progress ==> AnyProgress(s, w, s.progress[w])
  }

  ghost predicate AnyProgress(s: System, w: nat, p: Progress) {
    && (p.Fresh? || p.Ready? || p.Holding? ==> w !in s.saves)
    && (p.Holding? ==>
          match p.etag
          case None => p.base == []
          case Some(n) => n <= |s.saves| && (n == |s.saves| ==> p.base == EntriesIn(s.blob)))
  }

  lemma StepAnyInv(s: System, step: Step)
    requires AnyInv(s) && Enabled(s, step)
    ensures AnyInv(Apply(s, step))
  {
    var t := Apply(s, step);
    assert AnyProgress(s, step.writer, s.progress[step.writer]);
    forall w | w in t.progress
      ensures AnyProgress(t, w, t.progress[w])
    {
      assert AnyProgress(s, w, s.progress[w]);
    }
  }

  /** No two calls write for the same task. */
  ghost predicate OwnTasks(calls: map<nat, seq<Entry>>) {
    forall v, w, j, k :: v in calls && w in calls && v != w && 0 <= j < |calls[v]| && 0 <= k < |calls[w]| ==>
      calls[v][j].taskId != calls[w][k].taskId
  }

  ghost predicate NoneOf(entries: seq<Entry>, call: seq<Entry>) {
    forall e, k :: e in entries && 0 <= k < |call| ==> e.taskId != call[k].taskId
  }

  /** A writer has saved, and nothing of its task is stored. */
  ghost predicate IsLost(s: System, v: nat) {
    v in s.calls && v in s.saves && NoneOf(EntriesIn(s.blob), s.calls[v])
  }

  lemma SaveAddsOwn(s: System, step: Step)
    requires AnyInv(s) && Enabled(s, step) && step.Save? && SaveSucceeds(s.blob, s.progress[step.writer].etag)
    ensures var e' := EntriesIn(Apply(s, step).blob);
            forall e :: e in e' ==> e in s.calls[step.writer] || (e in EntriesIn(s.blob) && !Blind(s, step))
  {
    var p := s.progress[step.writer];
    assert AnyProgress(s, step.writer, p);
    MergeOfOwn(p.base, s.calls[step.writer]);
  }

  /** What is lost stays lost: nobody who holds it can save any more. */
  lemma LostStays(s: System, step: Step, v: nat)
    requires AnyInv(s) && OwnTasks(s.calls) && Enabled(s, step) && IsLost(s, v)
    ensures IsLost(Apply(s, step), v)
  {
    if step.Save? && SaveSucceeds(s.blob, s.progress[step.writer].etag) {
      SaveAddsOwn(s, step);
      assert AnyProgress(s, step.writer, s.progress[step.writer]);
    }
  }

  /** A blind save loses the writer before it. */
  lemma BlindLoses(s: System, step: Step) returns (v: nat)
    requires AnyInv(s) && OwnTasks(s.calls) && Enabled(s, step) && Blind(s, step)
    ensures IsLost(Apply(s, step), v)
  {
    v := s.saves[|s.saves| - 1];
    SaveAddsOwn(s, step);
    assert AnyProgress(s, step.writer, s.progress[step.writer]);
  }

  lemma {:induction false} LostForGood(s: System, steps: seq<Step>, t: System, v: nat)
    requires AnyInv(s) && OwnTasks(s.calls) && Leads(s, steps, t) && IsLost(s, v)
    ensures IsLost(t, v)
    decreases |steps|
  {
    if steps != [] {
      StepAnyInv(s, steps[0]);
      LostStays(s, steps[0], v);
      LostForGood(Apply(s, steps[0]), steps[1..], t, v);
    }
  }

  lemma {:induction false} BlindRunLoses(s: System, steps: seq<Step>, t: System) returns (v: nat)
    requires AnyInv(s) && OwnTasks(s.calls) && Leads(s, steps, t) && !NeverBlind(s, steps)
    ensures IsLost(t, v)
    decreases |steps|
  {
    StepAnyInv(s, steps[0]);
    if Blind(s, steps[0]) {
      v := BlindLoses(s, steps[0]);
      LostForGood(Apply(s, steps[0]), steps[1..], t, v);
    } else {
      v := BlindRunLoses(Apply(s, steps[0]), steps[1..], t);
    }
  }

  ghost predicate Survives(t: System, w: nat) {
    && w in t.calls
    && forall k :: 0 <= k < |t.calls[w]| && t.calls[w][k].idx >= 0 ==> Has(EntriesIn(t.blob), KeyOf(t.calls[w][k]))
  }

  /** First writers of different tasks: everything that any of them saved is still stored if
      and only if no save of the run was blind. */
  lemma SavesSurviveExactly(s: System, steps: seq<Step>, t: System)
    requires Init(s) && s.initial.Absent? && Leads(s, steps, t) && OwnTasks(s.calls)
    requires forall w :: w in s.calls ==> exists k :: 0 <= k < |s.calls[w]| && s.calls[w][k].idx >= 0
    ensures (forall w :: w in t.saves ==> Survives(t, w)) <==> NeverBlind(s, steps)
  {
    if NeverBlind(s, steps) {
      SafeRunInv(s, steps, t);
      forall w | w in t.saves
        ensures Survives(t, w)
      {
        forall k | 0 <= k < |t.calls[w]| && t.calls[w][k].idx >= 0
          ensures Has(EntriesIn(t.blob), KeyOf(t.calls[w][k]))
        {
          SavedKeysArePresent(t, w, k);
        }
      }
    } else {
      var v := BlindRunLoses(s, steps, t);
      LostDoesNotSurvive(t, v);
    }
  }

  lemma LostDoesNotSurvive(t: System, v: nat)
    requires IsLost(t, v) && exists k :: 0 <= k < |t.calls[v]| && t.calls[v][k].idx >= 0
    ensures !Survives(t, v)
  {
    var k :| 0 <= k < |t.calls[v]| && t.calls[v][k].idx >= 0;
    var entries := EntriesIn(t.blob);
    forall i | 0 <= i < |entries|
      ensures KeyOf(entries[i]) != KeyOf(t.calls[v][k])
    {
      assert entries[i] in entries;
    }
  }

  lemma {:induction false} MergeOfOwn(existing: seq<Entry>, es: seq<Entry>)
    ensures forall e :: e in Merge(existing, es) ==> e in existing || e in es
    decreases |es|
  {
    if es != [] {
      MergeOfOwn(Add(existing, es[0]), es[1..]);
    }
  }

  /** Two first writers that both find no blob: the later save drops the entries of the
      earlier call, though both calls return. */
  lemma FirstWritersCanLoseEntries(a: Entry, b: Entry) returns (s: System, steps: seq<Step>, t: System)
    requires a.taskId != b.taskId && a.idx >= 0 && b.idx >= 0
    ensures Init(s) && s.initial.Absent? && s.calls == map[0 := [a], 1 := [b]] && Leads(s, steps, t)
    ensures t.progress == map[0 := Stored, 1 := Stored] && !Has(EntriesIn(t.blob), KeyOf(a))
  {
    s := System(map[0 := [a], 1 := [b]], Absent, Absent, map[0 := Fresh, 1 := Fresh], []);
    var s1 := Apply(s, Load(0));
    var s2 := Apply(s1, Load(1));
    var s3 := Apply(s2, Save(0, true));
    t := Apply(s3, Save(1, true));
    MergeOne(b);
    LeadsStep(s3, Save(1, true), [], t);
    LeadsStep(s2, Save(0, true), [Save(1, true)], t);
    LeadsStep(s1, Load(1), [Save(0, true), Save(1, true)], t);
    LeadsStep(s, Load(0), [Load(1), Save(0, true), Save(1, true)], t);
    steps := [Load(0)] + [Load(1), Save(0, true), Save(1, true)];
  }

  lemma MergeOne(e: Entry)
    ensures Merge([], [e]) == [e]
  {
    assert Merge([e], [e][1..]) == [e];
  }

  lemma LeadsStep(s: System, step: Step, rest: seq<Step>, t: System)
    requires WellTyped(s) && Enabled(s, step) && Leads(Apply(s, step), rest, t)
    ensures Leads(s, [step] + rest, t)
  {
    assert ([step] + rest)[1..] == rest;
  }
}
