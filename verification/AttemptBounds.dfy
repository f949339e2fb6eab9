/**
 How many attempts a run makes when the retry policies are kept: no activity is attempted
 more often than its policy allows, whatever the attempts do, and however they overlap.
 */
module AttemptBounds {
  import opened Wrappers
  import opened Orchestration
  import opened WorkflowSchedules
  import opened DurableTask

  /** The attempts of the `index`-th scheduled activity. */
  function AttemptsAt(w: World, index: nat): set<nat> {
    set id | id in w.attempts && w.attempts[id].index == index
  }

  /** An attempt begins only if the pending activity's policy allows another one. */
  ghost predicate KeepsPolicy(cfg: Config, w: World, steps: seq<Step>)
    decreases |steps|
  {
    steps != [] && Enabled(cfg, w, steps[0]) ==>
      && (steps[0].Begin? ==> |AttemptsAt(w, |w.history|)| < MaxAttempts(KindOf(Current(cfg, w).value)))
      && KeepsPolicy(cfg, Apply(cfg, w, steps[0]), steps[1..])
  }

  ghost predicate WithinPolicy(cfg: Config, w: World, index: nat) {
    var scheduled := Scheduled(cfg.input, w.history);
    if index < |scheduled| then |AttemptsAt(w, index)| <= MaxAttempts(KindOf(scheduled[index]))
    else AttemptsAt(w, index) == {}
  }

  ghost predicate PolicyInv(cfg: Config, w: World) {
    Inv(cfg, w) && forall index: nat :: WithinPolicy(cfg, w, index)
  }

  /** Only a beginning attempt counts. */
  lemma StepAttempts(cfg: Config, w: World, step: Step, index: nat)
    requires Enabled(cfg, w, step)
    ensures AttemptsAt(Apply(cfg, w, step), index) ==
            AttemptsAt(w, index) + if step.Begin? && index == |w.history| then {step.id} else {}
  {
  }

  lemma PendingIsScheduled(cfg: Config, w: World)
    requires Inv(cfg, w) && Current(cfg, w).Some?
    ensures var scheduled := Scheduled(cfg.input, w.history);
            |w.history| < |scheduled| && scheduled[|w.history|] == Current(cfg, w).value
  {
    ScheduledAt(cfg.input, w.history, |w.history|);
    assert w.history[..|w.history|] == w.history;
  }

  lemma StepPolicy(cfg: Config, w: World, step: Step, index: nat)
    requires PolicyInv(cfg, w) && Enabled(cfg, w, step)
    requires step.Begin? ==> |AttemptsAt(w, |w.history|)| < MaxAttempts(KindOf(Current(cfg, w).value))
    ensures WithinPolicy(cfg, Apply(cfg, w, step), index)
  {
    assert WithinPolicy(cfg, w, index);
    StepAttempts(cfg, w, step, index);
    StepExtends(cfg, w, step);
    if step.Begin? {
      PendingIsScheduled(cfg, w);
    }
  }

  lemma {:induction false} RunPolicy(cfg: Config, w: World, steps: seq<Step>, v: World)
    requires PolicyInv(cfg, w) && Leads(cfg, w, steps, v) && KeepsPolicy(cfg, w, steps)
    ensures PolicyInv(cfg, v)
    decreases |steps|
  {
    if steps != [] {
      StepInv(cfg, w, steps[0]);
      forall index: nat
        ensures WithinPolicy(cfg, Apply(cfg, w, steps[0]), index)
      {
        StepPolicy(cfg, w, steps[0], index);
      }
      RunPolicy(cfg, Apply(cfg, w, steps[0]), steps[1..], v);
    }
  }

  function AttemptsBelow(w: World, n: nat): set<nat> {
    set id | id in w.attempts && w.attempts[id].index < n
  }

  lemma OneMoreIndex(w: World, n: nat)
    ensures |AttemptsBelow(w, n + 1)| <= |AttemptsBelow(w, n)| + |AttemptsAt(w, n)|
  {
    assert AttemptsBelow(w, n + 1) == AttemptsBelow(w, n) + AttemptsAt(w, n);
  }

  lemma TotalOfPrefix(kinds: seq<Kind>, n: nat)
    requires n < |kinds|
    ensures TotalAttempts(kinds[..n + 1]) == TotalAttempts(kinds[..n]) + MaxAttempts(kinds[n])
  {
    assert kinds[..n + 1] == kinds[..n] + [kinds[n]];
    TotalOfBoth(kinds[..n], [kinds[n]]);
    TotalOfOne(kinds[n]);
  }

  lemma {:induction false} CountBelow(cfg: Config, w: World, n: nat)
    requires PolicyInv(cfg, w) && n <= |Scheduled(cfg.input, w.history)|
    ensures |AttemptsBelow(w, n)| <= TotalAttempts(Kinds(Scheduled(cfg.input, w.history))[..n])
    decreases n
  {
    if n > 0 {
      var kinds := Kinds(Scheduled(cfg.input, w.history));
      CountBelow(cfg, w, n - 1);
      assert WithinPolicy(cfg, w, n - 1);
      OneMoreIndex(w, n - 1);
      TotalOfPrefix(kinds, n - 1);
    }
  }

  lemma RunKeepsPolicy(cfg: Config, first: World, steps: seq<Step>, w: World)
    requires Init(cfg, first) && Leads(cfg, first, steps, w) && KeepsPolicy(cfg, first, steps)
    ensures PolicyInv(cfg, w)
  {
    InitInv(cfg, first);
    assert forall index: nat :: AttemptsAt(first, index) == {};
    RunPolicy(cfg, first, steps, w);
  }

  lemma FewAttemptsAt(cfg: Config, w: World, index: nat)
    requires PolicyInv(cfg, w) && index < |Scheduled(cfg.input, w.history)|
    ensures var a := Scheduled(cfg.input, w.history)[index];
            |AttemptsAt(w, index)| <= if a.Finalize? || a.MarkFailed? then 2 else 3
  {
    assert WithinPolicy(cfg, w, index);
  }

  /** In every run that keeps the policies, finalize and mark_failed are attempted at most twice,
      every other activity at most three times, and the whole run makes at most 22 attempts. */
  lemma RunsMakeFewAttempts(cfg: Config, first: World, steps: seq<Step>, w: World, index: nat)
    requires Init(cfg, first) && Leads(cfg, first, steps, w) && KeepsPolicy(cfg, first, steps)
    ensures index < |Scheduled(cfg.input, w.history)| ==>
              var a := Scheduled(cfg.input, w.history)[index];
              |AttemptsAt(w, index)| <= if a.Finalize? || a.MarkFailed? then 2 else 3
    ensures |w.attempts| <= TotalAttempts(Kinds(Scheduled(cfg.input, w.history))) <= 22
  {
    RunKeepsPolicy(cfg, first, steps, w);
    var scheduled := Scheduled(cfg.input, w.history);
    if index < |scheduled| {
      FewAttemptsAt(cfg, w, index);
    }
    CountBelow(cfg, w, |scheduled|);
    assert Kinds(scheduled)[..|scheduled|] == Kinds(scheduled);
    assert forall id :: id in w.attempts ==> AttemptOk(cfg, w, w.attempts[id]);
    assert AttemptsBelow(w, |scheduled|) == w.attempts.Keys;
    AttemptsAreBounded(cfg.input, w.history);
  }
}
