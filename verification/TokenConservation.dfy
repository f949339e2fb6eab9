/**
 Token conservation: when is the usage stored for a task the sum of what was reported?

 A report reads the stored usage before it takes the lock, and later saves what it read plus
 its own. It overtakes nobody, and the usage is conserved, exactly when no other report of the
 task is saved between its read and its save; otherwise that report's tokens are lost. Merges
 of other keys, and reports that fail before their save, do not matter.
 */
module TokenConservation {
  import opened Sequences
  import opened Wrappers
  import opened TokenUsage
  import opened RuntimeState

  // ---- Saved reports ----

  predicate IsReport(calls: map<nat, Call>, id: nat, task: string) {
    id in calls && calls[id].task == task && calls[id].reported.Some?
  }

  /** The usages of the task's reports among the calls in `saves`, in that order. */
  function ReportsOf(calls: map<nat, Call>, saves: seq<nat>, task: string): seq<Usage> {
    if saves == [] then []
    else
      var last := saves[|saves| - 1];
      ReportsOf(calls, saves[..|saves| - 1], task)
      + (if IsReport(calls, last, task) then [calls[last].reported.value] else [])
  }

  function Reported(s: System, task: string): seq<Usage> {
    ReportsOf(s.calls, s.saves, task)
  }

  /** The `j`-th save is a report of the task, and comes between the read and the save of the
      report that is saved `i`-th. */
  predicate Overtakes(calls: map<nat, Call>, saves: seq<nat>, task: string, j: nat, i: nat) {
    && j < i < |saves| && IsReport(calls, saves[j], task) && IsReport(calls, saves[i], task)
    && calls[saves[i]].start <= j
  }

  ghost predicate NoneOvertakes(calls: map<nat, Call>, saves: seq<nat>, task: string) {
    forall i, j :: 0 <= j < i < |saves| ==> !Overtakes(calls, saves, task, j, i)
  }

  /** Counter by counter, the stored usage is what was there and what was reported, and its
      status tells which counters the start or some report knows. */
  ghost predicate Conserves(first: Patch, now: Patch, reports: seq<Usage>) {
    var base := UsageIn(first);
    && (forall k :: Read(UsageIn(now), k) ==
                    if IsKnown(base, reports, k) then Some(OrZero(Read(base, k)) + KnownSum(reports, k)) else None)
    && (reports != [] ==>
          && TOKEN_USAGE in now && now[TOKEN_USAGE].Tokens?
          && StatusTellsAll(now[TOKEN_USAGE].report.status, base, reports))
  }

  predicate SameTokens(first: Patch, now: Patch) {
    if TOKEN_USAGE in first then TOKEN_USAGE in now && now[TOKEN_USAGE] == first[TOKEN_USAGE] else TOKEN_USAGE !in now
  }

  // ---- What saves leave, without the store ----

  /** The usage after the first `n` saves: that of the last report among them on top of the
      usage that it read, `start` saves after the beginning. */
  function UsageAfter(calls: map<nat, Call>, saves: seq<nat>, task: string, base: Usage, n: nat): Usage
    requires n <= |saves|
  {
    if n == 0 then base
    else
      var last := saves[n - 1];
      if IsReport(calls, last, task) && calls[last].start < n
      then Sum(UsageAfter(calls, saves, task, base, calls[last].start), calls[last].reported.value)
      else UsageAfter(calls, saves, task, base, n - 1)
  }

  /** Every report reads before it saves. */
  ghost predicate StartsOk(calls: map<nat, Call>, saves: seq<nat>) {
    forall i :: 0 <= i < |saves| ==>
      saves[i] in calls && (calls[saves[i]].reported.Some? ==> calls[saves[i]].start <= i)
  }

  lemma ReportsOfPrefix(calls: map<nat, Call>, saves: seq<nat>, task: string, n: nat)
    requires n < |saves|
    ensures ReportsOf(calls, saves[..n + 1], task) ==
            if IsReport(calls, saves[n], task)
            then ReportsOf(calls, saves[..n], task) + [calls[saves[n]].reported.value]
            else ReportsOf(calls, saves[..n], task)
  {
    assert saves[..n + 1][..n] == saves[..n];
  }

  /** Saves that are no reports of the task add nothing. */
  lemma {:induction false} NoReportsBetween(calls: map<nat, Call>, saves: seq<nat>, task: string, m: nat, n: nat)
    requires m <= n <= |saves|
    requires forall j :: m <= j < n ==> !IsReport(calls, saves[j], task)
    ensures ReportsOf(calls, saves[..n], task) == ReportsOf(calls, saves[..m], task)
    decreases n
  {
    if m < n {
      ReportsOfPrefix(calls, saves, task, n - 1);
      NoReportsBetween(calls, saves, task, m, n - 1);
    }
  }

  /** A report that overtakes nobody read the usage after all reports before it. */
  lemma ReadsAllBefore(calls: map<nat, Call>, saves: seq<nat>, task: string, i: nat)
    requires StartsOk(calls, saves) && NoneOvertakes(calls, saves, task)
    requires i < |saves| && IsReport(calls, saves[i], task)
    ensures calls[saves[i]].start <= i
    ensures ReportsOf(calls, saves[..i], task) == ReportsOf(calls, saves[..calls[saves[i]].start], task)
  {
    var m := calls[saves[i]].start;
    forall j | m <= j < i
      ensures !IsReport(calls, saves[j], task)
    {
      assert !Overtakes(calls, saves, task, j, i);
    }
    NoReportsBetween(calls, saves, task, m, i);
  }

  /** Saves in which nobody is overtaken add up, whatever the usages. */
  lemma {:induction false} SavesAddUp(calls: map<nat, Call>, saves: seq<nat>, task: string, base: Usage, n: nat)
    requires StartsOk(calls, saves) && NoneOvertakes(calls, saves, task) && n <= |saves|
    ensures UsageAfter(calls, saves, task, base, n) == SumAll(base, ReportsOf(calls, saves[..n], task))
    decreases n
  {
    if n > 0 {
      var last := saves[n - 1];
      ReportsOfPrefix(calls, saves, task, n - 1);
      if IsReport(calls, last, task) {
        ReadsAllBefore(calls, saves, task, n - 1);
        SavesAddUp(calls, saves, task, base, calls[last].start);
        SumAllSnoc(base, ReportsOf(calls, saves[..n - 1], task), calls[last].reported.value);
      } else {
        SavesAddUp(calls, saves, task, base, n - 1);
      }
    }
  }

  // ---- Counting what is lost ----

  /** All counters of a usage together. */
  function Weight(u: Usage): int {
    OrZero(u.prompt) + OrZero(u.completion) + OrZero(u.total)
  }

  /** No counter is negative, and one is positive. */
  predicate IsPositive(u: Usage) {
    OrZero(u.prompt) >= 0 && OrZero(u.completion) >= 0 && OrZero(u.total) >= 0 && Weight(u) > 0
  }

  ghost predicate AllPositive(calls: map<nat, Call>, saves: seq<nat>, task: string) {
    forall i :: 0 <= i < |saves| && IsReport(calls, saves[i], task) ==> IsPositive(calls[saves[i]].reported.value)
  }

  function WeightAfter(calls: map<nat, Call>, saves: seq<nat>, task: string, base: Usage, n: nat): int
    requires n <= |saves|
  {
    Weight(SumAll(base, ReportsOf(calls, saves[..n], task)))
  }

  lemma WeightStep(calls: map<nat, Call>, saves: seq<nat>, task: string, base: Usage, n: nat)
    requires n < |saves|
    ensures WeightAfter(calls, saves, task, base, n + 1)
         == WeightAfter(calls, saves, task, base, n)
            + (if IsReport(calls, saves[n], task) then Weight(calls[saves[n]].reported.value) else 0)
  {
    ReportsOfPrefix(calls, saves, task, n);
    if IsReport(calls, saves[n], task) {
      SumAllSnoc(base, ReportsOf(calls, saves[..n], task), calls[saves[n]].reported.value);
    }
  }

  /** The total grows with every report. */
  lemma {:induction false} WeightGrows(calls: map<nat, Call>, saves: seq<nat>, task: string, base: Usage,
                                       m: nat, n: nat)
    requires m <= n <= |saves| && AllPositive(calls, saves, task)
    ensures WeightAfter(calls, saves, task, base, m) <= WeightAfter(calls, saves, task, base, n)
    ensures (exists j :: m <= j < n && IsReport(calls, saves[j], task)) ==>
              WeightAfter(calls, saves, task, base, m) < WeightAfter(calls, saves, task, base, n)
    decreases n
  {
    if m < n {
      WeightStep(calls, saves, task, base, n - 1);
      WeightGrows(calls, saves, task, base, m, n - 1);
    }
  }

  /** What is stored never exceeds the total, and falls short of it from the first report on
      that overtakes another. */
  lemma {:induction false} OvertakingLoses(calls: map<nat, Call>, saves: seq<nat>, task: string, base: Usage, n: nat)
    requires StartsOk(calls, saves) && AllPositive(calls, saves, task) && n <= |saves|
    ensures Weight(UsageAfter(calls, saves, task, base, n)) <= WeightAfter(calls, saves, task, base, n)
    ensures (exists i, j :: 0 <= j < i < n && Overtakes(calls, saves, task, j, i)) ==>
              Weight(UsageAfter(calls, saves, task, base, n)) < WeightAfter(calls, saves, task, base, n)
    decreases n
  {
    if n > 0 {
      WeightStep(calls, saves, task, base, n - 1);
      if IsReport(calls, saves[n - 1], task) {
        ReportLoses(calls, saves, task, base, n);
      } else {
        OvertakingLoses(calls, saves, task, base, n - 1);
      }
    }
  }

  lemma {:induction false} ReportLoses(calls: map<nat, Call>, saves: seq<nat>, task: string, base: Usage, n: nat)
    requires StartsOk(calls, saves) && AllPositive(calls, saves, task) && 0 < n <= |saves|
    requires IsReport(calls, saves[n - 1], task)
    ensures Weight(UsageAfter(calls, saves, task, base, n)) <= WeightAfter(calls, saves, task, base, n)
    ensures (exists i, j :: 0 <= j < i < n && Overtakes(calls, saves, task, j, i)) ==>
              Weight(UsageAfter(calls, saves, task, base, n)) < WeightAfter(calls, saves, task, base, n)
    decreases n, 0
  {
    var m := calls[saves[n - 1]].start;
    WeightStep(calls, saves, task, base, n - 1);
    OvertakingLoses(calls, saves, task, base, m);
    WeightGrows(calls, saves, task, base, m, n - 1);
    if i, j :| 0 <= j < i < n && Overtakes(calls, saves, task, j, i) {
      if i < n - 1 && i >= m {
        assert IsReport(calls, saves[i], task);
      }
    }
  }

  // ---- What is stored is what the saves leave ----

  /** A report that has read the stored usage, and has not ended. */
  predicate InFlight(c: Call) {
    c.reported.Some? && (c.phase.Waiting? || Holds(c))
  }

  function BaseUsage(first: System, task: string): Usage {
    UsageIn(Stored(first, task))
  }

  function UsageBy(first: System, s: System, task: string, n: nat): Usage
    requires n <= |s.saves|
  {
    UsageAfter(s.calls, s.saves, task, BaseUsage(first, task), n)
  }

  ghost predicate ReportOk(first: System, s: System, id: nat)
    requires id in s.calls
  {
    var c := s.calls[id];
    && (InFlight(c) ==>
          && c.start <= |s.saves|
          && c.patch == map[TOKEN_USAGE :=
               Tokens(MergeTokenUsage(UsageBy(first, s, c.task, c.start), c.reported.value))])
    && (c.reported.None? ==> TOKEN_USAGE !in c.patch)
  }

  ghost predicate SavesOk(s: System) {
    && StartsOk(s.calls, s.saves)
    && forall i :: 0 <= i < |s.saves| ==> HasSaved(s.calls, s.saves[i])
  }

  ghost predicate UsageOk(first: System, s: System, task: string) {
    var u, now := UsageBy(first, s, task, |s.saves|), Stored(s, task);
    && UsageIn(now) == u
    && if Reported(s, task) == [] then SameTokens(Stored(first, task), now)
       else TOKEN_USAGE in now && now[TOKEN_USAGE].Tokens? && StatusTells(now[TOKEN_USAGE].report)
  }

  ghost predicate UsageInv(first: System, s: System) {
    && Inv(first, s) && SavesOk(s)
    && (forall id :: id in s.calls ==> ReportOk(first, s, id))
    && (forall task :: UsageOk(first, s, task))
  }

  /** Merges leave the usage alone: only reports write it. */
  predicate LeavesUsage(step: Step) {
    step.StartMerge? ==> TOKEN_USAGE !in step.patch
  }

  /** A saved call stays as it is. */
  predicate SameReport(calls: map<nat, Call>, others: map<nat, Call>, id: nat) {
    && id in calls && id in others
    && calls[id].task == others[id].task && calls[id].reported == others[id].reported
    && calls[id].start == others[id].start
  }

  lemma {:induction false} UsageIsStable(calls: map<nat, Call>, saves: seq<nat>, others: map<nat, Call>, more: seq<nat>,
                                         task: string, base: Usage, n: nat)
    requires n <= |saves| && saves <= more && forall i :: 0 <= i < n ==> SameReport(calls, others, saves[i])
    ensures UsageAfter(calls, saves, task, base, n) == UsageAfter(others, more, task, base, n)
    decreases n
  {
    if n > 0 {
      assert more[n - 1] == saves[n - 1];
      var last := saves[n - 1];
      assert SameReport(calls, others, last);
      if IsReport(calls, last, task) && calls[last].start < n {
        UsageIsStable(calls, saves, others, more, task, base, calls[last].start);
      } else {
        UsageIsStable(calls, saves, others, more, task, base, n - 1);
      }
    }
  }

  lemma {:induction false} ReportsAreStable(calls: map<nat, Call>, others: map<nat, Call>, saves: seq<nat>,
                                            task: string)
    requires forall i :: 0 <= i < |saves| ==> SameReport(calls, others, saves[i])
    ensures ReportsOf(calls, saves, task) == ReportsOf(others, saves, task)
    decreases |saves|
  {
    if saves != [] {
      assert SameReport(calls, others, saves[|saves| - 1]);
      ReportsAreStable(calls, others, saves[..|saves| - 1], task);
    }
  }

  lemma SavedCallsStay(s: System, step: Step)
    requires SavesOk(s) && Enabled(s, step)
    ensures forall i :: 0 <= i < |s.saves| ==> SameReport(s.calls, Apply(s, step).calls, s.saves[i])
    ensures s.saves <= Apply(s, step).saves
  {
    forall i | 0 <= i < |s.saves|
      ensures SameReport(s.calls, Apply(s, step).calls, s.saves[i])
    {
      assert HasSaved(s.calls, s.saves[i]);
    }
  }

  lemma UsageStays(first: System, s: System, step: Step, task: string, n: nat)
    requires SavesOk(s) && Enabled(s, step) && n <= |s.saves|
    ensures n <= |Apply(s, step).saves| && UsageBy(first, Apply(s, step), task, n) == UsageBy(first, s, task, n)
  {
    var t := Apply(s, step);
    SavedCallsStay(s, step);
    UsageIsStable(s.calls, s.saves, t.calls, t.saves, task, BaseUsage(first, task), n);
  }

  lemma StepSaves(first: System, s: System, step: Step)
    requires UsageInv(first, s) && Enabled(s, step)
    ensures SavesOk(Apply(s, step))
  {
    var t := Apply(s, step);
    SavedCallsStay(s, step);
    forall i | 0 <= i < |t.saves|
      ensures HasSaved(t.calls, t.saves[i])
      ensures t.calls[t.saves[i]].reported.Some? ==> t.calls[t.saves[i]].start <= i
    {
      if i < |s.saves| {
        assert HasSaved(s.calls, s.saves[i]);
      } else {
        assert ReportOk(first, s, step.id) && CallOk(s, step.id);
      }
    }
  }

  lemma ReportsOfOneMore(calls: map<nat, Call>, others: map<nat, Call>, saves: seq<nat>, id: nat, task: string)
    requires forall i :: 0 <= i < |saves| ==> SameReport(calls, others, saves[i])
    requires SameReport(calls, others, id)
    ensures ReportsOf(others, saves + [id], task) ==
            if IsReport(calls, id, task) then ReportsOf(calls, saves, task) + [calls[id].reported.value]
            else ReportsOf(calls, saves, task)
  {
    ReportsAreStable(calls, others, saves, task);
    assert (saves + [id])[..|saves|] == saves;
  }

  lemma SaveAddsOne(s: System, id: nat, acknowledged: bool)
    requires Enabled(s, Save(id, acknowledged))
    ensures var t := Apply(s, Save(id, acknowledged)); t.saves == s.saves + [id] && SameReport(s.calls, t.calls, id)
  {
  }

  /** A save appends the call's usage to the reports, if it is one, and nothing otherwise. */
  lemma SaveAppends(first: System, s: System, id: nat, acknowledged: bool, task: string)
    requires UsageInv(first, s) && Enabled(s, Save(id, acknowledged))
    ensures Reported(Apply(s, Save(id, acknowledged)), task) ==
            if IsReport(s.calls, id, task) then Reported(s, task) + [s.calls[id].reported.value] else Reported(s, task)
  {
    SavedCallsStay(s, Save(id, acknowledged));
    SaveAddsOne(s, id, acknowledged);
    ReportsOfOneMore(s.calls, Apply(s, Save(id, acknowledged)).calls, s.saves, id, task);
  }

  lemma SaveReport(first: System, s: System, id: nat, acknowledged: bool)
    requires UsageInv(first, s) && Enabled(s, Save(id, acknowledged)) && s.calls[id].reported.Some?
    ensures UsageOk(first, Apply(s, Save(id, acknowledged)), s.calls[id].task)
  {
    var c, step := s.calls[id], Save(id, acknowledged);
    assert ReportOk(first, s, id);
    UsageStays(first, s, step, c.task, c.start);
  }

  lemma MergeLeavesTokens(first: System, s: System, id: nat, acknowledged: bool)
    requires UsageInv(first, s) && Enabled(s, Save(id, acknowledged)) && s.calls[id].reported.None?
    ensures SameTokens(Stored(s, s.calls[id].task), Stored(Apply(s, Save(id, acknowledged)), s.calls[id].task))
  {
    assert CallOk(s, id) && ReportOk(first, s, id);
  }

  lemma SameUsage(first: System, s: System, t: System, task: string)
    requires UsageOk(first, s, task) && SameTokens(Stored(s, task), Stored(t, task))
    requires Reported(t, task) == Reported(s, task)
    requires UsageBy(first, t, task, |t.saves|) == UsageBy(first, s, task, |s.saves|)
    ensures UsageOk(first, t, task)
  {
  }

  lemma SaveMerge(first: System, s: System, id: nat, acknowledged: bool)
    requires UsageInv(first, s) && Enabled(s, Save(id, acknowledged)) && s.calls[id].reported.None?
    ensures UsageOk(first, Apply(s, Save(id, acknowledged)), s.calls[id].task)
  {
    var c, step := s.calls[id], Save(id, acknowledged);
    UsageStays(first, s, step, c.task, |s.saves|);
    MergedUsage(first, s, id, acknowledged);
    SaveAppends(first, s, id, acknowledged, c.task);
    MergeLeavesTokens(first, s, id, acknowledged);
    SameUsage(first, s, Apply(s, step), c.task);
  }

  /** A save that is no report is not counted. */
  lemma MergedUsage(first: System, s: System, id: nat, acknowledged: bool)
    requires UsageInv(first, s) && Enabled(s, Save(id, acknowledged)) && s.calls[id].reported.None?
    requires var t := Apply(s, Save(id, acknowledged)); var task := s.calls[id].task;
             |s.saves| <= |t.saves| && UsageBy(first, t, task, |s.saves|) == UsageBy(first, s, task, |s.saves|)
    ensures var t := Apply(s, Save(id, acknowledged)); var task := s.calls[id].task;
            UsageBy(first, t, task, |t.saves|) == UsageBy(first, s, task, |s.saves|)
  {
  }

  lemma SavesBySaving(s: System, step: Step)
    requires Enabled(s, step)
    ensures Apply(s, step).saves == if step.Save? then s.saves + [step.id] else s.saves
  {
  }

  /** Other steps save nothing of the task. */
  lemma QuietReports(first: System, s: System, step: Step, task: string)
    requires UsageInv(first, s) && Enabled(s, step) && !step.Save?
    ensures Reported(Apply(s, step), task) == Reported(s, task)
    ensures UsageBy(first, Apply(s, step), task, |Apply(s, step).saves|) == UsageBy(first, s, task, |s.saves|)
  {
    SavesBySaving(s, step);
    UsageStays(first, s, step, task, |s.saves|);
    SavedCallsStay(s, step);
    ReportsAreStable(s.calls, Apply(s, step).calls, s.saves, task);
  }

  lemma OtherSave(first: System, s: System, id: nat, acknowledged: bool, task: string)
    requires UsageInv(first, s) && Enabled(s, Save(id, acknowledged)) && s.calls[id].task != task
    ensures var t := Apply(s, Save(id, acknowledged));
            && Reported(t, task) == Reported(s, task)
            && UsageBy(first, t, task, |t.saves|) == UsageBy(first, s, task, |s.saves|)
  {
    SaveAppends(first, s, id, acknowledged, task);
    UsageStays(first, s, Save(id, acknowledged), task, |s.saves|);
  }

  lemma StoreStays(s: System, step: Step, task: string)
    requires Enabled(s, step)
    requires step.Save? ==> s.calls[step.id].task != task
    ensures Stored(Apply(s, step), task) == Stored(s, task)
  {
  }

  lemma QuietUsage(first: System, s: System, step: Step, task: string)
    requires UsageInv(first, s) && Enabled(s, step)
    requires step.Save? ==> s.calls[step.id].task != task
    ensures UsageOk(first, Apply(s, step), task)
  {
    if step.Save? {
      OtherSave(first, s, step.id, step.acknowledged, task);
    } else {
      QuietReports(first, s, step, task);
    }
    StoreStays(s, step, task);
    SameUsage(first, s, Apply(s, step), task);
  }

  lemma StepReport(first: System, s: System, step: Step, id: nat)
    requires UsageInv(first, s) && Enabled(s, step) && LeavesUsage(step) && id in Apply(s, step).calls
    ensures ReportOk(first, Apply(s, step), id)
  {
    var c := Apply(s, step).calls[id];
    if id in s.calls {
      assert ReportOk(first, s, id) && UsageOk(first, s, c.task);
      if InFlight(c) {
        UsageStays(first, s, step, c.task, c.start);
      }
    }
  }

  lemma StepUsage(first: System, s: System, step: Step)
    requires UsageInv(first, s) && Enabled(s, step) && LeavesUsage(step)
    ensures UsageInv(first, Apply(s, step))
  {
    var t := Apply(s, step);
    StepInv(first, s, step);
    StepSaves(first, s, step);
    forall id | id in t.calls
      ensures ReportOk(first, t, id)
    {
      StepReport(first, s, step, id);
    }
    forall task
      ensures UsageOk(first, t, task)
    {
      if step.Save? && s.calls[step.id].task == task {
        if s.calls[step.id].reported.Some? {
          SaveReport(first, s, step.id, step.acknowledged);
        } else {
          SaveMerge(first, s, step.id, step.acknowledged);
        }
      } else {
        QuietUsage(first, s, step, task);
      }
    }
  }

  lemma {:induction false} RunUsage(first: System, s: System, steps: seq<Step>, t: System)
    requires UsageInv(first, s) && Leads(s, steps, t)
    requires forall i :: 0 <= i < |steps| ==> LeavesUsage(steps[i])
    ensures UsageInv(first, t)
    decreases |steps|
  {
    if steps != [] {
      StepUsage(first, s, steps[0]);
      RunUsage(first, Apply(s, steps[0]), steps[1..], t);
    }
  }

  /** A run in which only reports write the usage. */
  ghost predicate IsRun(first: System, steps: seq<Step>, s: System) {
    Init(first) && Leads(first, steps, s) && forall i :: 0 <= i < |steps| ==> LeavesUsage(steps[i])
  }

  lemma RunOk(first: System, steps: seq<Step>, s: System)
    requires IsRun(first, steps, s)
    ensures UsageInv(first, s)
  {
    InitInv(first);
    RunUsage(first, first, steps, s);
  }

  // ---- What holds in every run ----

  lemma StoredIsSumAll(first: System, steps: seq<Step>, s: System, task: string)
    requires IsRun(first, steps, s) && NoneOvertakes(s.calls, s.saves, task)
    ensures UsageIn(Stored(s, task)) == SumAll(UsageIn(Stored(first, task)), Reported(s, task))
  {
    RunOk(first, steps, s);
    assert UsageOk(first, s, task);
    SavesAddUp(s.calls, s.saves, task, BaseUsage(first, task), |s.saves|);
    assert s.saves[..|s.saves|] == s.saves;
  }

  /** In every run, whatever overtakes what: as soon as a report was saved, the stored status
      tells which of the stored counters are known; before, the stored usage is as it was. */
  lemma StoredStatusTells(first: System, steps: seq<Step>, s: System, task: string)
    requires IsRun(first, steps, s)
    ensures var now := Stored(s, task);
            if Reported(s, task) == [] then SameTokens(Stored(first, task), now)
            else TOKEN_USAGE in now && now[TOKEN_USAGE].Tokens? && StatusTells(now[TOKEN_USAGE].report)
  {
    RunOk(first, steps, s);
    assert UsageOk(first, s, task);
  }

  /** In every run in which no report of the task overtakes another, the stored usage is,
      counter by counter, what was there at the start plus everything that was saved since,
      and the stored status tells which counters the start or some report knows. */
  lemma StoredUsageIsTheSum(first: System, steps: seq<Step>, s: System, task: string)
    requires IsRun(first, steps, s) && NoneOvertakes(s.calls, s.saves, task)
    ensures Conserves(Stored(first, task), Stored(s, task), Reported(s, task))
  {
    var base, reports := UsageIn(Stored(first, task)), Reported(s, task);
    StoredIsSumAll(first, steps, s, task);
    StoredStatusTells(first, steps, s, task);
    forall k
      ensures Read(UsageIn(Stored(s, task)), k) ==
              if IsKnown(base, reports, k) then Some(OrZero(Read(base, k)) + KnownSum(reports, k)) else None
    {
      SumIsComponentwise(base, reports, k);
    }
    if reports != [] {
      StatusTellsOfSum(base, reports, Stored(s, task)[TOKEN_USAGE].report);
    }
  }

  /** For reports of at least one token: the stored usage is the sum of all saved reports
      exactly when no report of the task is saved between the read and the save of another.
      If one is, the stored usage is too small, and no later report makes up for it. */
  lemma UsageIsConservedExactly(first: System, steps: seq<Step>, s: System, task: string)
    requires IsRun(first, steps, s) && AllPositive(s.calls, s.saves, task)
    ensures UsageIn(Stored(s, task)) == SumAll(UsageIn(Stored(first, task)), Reported(s, task))
       <==> NoneOvertakes(s.calls, s.saves, task)
    ensures !NoneOvertakes(s.calls, s.saves, task) ==>
              Weight(UsageIn(Stored(s, task))) < Weight(SumAll(UsageIn(Stored(first, task)), Reported(s, task)))
  {
    RunOk(first, steps, s);
    assert UsageOk(first, s, task);
    assert s.saves[..|s.saves|] == s.saves;
    if NoneOvertakes(s.calls, s.saves, task) {
      StoredIsSumAll(first, steps, s, task);
    } else {
      OvertakingLoses(s.calls, s.saves, task, BaseUsage(first, task), |s.saves|);
    }
  }

  // ---- Reports one at a time ----

  ghost predicate NoneInFlight(s: System, task: string) {
    forall id :: id in s.calls && s.calls[id].task == task ==> !InFlight(s.calls[id])
  }

  /** No report of a task reads the usage while another is in flight. */
  ghost predicate IsSerial(s: System, steps: seq<Step>)
    decreases |steps|
  {
    steps != [] && Enabled(s, steps[0]) ==>
      && (steps[0].Peek? ==> NoneInFlight(s, s.calls[steps[0].id].task))
      && IsSerial(Apply(s, steps[0]), steps[1..])
  }

  /** Since a report in flight read the usage, no other report of its task was saved. */
  ghost predicate IsAlone(s: System, id: nat)
    requires id in s.calls
  {
    var c := s.calls[id];
    InFlight(c) ==>
      && (forall j :: c.start <= j < |s.saves| ==> !IsReport(s.calls, s.saves[j], c.task))
      && (forall other :: other in s.calls && other != id && s.calls[other].task == c.task ==>
            !InFlight(s.calls[other]))
  }

  ghost predicate SerialInv(first: System, s: System) {
    && UsageInv(first, s)
    && (forall id :: id in s.calls ==> IsAlone(s, id))
    && (forall task :: NoneOvertakes(s.calls, s.saves, task))
  }

  lemma NoneSavedMeanwhile(first: System, s: System, step: Step, id: nat)
    requires SerialInv(first, s) && Enabled(s, step) && id in Apply(s, step).calls
    requires InFlight(Apply(s, step).calls[id])
    ensures var t := Apply(s, step);
            forall j :: t.calls[id].start <= j < |t.saves| ==> !IsReport(t.calls, t.saves[j], t.calls[id].task)
  {
    var t := Apply(s, step);
    SavedCallsStay(s, step);
    assert IsAlone(s, id);
    if step.Save? {
      assert IsAlone(s, step.id);
    }
    forall j | t.calls[id].start <= j < |t.saves|
      ensures !IsReport(t.calls, t.saves[j], t.calls[id].task)
    {
      assert j < |s.saves| ==> SameReport(s.calls, t.calls, s.saves[j]);
    }
  }

  lemma InFlightBefore(s: System, step: Step, id: nat)
    requires Enabled(s, step) && id in Apply(s, step).calls
    ensures InFlight(Apply(s, step).calls[id]) ==> id in s.calls && (InFlight(s.calls[id]) || step == Peek(id))
  {
  }

  lemma StepAlone(first: System, s: System, step: Step, id: nat)
    requires SerialInv(first, s) && Enabled(s, step) && id in Apply(s, step).calls
    requires step.Peek? ==> NoneInFlight(s, s.calls[step.id].task)
    ensures IsAlone(Apply(s, step), id)
  {
    var t := Apply(s, step);
    if InFlight(t.calls[id]) {
      NoneSavedMeanwhile(first, s, step, id);
      forall other | other in t.calls && other != id && t.calls[other].task == t.calls[id].task
        ensures !InFlight(t.calls[other])
      {
        assert IsAlone(s, id);
        InFlightBefore(s, step, other);
      }
    }
  }

  lemma StepOvertakesNone(first: System, s: System, step: Step, task: string)
    requires SerialInv(first, s) && Enabled(s, step)
    ensures NoneOvertakes(Apply(s, step).calls, Apply(s, step).saves, task)
  {
    var t := Apply(s, step);
    assert NoneOvertakes(s.calls, s.saves, task);
    SavedCallsStay(s, step);
    forall i, j | 0 <= j < i < |t.saves|
      ensures !Overtakes(t.calls, t.saves, task, j, i)
    {
      assert SameReport(s.calls, t.calls, s.saves[j]);
      if i < |s.saves| {
        assert SameReport(s.calls, t.calls, s.saves[i]);
        assert !Overtakes(s.calls, s.saves, task, j, i);
      } else {
        assert IsAlone(s, step.id);
      }
    }
  }

  lemma {:induction false} SerialRun(first: System, s: System, steps: seq<Step>, t: System)
    requires SerialInv(first, s) && Leads(s, steps, t) && IsSerial(s, steps)
    requires forall i :: 0 <= i < |steps| ==> LeavesUsage(steps[i])
    ensures SerialInv(first, t)
    decreases |steps|
  {
    if steps != [] {
      var next := Apply(s, steps[0]);
      StepUsage(first, s, steps[0]);
      forall id | id in next.calls
        ensures IsAlone(next, id)
      {
        StepAlone(first, s, steps[0], id);
      }
      forall task
        ensures NoneOvertakes(next.calls, next.saves, task)
      {
        StepOvertakesNone(first, s, steps[0], task);
      }
      SerialRun(first, next, steps[1..], t);
    }
  }

  /** One instance: reports that run one at a time are conserved. */
  lemma SerialReportsAreConserved(first: System, steps: seq<Step>, s: System, task: string)
    requires IsRun(first, steps, s) && IsSerial(first, steps)
    ensures Conserves(Stored(first, task), Stored(s, task), Reported(s, task))
  {
    InitInv(first);
    SerialRun(first, first, steps, s);
    StoredUsageIsTheSum(first, steps, s, task);
  }

  // ---- One report as it runs ----

  /** The accumulator: it reads the usage, and then merges the new sum. `between` are the
      patches that others merge meanwhile. */
  method Accumulate(state: DaprStateStore, task: string, usage: Usage, between: seq<Patch>)
    modifies state
    ensures state.State(task) == MergeAll(old(state.State(task)), between) + UsagePatch(old(state.State(task)), usage)
    ensures forall other :: other != task ==> state.State(other) == old(state.State(other))
    ensures UsageIn(state.State(task)) == Sum(UsageIn(old(state.State(task))), usage)
    ensures var now := state.State(task);
            TOKEN_USAGE in now && now[TOKEN_USAGE].Tokens? && StatusTells(now[TOKEN_USAGE].report)
  {
    var merged := UsagePatch(state.State(task), usage);
    state.MergeEach(task, between);
    state.MergeTaskRuntimeState(task, merged);
  }

  // ---- Overlap ----

  lemma LeadsStep(s: System, step: Step, rest: seq<Step>, t: System)
    requires Enabled(s, step) && Leads(Apply(s, step), rest, t)
    ensures Leads(s, [step] + rest, t)
  {
    assert ([step] + rest)[1..] == rest;
  }

  lemma {:induction false} LeadsOn(s: System, steps: seq<Step>, t: System, more: seq<Step>, u: System)
    requires Leads(s, steps, t) && Leads(t, more, u)
    ensures Leads(s, steps + more, u)
    decreases |steps|
  {
    FirstThenRest(steps, more);
    if steps != [] {
      LeadsOn(Apply(s, steps[0]), steps[1..], t, more, u);
      LeadsStep(s, steps[0], steps[1..] + more, u);
    }
  }

  lemma TwoSteps(s: System, first: Step, second: Step)
    requires Enabled(s, first) && Enabled(Apply(s, first), second)
    ensures Leads(s, [first, second], Apply(Apply(s, first), second))
  {
    var last := Apply(Apply(s, first), second);
    LeadsStep(Apply(s, first), second, [], last);
    LeadsStep(s, first, [second], last);
    assert [first] + [second] == [first, second];
  }

  /** A waiting call takes the free lock, and merges its patch. */
  lemma Deposit(s: System, id: nat) returns (steps: seq<Step>, t: System)
    requires id in s.calls && s.calls[id].phase.Waiting? && s.calls[id].task !in s.locks
    ensures Leads(s, steps, t)
    ensures var task := s.calls[id].task;
            && Stored(t, task) == Stored(s, task) + s.calls[id].patch && task !in t.locks
            && t.calls == s.calls[id := s.calls[id].(phase := Saved(true))] && t.saves == s.saves + [id]
  {
    var held := Apply(s, Acquire(id));
    var loaded := Apply(held, Get(id));
    t := Apply(loaded, Save(id, true));
    TwoSteps(held, Get(id), Save(id, true));
    LeadsStep(s, Acquire(id), [Get(id), Save(id, true)], t);
    steps := [Acquire(id)] + [Get(id), Save(id, true)];
  }

  lemma BothStart(s: System, task: string, x: nat, y: nat, a: Usage, b: Usage) returns (steps: seq<Step>, t: System)
    requires x != y && x !in s.calls && y !in s.calls && a != NOTHING && b != NOTHING
    ensures Leads(s, steps, t)
    ensures t == s.(calls := s.calls[x := Call(task, map[], Some(a), 0, Peeking)]
                                    [y := Call(task, map[], Some(b), 0, Peeking)])
  {
    TwoSteps(s, StartReport(x, task, a), StartReport(y, task, b));
    t := Apply(Apply(s, StartReport(x, task, a)), StartReport(y, task, b));
    steps := [StartReport(x, task, a), StartReport(y, task, b)];
  }

  /** Two reports of a task both read the stored usage. */
  lemma BothPeek(s: System, task: string, x: nat, y: nat, a: Usage, b: Usage) returns (steps: seq<Step>, t: System)
    requires x != y && x !in s.calls && y !in s.calls && a != NOTHING && b != NOTHING
    ensures Leads(s, steps, t)
    ensures t.store == s.store && t.locks == s.locks && t.saves == s.saves && x in t.calls && y in t.calls
    ensures t.calls[x] == Call(task, UsagePatch(Stored(s, task), a), Some(a), |s.saves|, Waiting)
    ensures t.calls[y] == Call(task, UsagePatch(Stored(s, task), b), Some(b), |s.saves|, Waiting)
  {
    var started, u := BothStart(s, task, x, y, a, b);
    TwoSteps(u, Peek(x), Peek(y));
    t := Apply(Apply(u, Peek(x)), Peek(y));
    LeadsOn(s, started, u, [Peek(x), Peek(y)], t);
    steps := started + [Peek(x), Peek(y)];
  }

  lemma AllThree(s: System, start: seq<Step>, t: System, middle: seq<Step>, u: System, last: seq<Step>, v: System)
    requires Leads(s, start, t) && Leads(t, middle, u) && Leads(u, last, v)
    ensures Leads(s, start + (middle + last), v)
  {
    LeadsOn(t, middle, u, last, v);
    LeadsOn(s, start, t, middle + last, v);
  }

  lemma SecondCounts(before: Patch, a: Usage, b: Usage)
    ensures UsageIn(before + UsagePatch(before, a) + UsagePatch(before, b)) == Sum(UsageIn(before), b)
  {
  }

  /** From any state whose lock for the task is free, two overlapping reports can both be
      saved: the second overtakes the first, and the stored usage has grown by the second
      one alone. */
  lemma OverlappingReportsLoseOne(s: System, task: string, x: nat, y: nat, a: Usage, b: Usage)
    returns (steps: seq<Step>, t: System)
    requires task !in s.locks && x != y && x !in s.calls && y !in s.calls && a != NOTHING && b != NOTHING
    ensures Leads(s, steps, t) && t.saves == s.saves + [x, y]
    ensures Overtakes(t.calls, t.saves, task, |s.saves|, |s.saves| + 1)
    ensures UsageIn(Stored(t, task)) == Sum(UsageIn(Stored(s, task)), b)
  {
    var start, peeked := BothPeek(s, task, x, y, a, b);
    var middle, one := Deposit(peeked, x);
    var last, both := Deposit(one, y);
    t := both;
    AllThree(s, start, peeked, middle, one, last, t);
    steps := start + (middle + last);
    SecondCounts(Stored(s, task), a, b);
    assert t.saves == s.saves + [x, y];
  }
}
