/** Token usage of a task: three optional counters, and a status that says which are known. */
module TokenUsage {
  import opened Wrappers

  datatype Usage = Usage(prompt: Option<int>, completion: Option<int>, total: Option<int>)

  datatype UsageStatus = Known | Partial | Unknown

  /** A stored value, as the task's runtime state holds it. */
  datatype Report = Report(usage: Usage, status: UsageStatus)

  const NOTHING := Usage(None, None, None)

  function OrZero(n: Option<int>): int {
    if n.Some? then n.value else 0
  }

  function SumOptional(left: Option<int>, right: Option<int>): Option<int> {
    if left.None? && right.None? then None else Some(OrZero(left) + OrZero(right))
  }

  function DeriveStatus(u: Usage): UsageStatus {
    if u.prompt.None? && u.completion.None? && u.total.None? then Unknown
    else if u.prompt.Some? && u.completion.Some? && u.total.Some? then Known
    else Partial
  }

  function Sum(a: Usage, b: Usage): Usage {
    Usage(SumOptional(a.prompt, b.prompt), SumOptional(a.completion, b.completion), SumOptional(a.total, b.total))
  }

  function MergeTokenUsage(existing: Usage, incoming: Usage): Report {
    var sum := Sum(existing, incoming);
    Report(sum, DeriveStatus(sum))
  }

  /** The usages in `us`, merged into `base` one after another. */
  function SumAll(base: Usage, us: seq<Usage>): Usage {
    if us == [] then base else Sum(SumAll(base, us[..|us| - 1]), us[|us| - 1])
  }

  // ---- Laws ----

  lemma SumIsCommutativeMonoid(a: Usage, b: Usage, c: Usage)
    ensures Sum(Sum(a, b), c) == Sum(a, Sum(b, c))
    ensures Sum(a, b) == Sum(b, a)
    ensures Sum(a, NOTHING) == a == Sum(NOTHING, a)
  {
  }

  lemma SumAllSnoc(base: Usage, us: seq<Usage>, u: Usage)
    ensures SumAll(base, us + [u]) == Sum(SumAll(base, us), u)
  {
    assert (us + [u])[..|us|] == us;
  }

  /** The order of reports does not matter: two neighbours may be swapped anywhere. */
  lemma {:induction false} SumAllSwap(base: Usage, before: seq<Usage>, a: Usage, b: Usage, after: seq<Usage>)
    ensures SumAll(base, before + [a, b] + after) == SumAll(base, before + [b, a] + after)
    decreases |after|
  {
    if after == [] {
      SumAllSnoc(base, before, a);
      SumAllSnoc(base, before + [a], b);
      SumAllSnoc(base, before, b);
      SumAllSnoc(base, before + [b], a);
      assert before + [a, b] + after == before + [a] + [b] && before + [b, a] + after == before + [b] + [a];
    } else {
      var init, last := after[..|after| - 1], after[|after| - 1];
      SumAllSwap(base, before, a, b, init);
      SumAllSnoc(base, before + [a, b] + init, last);
      SumAllSnoc(base, before + [b, a] + init, last);
      assert before + [a, b] + after == before + [a, b] + init + [last];
      assert before + [b, a] + after == before + [b, a] + init + [last];
    }
  }

  datatype Counter = Prompt | Completion | Total

  function Read(u: Usage, k: Counter): Option<int> {
    match k
    case Prompt => u.prompt
    case Completion => u.completion
    case Total => u.total
  }

  function KnownSum(us: seq<Usage>, k: Counter): int {
    if us == [] then 0 else OrZero(Read(us[0], k)) + KnownSum(us[1..], k)
  }

  /** The start or some report knows the counter. */
  predicate IsKnown(base: Usage, us: seq<Usage>, k: Counter) {
    Read(base, k).Some? || exists i :: 0 <= i < |us| && Read(us[i], k).Some?
  }

  lemma {:induction false} KnownSumSnoc(us: seq<Usage>, u: Usage, k: Counter)
    ensures KnownSum(us + [u], k) == KnownSum(us, k) + OrZero(Read(u, k))
  {
    if us == [] {
      assert (us + [u])[1..] == [];
    } else {
      assert (us + [u])[1..] == us[1..] + [u];
      KnownSumSnoc(us[1..], u, k);
    }
  }

  lemma IsKnownSnoc(base: Usage, us: seq<Usage>, u: Usage, k: Counter)
    ensures IsKnown(base, us + [u], k) <==> IsKnown(base, us, k) || Read(u, k).Some?
  {
    var longer := us + [u];
    assert longer[|us|] == u;
    if i :| 0 <= i < |us| && Read(us[i], k).Some? {
      assert longer[i] == us[i];
    }
  }

  lemma ReadOfSum(a: Usage, b: Usage, k: Counter)
    ensures Read(Sum(a, b), k) == SumOptional(Read(a, k), Read(b, k))
  {
  }

  /** Counter by counter: what was there and what was reported is added up, nothing else is, and
      a counter is known as soon as the start or one report knows it. */
  lemma {:induction false} SumIsComponentwise(base: Usage, us: seq<Usage>, k: Counter)
    ensures Read(SumAll(base, us), k) ==
            if IsKnown(base, us, k) then Some(OrZero(Read(base, k)) + KnownSum(us, k)) else None
    ensures !IsKnown(base, us, k) ==> KnownSum(us, k) == 0
    decreases |us|
  {
    if us != [] {
      var init, last := us[..|us| - 1], us[|us| - 1];
      SumIsComponentwise(base, init, k);
      assert init + [last] == us;
      KnownSumSnoc(init, last, k);
      IsKnownSnoc(base, init, last, k);
      ReadOfSum(SumAll(base, init), last, k);
    }
  }

  // ---- What the status says ----

  /** `Known` says that all counters are known, `Unknown` that none is; all else is `Partial`. */
  predicate StatusTells(r: Report) {
    && (r.status == Known <==> r.usage.prompt.Some? && r.usage.completion.Some? && r.usage.total.Some?)
    && (r.status == Unknown <==> r.usage.prompt.None? && r.usage.completion.None? && r.usage.total.None?)
  }

  /** The same, said of what was there and what was reported. */
  ghost predicate StatusTellsAll(status: UsageStatus, base: Usage, us: seq<Usage>) {
    && (status == Known <==> forall k :: IsKnown(base, us, k))
    && (status == Unknown <==> forall k :: !IsKnown(base, us, k))
  }

  /** Whatever is merged: the status tells which counters of the result are known, and those are
      the ones known on either side. */
  lemma MergedStatusTells(existing: Usage, incoming: Usage)
    ensures var merged := MergeTokenUsage(existing, incoming);
            && StatusTells(merged)
            && forall k :: Read(merged.usage, k).Some? <==> Read(existing, k).Some? || Read(incoming, k).Some?
  {
  }

  lemma StatusTellsOfSum(base: Usage, us: seq<Usage>, r: Report)
    requires StatusTells(r) && r.usage == SumAll(base, us)
    ensures StatusTellsAll(r.status, base, us)
  {
    forall k
      ensures Read(r.usage, k).Some? <==> IsKnown(base, us, k)
    {
      SumIsComponentwise(base, us, k);
    }
    assert r.usage.prompt == Read(r.usage, Prompt) && r.usage.completion == Read(r.usage, Completion);
    assert r.usage.total == Read(r.usage, Total);
  }
}
