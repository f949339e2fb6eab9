/**
 Merging a call's pending writes into the entries already stored for a checkpoint.

 `special` is LangGraph's map from its special channels to (negative) write indices.
 */
module PendingWrites {
  import opened Wrappers

  datatype Entry = Entry(taskId: string, idx: int, channel: string, value: string, taskPath: string)

  datatype Write = Write(channel: string, value: string)

  datatype Key = Key(taskId: string, idx: int)

  function KeyOf(e: Entry): Key {
    Key(e.taskId, e.idx)
  }

  /** The entry of the `k`-th write of a call. */
  function EntryAt(special: map<string, int>, writes: seq<Write>, taskId: string, taskPath: string, k: nat): Entry
    requires k < |writes|
  {
    var w := writes[k];
    Entry(taskId, if w.channel in special then special[w.channel] else k, w.channel, w.value, taskPath)
  }

  function EntriesOf(special: map<string, int>, writes: seq<Write>, taskId: string, taskPath: string): (es: seq<Entry>)
    ensures |es| == |writes| && forall k :: 0 <= k < |es| ==> es[k].taskId == taskId
  {
    seq(|writes|, k requires 0 <= k < |writes| => EntryAt(special, writes, taskId, taskPath, k))
  }

  predicate Has(entries: seq<Entry>, key: Key) {
    exists i :: 0 <= i < |entries| && KeyOf(entries[i]) == key
  }

  /** An entry whose index is not negative is stored once per key; the others always. */
  function Add(entries: seq<Entry>, e: Entry): seq<Entry> {
    if e.idx >= 0 && Has(entries, KeyOf(e)) then entries else entries + [e]
  }

  function Merge(existing: seq<Entry>, es: seq<Entry>): seq<Entry>
    decreases |es|
  {
    if es == [] then existing else Merge(Add(existing, es[0]), es[1..])
  }

  // ---- What a merge stores, on the fields of its entries ----

  /** A write goes under its channel's special index, or under its place in the call. */
  function WriteIndex(special: map<string, int>, writes: seq<Write>, k: nat): int
    requires k < |writes|
  {
    var channel := writes[k].channel;
    if channel in special then special[channel] else k
  }

  /** `e` is the `k`-th write of the call. */
  predicate Records(special: map<string, int>, writes: seq<Write>, taskId: string, taskPath: string, k: nat, e: Entry)
    requires k < |writes|
  {
    && e.channel == writes[k].channel && e.value == writes[k].value
    && e.taskId == taskId && e.taskPath == taskPath && e.idx == WriteIndex(special, writes, k)
  }

  /** Writes with a negative index are always stored; others only if their index is neither
      stored for this LangGraph task nor that of an earlier write. */
  ghost predicate IsNew(special: map<string, int>, existing: seq<Entry>, writes: seq<Write>, taskId: string, k: nat)
    requires k < |writes|
  {
    var idx := WriteIndex(special, writes, k);
    idx < 0
    || ((forall i :: 0 <= i < |existing| && existing[i].taskId == taskId ==> existing[i].idx != idx)
        && forall j :: 0 <= j < k ==> WriteIndex(special, writes, j) != idx)
  }

  /** `merged` is `existing`, and behind it the new ones of the first `n` writes, in order. */
  ghost predicate Appends(special: map<string, int>, existing: seq<Entry>, writes: seq<Write>, taskId: string,
                          taskPath: string, n: nat, merged: seq<Entry>, ks: seq<nat>)
    requires n <= |writes|
  {
    && |merged| == |existing| + |ks| && merged[..|existing|] == existing
    && (forall i :: 0 <= i < |ks| ==>
          && ks[i] < n && IsNew(special, existing, writes, taskId, ks[i])
          && Records(special, writes, taskId, taskPath, ks[i], merged[|existing| + i]))
    && (forall i, j :: 0 <= i < j < |ks| ==> ks[i] < ks[j])
    && (forall k :: 0 <= k < n && IsNew(special, existing, writes, taskId, k) ==> k in ks)
  }

  /** The merge as the saver runs it: a copy of the entries, and an index of their keys. */
  method MergePendingWrites(special: map<string, int>, existing: seq<Entry>, writes: seq<Write>,
                            taskId: string, taskPath: string)
    returns (merged: seq<Entry>)
    ensures merged == Merge(existing, EntriesOf(special, writes, taskId, taskPath))
    ensures exists ks :: Appends(special, existing, writes, taskId, taskPath, |writes|, merged, ks)
  {
    merged := existing;
    var existingIndex: map<Key, nat> := map[];
    for i := 0 to |existing|
      invariant forall key :: key in existingIndex <==> Has(existing[..i], key)
    {
      assert existing[..i + 1] == existing[..i] + [existing[i]];
      HasAppend(existing[..i], existing[i]);
      existingIndex := existingIndex[KeyOf(existing[i]) := i];
    }
    assert existing[..|existing|] == existing;
    ghost var es := EntriesOf(special, writes, taskId, taskPath);
    assert es[0..] == es;
    for idx := 0 to |writes|
      invariant Merge(existing, es) == Merge(merged, es[idx..])
      invariant forall key :: key in existingIndex <==> Has(merged, key)
    {
      var entry := EntryAt(special, writes, taskId, taskPath, idx);
      assert es[idx] == entry && es[idx..][1..] == es[idx + 1..];
      if entry.idx >= 0 && KeyOf(entry) in existingIndex {
        continue;
      }
      HasAppend(merged, entry);
      merged := merged + [entry];
      existingIndex := existingIndex[KeyOf(entry) := |merged| - 1];
    }
    ghost var ks := MergeStoresNewWrites(special, existing, writes, taskId, taskPath);
  }

  lemma HasAppend(entries: seq<Entry>, e: Entry)
    ensures forall key :: Has(entries + [e], key) <==> Has(entries, key) || key == KeyOf(e)
  {
    var longer := entries + [e];
    assert longer[|entries|] == e;
    forall key | Has(entries, key)
      ensures Has(longer, key)
    {
      var i :| 0 <= i < |entries| && KeyOf(entries[i]) == key;
      assert longer[i] == entries[i];
    }
    forall key | Has(longer, key)
      ensures Has(entries, key) || key == KeyOf(e)
    {
      var i :| 0 <= i < |longer| && KeyOf(longer[i]) == key;
      assert i < |entries| ==> entries[i] == longer[i];
    }
  }

  // ---- Laws of merging ----

  /** What is stored stays where it is; a merge only appends. */
  lemma {:induction false} MergeAppends(existing: seq<Entry>, es: seq<Entry>)
    ensures existing <= Merge(existing, es)
    decreases |es|
  {
    if es != [] {
      MergeAppends(Add(existing, es[0]), es[1..]);
    }
  }

  /** The stored entry of a key is the first one with that key. */
  function Lookup(entries: seq<Entry>, key: Key): Option<Entry> {
    if entries == [] then None
    else if KeyOf(entries[0]) == key then Some(entries[0])
    else Lookup(entries[1..], key)
  }

  lemma {:induction false} LookupHas(entries: seq<Entry>, key: Key)
    ensures Lookup(entries, key).Some? <==> Has(entries, key)
  {
    if entries != [] {
      LookupHas(entries[1..], key);
      if Has(entries[1..], key) {
        var i :| 0 <= i < |entries[1..]| && KeyOf(entries[1..][i]) == key;
        assert KeyOf(entries[i + 1]) == key;
      }
      if Has(entries, key) && KeyOf(entries[0]) != key {
        var i :| 0 <= i < |entries| && KeyOf(entries[i]) == key;
        assert KeyOf(entries[1..][i - 1]) == key;
      }
    }
  }

  function OrElse(first: Option<Entry>, second: Option<Entry>): Option<Entry> {
    if first.Some? then first else second
  }

  lemma {:induction false} LookupAppend(entries: seq<Entry>, e: Entry, key: Key)
    ensures Lookup(entries + [e], key) == OrElse(Lookup(entries, key), if KeyOf(e) == key then Some(e) else None)
  {
    if entries != [] {
      assert (entries + [e])[1..] == entries[1..] + [e];
      LookupAppend(entries[1..], e, key);
    } else {
      assert (entries + [e])[1..] == [];
    }
  }

  /** First write wins: a merge keeps the entry of a stored key, and gives a new key the
      first entry the call has for it. */
  lemma {:induction false} FirstWriteWins(existing: seq<Entry>, es: seq<Entry>, key: Key)
    requires key.idx >= 0
    ensures Lookup(Merge(existing, es), key) == OrElse(Lookup(existing, key), Lookup(es, key))
    decreases |es|
  {
    if es != [] {
      var e := es[0];
      FirstWriteWins(Add(existing, e), es[1..], key);
      LookupAppend(existing, e, key);
      LookupHas(existing, key);
    }
  }

  /** Every key of the call with a non-negative index is stored after the merge. */
  lemma MergeStoresAll(existing: seq<Entry>, es: seq<Entry>, k: nat)
    requires k < |es| && es[k].idx >= 0
    ensures Has(Merge(existing, es), KeyOf(es[k]))
  {
    var key := KeyOf(es[k]);
    FirstWriteWins(existing, es, key);
    LookupHas(es, key);
    LookupHas(Merge(existing, es), key);
  }

  lemma {:induction false} MergeOneMore(existing: seq<Entry>, es: seq<Entry>, e: Entry)
    ensures Merge(existing, es + [e]) == Add(Merge(existing, es), e)
    decreases |es|
  {
    if es == [] {
      assert [] + [e] == [e] && [e][1..] == [];
    } else {
      assert (es + [e])[1..] == es[1..] + [e];
      MergeOneMore(Add(existing, es[0]), es[1..], e);
    }
  }

  /** What the writes before the `n`-th have stored decides whether that one is new. */
  lemma IsNewExactly(special: map<string, int>, existing: seq<Entry>, writes: seq<Write>, taskId: string,
                     taskPath: string, n: nat, merged: seq<Entry>, ks: seq<nat>)
    requires n < |writes| && Appends(special, existing, writes, taskId, taskPath, n, merged, ks)
    requires forall k :: 0 <= k < n && WriteIndex(special, writes, k) >= 0 ==>
               Has(merged, Key(taskId, WriteIndex(special, writes, k)))
    ensures var idx := WriteIndex(special, writes, n);
            IsNew(special, existing, writes, taskId, n) <==> !(idx >= 0 && Has(merged, Key(taskId, idx)))
  {
    var idx := WriteIndex(special, writes, n);
    if idx >= 0 && Has(merged, Key(taskId, idx)) {
      var i :| 0 <= i < |merged| && KeyOf(merged[i]) == Key(taskId, idx);
      if i < |existing| {
        assert existing[i] == merged[i];
      } else {
        assert Records(special, writes, taskId, taskPath, ks[i - |existing|], merged[|existing| + (i - |existing|)]);
      }
    } else if idx >= 0 {
      forall i | 0 <= i < |existing| && existing[i].taskId == taskId
        ensures existing[i].idx != idx
      {
        assert KeyOf(merged[i]) == KeyOf(existing[i]);
      }
    }
  }

  lemma StoredBefore(special: map<string, int>, existing: seq<Entry>, writes: seq<Write>, taskId: string,
                     taskPath: string, n: nat)
    requires n <= |writes|
    ensures var merged := Merge(existing, EntriesOf(special, writes, taskId, taskPath)[..n]);
            forall k :: 0 <= k < n && WriteIndex(special, writes, k) >= 0 ==>
              Has(merged, Key(taskId, WriteIndex(special, writes, k)))
  {
    var es := EntriesOf(special, writes, taskId, taskPath);
    forall k | 0 <= k < n && WriteIndex(special, writes, k) >= 0
      ensures Has(Merge(existing, es[..n]), Key(taskId, WriteIndex(special, writes, k)))
    {
      assert es[..n][k] == es[k] && KeyOf(es[k]) == Key(taskId, WriteIndex(special, writes, k));
      MergeStoresAll(existing, es[..n], k);
    }
  }

  lemma AppendsMore(special: map<string, int>, existing: seq<Entry>, writes: seq<Write>, taskId: string,
                    taskPath: string, n: nat, merged: seq<Entry>, ks: seq<nat>, e: Entry)
    requires n < |writes| && Appends(special, existing, writes, taskId, taskPath, n, merged, ks)
    requires IsNew(special, existing, writes, taskId, n) && Records(special, writes, taskId, taskPath, n, e)
    ensures Appends(special, existing, writes, taskId, taskPath, n + 1, merged + [e], ks + [n])
  {
    assert (ks + [n])[|ks|] == n;
    forall k | 0 <= k < n + 1 && IsNew(special, existing, writes, taskId, k)
      ensures k in ks + [n]
    {
      assert k < n ==> k in ks;
    }
  }

  lemma AddsIfNew(special: map<string, int>, existing: seq<Entry>, writes: seq<Write>, taskId: string,
                  taskPath: string, n: nat, merged: seq<Entry>, ks: seq<nat>, e: Entry)
    returns (more: seq<nat>)
    requires n < |writes| && Appends(special, existing, writes, taskId, taskPath, n, merged, ks)
    requires forall k :: 0 <= k < n && WriteIndex(special, writes, k) >= 0 ==>
               Has(merged, Key(taskId, WriteIndex(special, writes, k)))
    requires Records(special, writes, taskId, taskPath, n, e)
    ensures Appends(special, existing, writes, taskId, taskPath, n + 1, Add(merged, e), more)
  {
    more := ks;
    IsNewExactly(special, existing, writes, taskId, taskPath, n, merged, ks);
    if IsNew(special, existing, writes, taskId, n) {
      AppendsMore(special, existing, writes, taskId, taskPath, n, merged, ks, e);
      more := ks + [n];
    }
  }

  lemma {:induction false} MergeStoresNewBefore(special: map<string, int>, existing: seq<Entry>, writes: seq<Write>,
                                                taskId: string, taskPath: string, n: nat)
    returns (ks: seq<nat>)
    requires n <= |writes|
    ensures Appends(special, existing, writes, taskId, taskPath, n,
                    Merge(existing, EntriesOf(special, writes, taskId, taskPath)[..n]), ks)
  {
    var es := EntriesOf(special, writes, taskId, taskPath);
    if n == 0 {
      ks := [];
    } else {
      ks := MergeStoresNewBefore(special, existing, writes, taskId, taskPath, n - 1);
      assert es[..n] == es[..n - 1] + [es[n - 1]];
      MergeOneMore(existing, es[..n - 1], es[n - 1]);
      StoredBefore(special, existing, writes, taskId, taskPath, n - 1);
      ks := AddsIfNew(special, existing, writes, taskId, taskPath, n - 1, Merge(existing, es[..n - 1]), ks, es[n - 1]);
    }
  }

  /** A merge stores exactly the new writes of the call, each with its own channel and value. */
  lemma MergeStoresNewWrites(special: map<string, int>, existing: seq<Entry>, writes: seq<Write>, taskId: string,
                             taskPath: string)
    returns (ks: seq<nat>)
    ensures Appends(special, existing, writes, taskId, taskPath, |writes|,
                    Merge(existing, EntriesOf(special, writes, taskId, taskPath)), ks)
  {
    var es := EntriesOf(special, writes, taskId, taskPath);
    assert es[..|writes|] == es;
    ks := MergeStoresNewBefore(special, existing, writes, taskId, taskPath, |writes|);
  }

  /** A new write is found under its key, and nothing else is. */
  lemma NewWritesAreFound(special: map<string, int>, existing: seq<Entry>, writes: seq<Write>, taskId: string,
                          taskPath: string, k: nat)
    requires k < |writes| && WriteIndex(special, writes, k) >= 0 && IsNew(special, existing, writes, taskId, k)
    ensures var merged := Merge(existing, EntriesOf(special, writes, taskId, taskPath));
            var found := Lookup(merged, Key(taskId, WriteIndex(special, writes, k)));
            found.Some? && Records(special, writes, taskId, taskPath, k, found.value)
  {
    var merged := Merge(existing, EntriesOf(special, writes, taskId, taskPath));
    var ks := MergeStoresNewWrites(special, existing, writes, taskId, taskPath);
    var i :| 0 <= i < |ks| && ks[i] == k;
    assert Records(special, writes, taskId, taskPath, ks[i], merged[|existing| + i]);
    var key := Key(taskId, WriteIndex(special, writes, k));
    assert KeyOf(merged[|existing| + i]) == key;
    LookupHas(merged, key);
    var at := LookupAt(merged, key);
    if at >= |existing| {
      assert Records(special, writes, taskId, taskPath, ks[at - |existing|], merged[|existing| + (at - |existing|)]);
    }
  }

  lemma {:induction false} LookupAt(entries: seq<Entry>, key: Key) returns (i: nat)
    requires Lookup(entries, key).Some?
    ensures i < |entries| && entries[i] == Lookup(entries, key).value && KeyOf(entries[i]) == key
  {
    if KeyOf(entries[0]) == key {
      i := 0;
    } else {
      i := LookupAt(entries[1..], key);
      i := i + 1;
    }
  }

  ghost predicate UniqueKeys(entries: seq<Entry>) {
    forall i, j :: 0 <= i < j < |entries| && entries[i].idx >= 0 ==> KeyOf(entries[i]) != KeyOf(entries[j])
  }

  lemma {:induction false} MergeKeepsUniqueKeys(existing: seq<Entry>, es: seq<Entry>)
    requires UniqueKeys(existing)
    ensures UniqueKeys(Merge(existing, es))
    decreases |es|
  {
    if es != [] {
      MergeKeepsUniqueKeys(Add(existing, es[0]), es[1..]);
    }
  }

  /** Merges of calls from different tasks commute, as maps from keys to entries. */
  lemma MergesCommute(existing: seq<Entry>, es1: seq<Entry>, es2: seq<Entry>, key: Key)
    requires forall i, j :: 0 <= i < |es1| && 0 <= j < |es2| ==> es1[i].taskId != es2[j].taskId
    requires key.idx >= 0
    ensures Lookup(Merge(Merge(existing, es1), es2), key) == Lookup(Merge(Merge(existing, es2), es1), key)
  {
    FirstWriteWins(existing, es1, key);
    FirstWriteWins(Merge(existing, es1), es2, key);
    FirstWriteWins(existing, es2, key);
    FirstWriteWins(Merge(existing, es2), es1, key);
    LookupHas(es1, key);
    LookupHas(es2, key);
  }

  lemma {:induction false} MergeOfStored(existing: seq<Entry>, es: seq<Entry>)
    requires forall k :: 0 <= k < |es| ==> es[k].idx >= 0 && Has(existing, KeyOf(es[k]))
    ensures Merge(existing, es) == existing
    decreases |es|
  {
    if es != [] {
      assert Add(existing, es[0]) == existing;
      MergeOfStored(existing, es[1..]);
    }
  }

  lemma {:induction false} MergeCountsNegatives(existing: seq<Entry>, es: seq<Entry>, k: nat)
    requires k < |es| && es[k].idx < 0
    ensures |Merge(existing, es)| > |existing|
    decreases |es|
  {
    MergeAppends(Add(existing, es[0]), es[1..]);
    if k > 0 {
      MergeCountsNegatives(Add(existing, es[0]), es[1..], k - 1);
    }
  }

  /** Merging a call twice is merging it once exactly when none of its indices is negative. */
  lemma RepeatedMergeIsNoOp(existing: seq<Entry>, es: seq<Entry>)
    ensures Merge(Merge(existing, es), es) == Merge(existing, es) <==> forall k :: 0 <= k < |es| ==> es[k].idx >= 0
  {
    var merged := Merge(existing, es);
    if forall k :: 0 <= k < |es| ==> es[k].idx >= 0 {
      forall k | 0 <= k < |es|
        ensures Has(merged, KeyOf(es[k]))
      {
        MergeStoresAll(existing, es, k);
      }
      MergeOfStored(merged, es);
    } else {
      var k :| 0 <= k < |es| && es[k].idx < 0;
      MergeCountsNegatives(merged, es, k);
    }
  }
}
