/**
 The checkpoint saver as an object over the state store: `Aput`, `AgetTuple`, and the retry
 loop of `AputWrites`.

 `CheckpointRun` and `WriteProtocol` interleave many callers in single steps; here one call
 runs to its end. A peer that saves between this call's read and its save is a parameter.
 */
module CheckpointSaver {
  import opened Sequences
  import opened Wrappers
  import opened TaskGraph
  import opened PendingWrites
  import opened CheckpointRun
  import Protocol = WriteProtocol

  datatype SaverError = MissingCheckpointId | WriteConflicts

  /** An absent or an empty id counts as none. */
  function GivenId(id: Option<string>): Option<string> {
    if id.Some? && id.value != "" then id else None
  }

  /** A store after `aput`: the blob is written, then the index names it. */
  function AfterPut(store: Store, id: string, c: Checkpoint): Store {
    Store(store.blobs[id := c], Some(id))
  }

  function Saved(blob: Protocol.Blob, entries: seq<Entry>): Protocol.Blob {
    Protocol.Present(entries, if blob.Absent? then 1 else blob.etag + 1)
  }

  /** The blob after a peer, if there is one, has merged its entries into it. */
  function Interfere(blob: Protocol.Blob, peer: Option<seq<Entry>>): Protocol.Blob {
    match peer
    case None => blob
    case Some(es) => Saved(blob, Merge(Protocol.EntriesIn(blob), es))
  }

  function PeerAt(peers: seq<Option<seq<Entry>>>, attempt: nat): Option<seq<Entry>> {
    if attempt < |peers| then peers[attempt] else None
  }

  class DaprCheckpointSaver {
    var threads: map<string, Store>
    var pending: map<(string, string), Protocol.Blob>

    ghost predicate Valid()
      reads this
    {
      forall t :: t in threads && threads[t].latest.Some? ==>
        threads[t].latest.value != "" && threads[t].latest.value in threads[t].blobs
    }

    constructor ()
      ensures Valid() && threads == map[] && pending == map[]
    {
      threads, pending := map[], map[];
    }

    function ThreadStore(threadId: string): Store
      reads this
    {
      if threadId in threads then threads[threadId] else Store(map[], None)
    }

    function PendingBlob(threadId: string, id: string): Protocol.Blob
      reads this
    {
      if (threadId, id) in pending then pending[(threadId, id)] else Protocol.Absent
    }

    /** Without an id the thread's latest checkpoint is looked up, by the id in its index. */
    method AgetTuple(threadId: string, checkpointId: Option<string>)
      returns (found: Option<Checkpoint>, writes: seq<Entry>)
      requires Valid()
      ensures checkpointId in {None, Some("")} ==> found == LatestCheckpoint(ThreadStore(threadId))
      ensures checkpointId in {None, Some("")} && ThreadStore(threadId).latest.Some? ==>
                found.Some? && writes == Protocol.EntriesIn(PendingBlob(threadId, ThreadStore(threadId).latest.value))
      ensures checkpointId !in {None, Some("")} ==>
                var id, blobs := checkpointId.value, ThreadStore(threadId).blobs;
                && found == (if id in blobs then Some(blobs[id]) else None)
                && (found.Some? ==> writes == Protocol.EntriesIn(PendingBlob(threadId, id)))
      decreases if GivenId(checkpointId).None? then 1 else 0
    {
      found, writes := None, [];
      var store := ThreadStore(threadId);
      if GivenId(checkpointId).Some? {
        var id := checkpointId.value;
        if id in store.blobs {
          found, writes := Some(store.blobs[id]), Protocol.EntriesIn(PendingBlob(threadId, id));
        }
        return;
      }
      if store.latest.Some? {
        found, writes := AgetTuple(threadId, store.latest);
      }
    }

    /** Afterwards the thread's latest lookup returns the checkpoint, whatever id it went
        under; other threads, and the thread's other blobs, are as before. */
    method Aput(threadId: string, configId: Option<string>, ownId: string, c: Checkpoint) returns (id: string)
      requires Valid() && ownId != ""
      modifies this`threads
      ensures Valid() && id == (if configId in {None, Some("")} then ownId else configId.value)
      ensures threads == old(threads)[threadId := AfterPut(old(ThreadStore(threadId)), id, c)]
      ensures LatestCheckpoint(ThreadStore(threadId)) == Some(c)
      ensures forall other :: other != threadId ==> ThreadStore(other) == old(ThreadStore(other))
    {
      id := if GivenId(configId).Some? then configId.value else ownId;
      var store := ThreadStore(threadId);
      threads := threads[threadId := store.(blobs := store.blobs[id := c])];
      store := ThreadStore(threadId);
      threads := threads[threadId := store.(latest := Some(id))];
    }

    /** Merges a call's writes into the entries of a checkpoint; after three conflicts the
        call raises. `peers[k]` are the entries that a peer saves during the `k`-th attempt. */
    method AputWrites(special: map<string, int>, threadId: string, checkpointId: Option<string>, writes: seq<Write>,
                      taskId: string, taskPath: string, peers: seq<Option<seq<Entry>>>)
      returns (r: Result<(), SaverError>)
      modifies this`pending
      ensures checkpointId in {None, Some("")} ==> r == Failure(MissingCheckpointId) && pending == old(pending)
      ensures checkpointId !in {None, Some("")} ==>
                var key := (threadId, checkpointId.value);
                var es := EntriesOf(special, writes, taskId, taskPath);
                var out := Attempts(old(PendingBlob(threadId, checkpointId.value)), es, peers, 0);
                && r == out.result
                && PendingBlob(threadId, checkpointId.value) == out.blob
                && (forall k :: k != key ==> (k in pending <==> k in old(pending)))
                && (forall k :: k != key && k in pending ==> pending[k] == old(pending[k]))
      ensures r == Failure(MissingCheckpointId) <==> checkpointId in {None, Some("")}
      ensures r.Success? ==>
                StoresCall(special, old(PendingBlob(threadId, checkpointId.value)), writes, taskId, taskPath, peers,
                           PendingBlob(threadId, checkpointId.value))
    {
      if GivenId(checkpointId).None? {
        return Failure(MissingCheckpointId);
      }
      ghost var blob := PendingBlob(threadId, checkpointId.value);
      CallStoresItsWrites(special, blob, writes, taskId, taskPath, peers);
      var key := (threadId, checkpointId.value);
      ghost var es := EntriesOf(special, writes, taskId, taskPath);
      ghost var first := PendingBlob(threadId, checkpointId.value);
      for attempt := 0 to Protocol.MAX_WRITE_RETRIES
        invariant Attempts(first, es, peers, 0)
               == Attempts(PendingBlob(threadId, checkpointId.value), es, peers, attempt)
        invariant forall k :: k != key ==> (k in pending <==> k in old(pending))
        invariant forall k :: k != key && k in pending ==> pending[k] == old(pending[k])
      {
        var read := PendingBlob(threadId, checkpointId.value);
        var merged := MergePendingWrites(special, Protocol.EntriesIn(read), writes, taskId, taskPath);
        var now := Interfere(read, PeerAt(peers, attempt));
        if Protocol.SaveSucceeds(now, Protocol.EtagOf(read)) {
          pending := pending[key := Saved(now, merged)];
          return Success(());
        }
        pending := pending[key := now];
      }
      return Failure(WriteConflicts);
    }
  }

  datatype Outcome = Outcome(blob: Protocol.Blob, result: Result<(), SaverError>)

  /** The attempts of a call from the `attempt`-th on. */
  function Attempts(blob: Protocol.Blob, es: seq<Entry>, peers: seq<Option<seq<Entry>>>, attempt: nat): Outcome
    requires attempt <= Protocol.MAX_WRITE_RETRIES
    decreases Protocol.MAX_WRITE_RETRIES - attempt
  {
    if attempt == Protocol.MAX_WRITE_RETRIES then Outcome(blob, Failure(WriteConflicts))
    else
      var now := Interfere(blob, PeerAt(peers, attempt));
      if Protocol.SaveSucceeds(now, Protocol.EtagOf(blob))
      then Outcome(Saved(now, Merge(Protocol.EntriesIn(blob), es)), Success(()))
      else Attempts(now, es, peers, attempt + 1)
  }

  /** The entries that `n` peers leave, one after another. */
  function AfterPeers(entries: seq<Entry>, peers: seq<Option<seq<Entry>>>, n: nat): seq<Entry> {
    if n == 0 then entries
    else
      var before := AfterPeers(entries, peers, n - 1);
      match PeerAt(peers, n - 1)
      case None => before
      case Some(es) => Merge(before, es)
  }

  predicate PeerIn(peers: seq<Option<seq<Entry>>>, attempt: nat) {
    PeerAt(peers, attempt).Some?
  }

  lemma {:induction false} AttemptsConflict(blob: Protocol.Blob, first: seq<Entry>, es: seq<Entry>,
                                            peers: seq<Option<seq<Entry>>>, attempt: nat)
    returns (n: nat)
    requires attempt <= Protocol.MAX_WRITE_RETRIES && blob.Present? && blob.entries == AfterPeers(first, peers, attempt)
    requires forall k :: 0 <= k < attempt ==> PeerIn(peers, k)
    ensures attempt <= n <= Protocol.MAX_WRITE_RETRIES && forall k :: 0 <= k < n ==> PeerIn(peers, k)
    ensures n < Protocol.MAX_WRITE_RETRIES ==> !PeerIn(peers, n)
    ensures var out := Attempts(blob, es, peers, attempt);
            if n == Protocol.MAX_WRITE_RETRIES
            then out.result == Failure(WriteConflicts) && Protocol.EntriesIn(out.blob) == AfterPeers(first, peers, n)
            else out.result == Success(()) && Protocol.EntriesIn(out.blob) == Merge(AfterPeers(first, peers, n), es)
    decreases Protocol.MAX_WRITE_RETRIES - attempt
  {
    if attempt == Protocol.MAX_WRITE_RETRIES || !PeerIn(peers, attempt) {
      n := attempt;
    } else {
      n := AttemptsConflict(Interfere(blob, PeerAt(peers, attempt)), first, es, peers, attempt + 1);
    }
  }

  /** A call raises exactly when the blob exists and a peer saves in each of its three
      attempts. It then adds nothing to what the peers stored; otherwise it merges its
      entries once, on top of the peers before it. If the blob does not exist, the first
      attempt succeeds, and what a peer stored meanwhile is gone. */
  lemma CallRaisesExactlyOnThreeConflicts(blob: Protocol.Blob, es: seq<Entry>, peers: seq<Option<seq<Entry>>>)
    ensures var out := Attempts(blob, es, peers, 0);
            && (out.result == Failure(WriteConflicts) <==>
                  blob.Present? && forall k :: 0 <= k < Protocol.MAX_WRITE_RETRIES ==> PeerIn(peers, k))
            && (out.result.Failure? ==>
                  Protocol.EntriesIn(out.blob) == AfterPeers(blob.entries, peers, Protocol.MAX_WRITE_RETRIES))
            && (out.result.Success? && blob.Present? ==>
                  exists n :: 0 <= n < Protocol.MAX_WRITE_RETRIES && !PeerIn(peers, n)
                    && Protocol.EntriesIn(out.blob) == Merge(AfterPeers(blob.entries, peers, n), es))
            && (blob.Absent? ==> Protocol.EntriesIn(out.blob) == Merge([], es))
  {
    if blob.Present? {
      var n := AttemptsConflict(blob, blob.entries, es, peers, 0);
    }
  }

  /** The blob has the entries that `n` peers left, and behind them the new writes of the call. */
  ghost predicate StoresBehind(special: map<string, int>, first: seq<Entry>, writes: seq<Write>, taskId: string,
                               taskPath: string, peers: seq<Option<seq<Entry>>>, n: nat, after: seq<Entry>) {
    exists ks :: Appends(special, AfterPeers(first, peers, n), writes, taskId, taskPath, |writes|, after, ks)
  }

  /** The attempt that saves: the first one without a peer, or the first one of all if there is no blob yet. */
  predicate IsFirstQuiet(before: Protocol.Blob, peers: seq<Option<seq<Entry>>>, n: nat) {
    if before.Absent? then n == 0
    else !PeerIn(peers, n) && forall k :: 0 <= k < n ==> PeerIn(peers, k)
  }

  ghost predicate StoresCall(special: map<string, int>, before: Protocol.Blob, writes: seq<Write>, taskId: string,
                             taskPath: string, peers: seq<Option<seq<Entry>>>, after: Protocol.Blob) {
    && after.Present?
    && exists n :: 0 <= n < Protocol.MAX_WRITE_RETRIES && IsFirstQuiet(before, peers, n)
         && StoresBehind(special, Protocol.EntriesIn(before), writes, taskId, taskPath, peers, n, after.entries)
  }

  /** A call that returns has stored, behind what up to two peers stored before it, exactly its
      new writes, each with its own channel and value. */
  lemma CallStoresItsWrites(special: map<string, int>, blob: Protocol.Blob, writes: seq<Write>, taskId: string,
                            taskPath: string, peers: seq<Option<seq<Entry>>>)
    ensures var out := Attempts(blob, EntriesOf(special, writes, taskId, taskPath), peers, 0);
            out.result.Success? ==> StoresCall(special, blob, writes, taskId, taskPath, peers, out.blob)
  {
    var es, first := EntriesOf(special, writes, taskId, taskPath), Protocol.EntriesIn(blob);
    var n := 0;
    if blob.Present? {
      n := AttemptsConflict(blob, first, es, peers, 0);
    }
    var ks := MergeStoresNewWrites(special, AfterPeers(first, peers, n), writes, taskId, taskPath);
    if n < Protocol.MAX_WRITE_RETRIES {
      assert StoresBehind(special, first, writes, taskId, taskPath, peers, n,
                          Protocol.EntriesIn(Attempts(blob, es, peers, 0).blob));
    }
  }

  // ---- The object's calls are runs of the protocols ----

  /** `aput` is the protocol's two saves, with nothing in between. */
  lemma PutIsTwoSteps(cfg: Config, w: World, attempt: nat, id: string)
    requires Enabled(w, PutBlob(attempt, id))
    ensures var v := Apply(cfg, w, PutBlob(attempt, id));
            && Enabled(v, PutIndex(attempt))
            && Apply(cfg, v, PutIndex(attempt)).store == AfterPut(w.store, id, w.attempts[attempt].unsaved[0])
  {
  }

  /** Writer 0 is the call before its `attempt`-th attempt; writer `k + 1` is the `k`-th peer. */
  ghost predicate Before(s: Protocol.System, es: seq<Entry>, peers: seq<Option<seq<Entry>>>, attempt: nat) {
    && Protocol.WellTyped(s) && 0 in s.calls && s.calls[0] == es
    && (if attempt == 0 then s.progress[0].Fresh? else s.progress[0].Ready? && s.progress[0].attempt == attempt)
    && (forall k: nat :: attempt <= k && PeerIn(peers, k) ==>
          k + 1 in s.calls && s.calls[k + 1] == PeerAt(peers, k).value && s.progress[k + 1].Fresh?)
    && (if s.blob.Present? then s.blob.etag == |s.saves| else s.saves == [])
  }

  /** The call reads, and then its peer, if it has one, reads and saves. */
  lemma ReadAndInterfere(s: Protocol.System, es: seq<Entry>, peers: seq<Option<seq<Entry>>>, attempt: nat)
    returns (steps: seq<Protocol.Step>, t: Protocol.System)
    requires Before(s, es, peers, attempt) && attempt < Protocol.MAX_WRITE_RETRIES
    ensures Protocol.Leads(s, steps, t) && t.calls == s.calls && t.blob == Interfere(s.blob, PeerAt(peers, attempt))
    ensures t.progress[0].Holding? && t.progress[0].attempt == attempt
    ensures t.progress[0].base == Protocol.EntriesIn(s.blob) && t.progress[0].etag == Protocol.EtagOf(s.blob)
    ensures forall w :: w in s.progress && w != 0 && w != attempt + 1 ==> t.progress[w] == s.progress[w]
    ensures if t.blob.Present? then t.blob.etag == |t.saves| else t.saves == []
  {
    var load := Protocol.Load(0);
    t := Protocol.Apply(s, load);
    if !PeerIn(peers, attempt) {
      Protocol.LeadsStep(s, load, [], t);
      steps := [load] + [];
    } else {
      var peerLoad, peerSave := Protocol.Load(attempt + 1), Protocol.Save(attempt + 1, true);
      var u := Protocol.Apply(t, peerLoad);
      var v := Protocol.Apply(u, peerSave);
      Protocol.LeadsStep(u, peerSave, [], v);
      Protocol.LeadsStep(t, peerLoad, [peerSave] + [], v);
      Protocol.LeadsStep(s, load, [peerLoad] + ([peerSave] + []), v);
      steps, t := [load] + ([peerLoad] + ([peerSave] + [])), v;
    }
  }

  lemma {:induction false} LeadsOn(s: Protocol.System, steps: seq<Protocol.Step>, t: Protocol.System,
                                   more: seq<Protocol.Step>, u: Protocol.System)
    requires Protocol.WellTyped(s) && Protocol.Leads(s, steps, t) && Protocol.Leads(t, more, u)
    ensures Protocol.Leads(s, steps + more, u)
    decreases |steps|
  {
    FirstThenRest(steps, more);
    if steps != [] {
      LeadsOn(Protocol.Apply(s, steps[0]), steps[1..], t, more, u);
      Protocol.LeadsStep(s, steps[0], steps[1..] + more, u);
    }
  }

  /** What one attempt, from its read to its save, makes of the system. */
  lemma OneAttempt(s: Protocol.System, es: seq<Entry>, peers: seq<Option<seq<Entry>>>, attempt: nat)
    returns (steps: seq<Protocol.Step>, t: Protocol.System)
    requires Before(s, es, peers, attempt) && attempt < Protocol.MAX_WRITE_RETRIES
    ensures Protocol.Leads(s, steps, t) && Protocol.WellTyped(t) && 0 in t.progress
    ensures var now := Interfere(s.blob, PeerAt(peers, attempt));
            if Protocol.SaveSucceeds(now, Protocol.EtagOf(s.blob))
            then t.progress[0] == Protocol.Stored && t.blob == Saved(now, Merge(Protocol.EntriesIn(s.blob), es))
            else t.blob == now
                 && if attempt + 1 == Protocol.MAX_WRITE_RETRIES then t.progress[0].RaisedConflict?
                    else Before(t, es, peers, attempt + 1)
  {
    var first, u := ReadAndInterfere(s, es, peers, attempt);
    var save := Protocol.Save(0, true);
    t := Protocol.Apply(u, save);
    Protocol.LeadsStep(u, save, [], t);
    LeadsOn(s, first, u, [save] + [], t);
    steps := first + ([save] + []);
  }

  /** The retry loop is a run of the protocol: what holds for every interleaving of single
      reads and saves holds for the loop. */
  lemma {:induction false} LoopIsARun(s: Protocol.System, es: seq<Entry>, peers: seq<Option<seq<Entry>>>, attempt: nat)
    returns (steps: seq<Protocol.Step>, t: Protocol.System)
    requires Before(s, es, peers, attempt) && attempt < Protocol.MAX_WRITE_RETRIES
    ensures Protocol.Leads(s, steps, t) && 0 in t.progress
    ensures var out := Attempts(s.blob, es, peers, attempt);
            && t.blob == out.blob
            && (if out.result.Success? then t.progress[0] == Protocol.Stored else t.progress[0].RaisedConflict?)
    decreases Protocol.MAX_WRITE_RETRIES - attempt
  {
    var now := Interfere(s.blob, PeerAt(peers, attempt));
    steps, t := OneAttempt(s, es, peers, attempt);
    if !Protocol.SaveSucceeds(now, Protocol.EtagOf(s.blob)) && attempt + 1 < Protocol.MAX_WRITE_RETRIES {
      var more, u := LoopIsARun(t, es, peers, attempt + 1);
      LeadsOn(s, steps, t, more, u);
      steps, t := steps + more, u;
    }
  }
}
