/**
 The consumer of agent task events: deliveries may repeat, come in any order, be invalid, or
 crash after the commit. The audit table has a unique key per task, step and status; an
 event is broadcast after its row is committed, and only if the row is new.

 A handler's database session is atomic.
 */
module EventHandler {
  import opened Wrappers
  import opened Keys
  import opened Broadcaster
  import opened TaskRows

  /** `event` is `None` for a payload that does not validate; `crashes` stops the handler
      between the commit and the broadcast. */
  datatype Delivery = Delivery(event: Option<Event>, crashes: bool)

  /** The audit table, and what was broadcast. */
  datatype Feed = Feed(audits: map<string, AuditRow>, broadcasts: seq<Event>)

  function KeyOf(e: Event): string {
    AuditKey(e.taskId, e.step, e.status)
  }

  function RowOf(e: Event): AuditRow {
    AuditRow(e.taskId, e.engine, e.step, e.status, e.payload)
  }

  /** The row tells the event: its task, engine, step and status, and its payload. */
  predicate Records(row: AuditRow, e: Event) {
    && row.taskId == e.taskId && row.engine == e.engine && row.step == e.step && row.status == e.status
    && row.payload == e.payload
  }

  function Deliver(f: Feed, d: Delivery): Feed {
    if d.event.None? || KeyOf(d.event.value) in f.audits then f
    else
      var e := d.event.value;
      Feed(f.audits[KeyOf(e) := RowOf(e)], if d.crashes then f.broadcasts else f.broadcasts + [e])
  }

  function After(deliveries: seq<Delivery>): Feed {
    if deliveries == [] then Feed(map[], [])
    else Deliver(After(deliveries[..|deliveries| - 1]), deliveries[|deliveries| - 1])
  }

  /** The handler, as it runs. The broadcaster is optional. */
  class AgentTaskEventHandler {
    const repo: TaskRepository
    const broadcaster: TaskEventBroadcaster?

    constructor (repo: TaskRepository, broadcaster: TaskEventBroadcaster?)
      ensures this.repo == repo && this.broadcaster == broadcaster
    {
      this.repo, this.broadcaster := repo, broadcaster;
    }

    method HandlePayload(d: Delivery) returns (created: bool)
      requires broadcaster != null ==> broadcaster.Valid()
      modifies repo`audits
      modifies if broadcaster != null then {broadcaster} else {}
      modifies if broadcaster != null && d.event.Some? then broadcaster.Subscribers(d.event.value.taskId) else {}
      ensures created <==> d.event.Some? && KeyOf(d.event.value) !in old(repo.audits)
      ensures repo.audits == Deliver(Feed(old(repo.audits), []), d).audits
      ensures broadcaster != null ==> broadcaster.Valid() && broadcaster.spans == old(broadcaster.spans)
      ensures broadcaster != null ==>
                broadcaster.log == old(broadcaster.log) + (if created && !d.crashes then [Sent(d.event.value)] else [])
    {
      if d.event.None? {
        return false;
      }
      var event := d.event.value;
      created := repo.RecordAuditEvent(KeyOf(event), RowOf(event));
      if created && !d.crashes && broadcaster != null {
        broadcaster.Publish(event);
      }
    }
  }

  // ---- Occurrences ----

  predicate Delivers(d: Delivery, key: string) {
    d.event.Some? && KeyOf(d.event.value) == key
  }

  /** The first delivery of its key. */
  predicate IsFirst(deliveries: seq<Delivery>, i: nat) {
    && i < |deliveries| && deliveries[i].event.Some?
    && forall j :: 0 <= j < i ==> !Delivers(deliveries[j], KeyOf(deliveries[i].event.value))
  }

  predicate Delivered(deliveries: seq<Delivery>, key: string) {
    exists i :: 0 <= i < |deliveries| && Delivers(deliveries[i], key)
  }

  lemma DeliveredSnoc(deliveries: seq<Delivery>, d: Delivery, key: string)
    ensures Delivered(deliveries + [d], key) <==> Delivered(deliveries, key) || Delivers(d, key)
  {
    var longer := deliveries + [d];
    assert longer[|deliveries|] == d;
    if Delivered(deliveries, key) {
      var i :| 0 <= i < |deliveries| && Delivers(deliveries[i], key);
      assert Delivers(longer[i], key);
    }
  }

  /** A key has a row exactly when it was delivered. */
  lemma {:induction false} RowsAreDelivered(deliveries: seq<Delivery>, key: string)
    ensures key in After(deliveries).audits <==> Delivered(deliveries, key)
    decreases |deliveries|
  {
    if deliveries != [] {
      var init, last := deliveries[..|deliveries| - 1], deliveries[|deliveries| - 1];
      RowsAreDelivered(init, key);
      DeliveredSnoc(init, last, key);
      assert init + [last] == deliveries;
    }
  }

  /** The row of a key is that of its first delivery, whether or not its handler crashed. */
  lemma {:induction false} RowsAreFirstDeliveries(deliveries: seq<Delivery>, i: nat)
    requires IsFirst(deliveries, i)
    ensures var e := deliveries[i].event.value;
            KeyOf(e) in After(deliveries).audits && Records(After(deliveries).audits[KeyOf(e)], e)
    decreases |deliveries|
  {
    var n := |deliveries| - 1;
    if i < n {
      RowsAreFirstDeliveries(deliveries[..n], i);
    } else {
      FirstMeansNew(deliveries);
    }
  }

  /** The events of the first deliveries whose handler did not crash, in order. */
  function FirstEvents(deliveries: seq<Delivery>): seq<Event> {
    if deliveries == [] then []
    else
      var n := |deliveries| - 1;
      FirstEvents(deliveries[..n])
      + (if IsFirst(deliveries, n) && !deliveries[n].crashes then [deliveries[n].event.value] else [])
  }

  lemma FirstMeansNew(deliveries: seq<Delivery>)
    requires deliveries != [] && deliveries[|deliveries| - 1].event.Some?
    ensures var n := |deliveries| - 1;
            IsFirst(deliveries, n) <==> KeyOf(deliveries[n].event.value) !in After(deliveries[..n]).audits
  {
    var n := |deliveries| - 1;
    var init, key := deliveries[..n], KeyOf(deliveries[n].event.value);
    RowsAreDelivered(init, key);
    if Delivered(init, key) {
      var i :| 0 <= i < |init| && Delivers(init[i], key);
      assert Delivers(deliveries[i], key);
    } else {
      forall j | 0 <= j < n
        ensures !Delivers(deliveries[j], key)
      {
        assert !Delivers(init[j], key);
      }
    }
  }

  /** What is broadcast are the first deliveries, in order. */
  lemma {:induction false} BroadcastsAreFirstDeliveries(deliveries: seq<Delivery>)
    ensures After(deliveries).broadcasts == FirstEvents(deliveries)
    decreases |deliveries|
  {
    if deliveries != [] {
      var n := |deliveries| - 1;
      BroadcastsAreFirstDeliveries(deliveries[..n]);
      if deliveries[n].event.Some? {
        FirstMeansNew(deliveries);
      }
    }
  }

  lemma {:induction false} BroadcastIsStored(deliveries: seq<Delivery>, k: nat)
    requires k < |After(deliveries).broadcasts|
    ensures var e := After(deliveries).broadcasts[k];
            KeyOf(e) in After(deliveries).audits && Records(After(deliveries).audits[KeyOf(e)], e)
    decreases |deliveries|
  {
    var init := deliveries[..|deliveries| - 1];
    if k < |After(init).broadcasts| {
      BroadcastIsStored(init, k);
    }
  }

  /** No row is broadcast twice, and what is broadcast is what the row holds. */
  lemma {:induction false} RowsAreBroadcastAtMostOnce(deliveries: seq<Delivery>, i: nat, j: nat)
    requires i < j < |After(deliveries).broadcasts|
    ensures KeyOf(After(deliveries).broadcasts[i]) != KeyOf(After(deliveries).broadcasts[j])
    ensures var e := After(deliveries).broadcasts[j];
            KeyOf(e) in After(deliveries).audits && Records(After(deliveries).audits[KeyOf(e)], e)
    decreases |deliveries|
  {
    var init := deliveries[..|deliveries| - 1];
    BroadcastIsStored(deliveries, j);
    if j < |After(init).broadcasts| {
      RowsAreBroadcastAtMostOnce(init, i, j);
    } else {
      BroadcastIsStored(init, i);
    }
  }

  /** Without crashes every row is broadcast. */
  lemma {:induction false} RowsAreBroadcast(deliveries: seq<Delivery>, key: string)
    requires forall i :: 0 <= i < |deliveries| ==> !deliveries[i].crashes
    ensures key in After(deliveries).audits <==>
              exists k :: 0 <= k < |After(deliveries).broadcasts| && KeyOf(After(deliveries).broadcasts[k]) == key
    decreases |deliveries|
  {
    if deliveries != [] {
      var init := deliveries[..|deliveries| - 1];
      var before, now := After(init).broadcasts, After(deliveries).broadcasts;
      RowsAreBroadcast(init, key);
      assert forall k :: 0 <= k < |before| ==> now[k] == before[k];
      assert |now| > |before| ==> now[|before|] == deliveries[|deliveries| - 1].event.value;
    }
  }

  // ---- Rows and occurrences ----

  /** A task id is a UUID, and step names have no colons. */
  predicate WellNamed(deliveries: seq<Delivery>) {
    forall i :: 0 <= i < |deliveries| && deliveries[i].event.Some? ==>
      |deliveries[i].event.value.taskId| == UUID_LENGTH && NoColon(deliveries[i].event.value.step)
  }

  predicate SameOccurrence(e: Event, o: Event) {
    e.taskId == o.taskId && e.step == o.step && e.status == o.status
  }

  /** There is one row per task, step and status that were delivered: the first delivery of
      an occurrence writes its row, and no other occurrence shares it. */
  lemma OneRowPerOccurrence(deliveries: seq<Delivery>, i: nat, j: nat)
    requires WellNamed(deliveries) && i < |deliveries| && j < |deliveries|
    requires deliveries[i].event.Some? && deliveries[j].event.Some?
    requires forall k :: 0 <= k < i && deliveries[k].event.Some? ==>
               !SameOccurrence(deliveries[k].event.value, deliveries[i].event.value)
    ensures var e, o := deliveries[i].event.value, deliveries[j].event.value;
            && KeyOf(e) in After(deliveries).audits && Records(After(deliveries).audits[KeyOf(e)], e)
            && (KeyOf(e) == KeyOf(o) <==> SameOccurrence(e, o))
  {
    var e := deliveries[i].event.value;
    forall k | 0 <= k < |deliveries| && deliveries[k].event.Some?
      ensures KeyOf(deliveries[k].event.value) == KeyOf(e) <==> SameOccurrence(deliveries[k].event.value, e)
    {
      var o := deliveries[k].event.value;
      AuditKeysAreInjective(o.taskId, o.step, o.status, e.taskId, e.step, e.status);
    }
    RowsAreFirstDeliveries(deliveries, i);
  }
}
