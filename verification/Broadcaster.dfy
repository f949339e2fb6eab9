/**
 The in-process broadcaster of task events: every subscriber of a task has a queue, and what
 is published for the task is put into all of them.

 Queues are unbounded, so that putting never waits, and publishing is one step.
 */
module Broadcaster {
  import opened Wrappers

  datatype Event = Event(taskId: string, engine: string, step: string, status: string, payload: string)

  /** `Closing` is the marker that ends a subscriber's stream. */
  datatype Item = Sent(event: Event) | Closing(taskId: string)

  function TaskOf(item: Item): string {
    match item
    case Sent(event) => event.taskId
    case Closing(taskId) => taskId
  }

  /** The items of one task, in order. */
  function ItemsOf(items: seq<Item>, taskId: string): seq<Item> {
    if items == [] then []
    else
      var last := items[|items| - 1];
      ItemsOf(items[..|items| - 1], taskId) + (if TaskOf(last) == taskId then [last] else [])
  }

  /** The stretch of the log during which a queue was subscribed; open until it unsubscribes. */
  datatype Span = Span(taskId: string, start: nat, end: Option<nat>)

  predicate IsSpan(log: seq<Item>, span: Span) {
    span.start <= (if span.end.Some? then span.end.value else |log|) <= |log|
  }

  /** What was published for a queue's task while it was subscribed. */
  function Seen(log: seq<Item>, span: Span): seq<Item>
    requires IsSpan(log, span)
  {
    ItemsOf(log[span.start..if span.end.Some? then span.end.value else |log|], span.taskId)
  }

  lemma SeenMore(log: seq<Item>, item: Item, span: Span)
    requires IsSpan(log, span)
    ensures IsSpan(log + [item], span)
    ensures Seen(log + [item], span)
         == Seen(log, span) + (if span.end.None? && TaskOf(item) == span.taskId then [item] else [])
  {
    if span.end.Some? {
      assert (log + [item])[span.start..span.end.value] == log[span.start..span.end.value];
    } else {
      assert (log + [item])[span.start..] == log[span.start..] + [item];
      var longer := log[span.start..] + [item];
      assert longer[..|longer| - 1] == log[span.start..];
      assert log[span.start..|log|] == log[span.start..];
      assert (log + [item])[span.start..|log + [item]|] == longer;
    }
  }

  /** `items` is what waits to be taken, `put` all that was ever put in. */
  class EventQueue {
    var items: seq<Item>
    ghost var put: seq<Item>

    /** Items are taken in the order in which they were put. */
    ghost predicate Valid()
      reads this
    {
      |items| <= |put| && put[|put| - |items|..] == items
    }

    constructor ()
      ensures Valid() && items == [] && put == []
    {
      items, put := [], [];
    }

    method Put(item: Item)
      requires Valid()
      modifies this
      ensures Valid() && items == old(items) + [item] && put == old(put) + [item]
    {
      items, put := items + [item], put + [item];
    }

    method Get() returns (item: Item)
      requires Valid() && items != []
      modifies this
      ensures Valid() && [item] + items == old(items) && put == old(put)
    {
      item := items[0];
      items := items[1..];
    }
  }

  /** A queue has got exactly what was published for its task while it was subscribed. */
  ghost predicate Got(q: EventQueue, log: seq<Item>, span: Span)
    reads q
  {
    q.Valid() && IsSpan(log, span) && q.put == Seen(log, span)
  }

  lemma NothingSeenYet(log: seq<Item>, taskId: string)
    ensures Seen(log, Span(taskId, |log|, None)) == []
  {
    assert log[|log|..|log|] == [];
  }

  lemma SeenWhenClosed(log: seq<Item>, span: Span)
    requires IsSpan(log, span) && span.end.None?
    ensures IsSpan(log, span.(end := Some(|log|))) && Seen(log, span.(end := Some(|log|))) == Seen(log, span)
  {
  }

  function SubscribersOf(subscribers: map<string, set<EventQueue>>, taskId: string): set<EventQueue> {
    if taskId in subscribers then subscribers[taskId] else {}
  }

  /** The subscribers of a task are the queues that were handed out for it and are open. */
  ghost predicate SubscribersOk(subscribers: map<string, set<EventQueue>>, spans: map<EventQueue, Span>) {
    && (forall q :: q in spans && spans[q].end.None? ==> q in SubscribersOf(subscribers, spans[q].taskId))
    && (forall taskId :: taskId in subscribers ==> AllOpen(subscribers[taskId], taskId, spans))
  }

  ghost predicate AllOpen(queues: set<EventQueue>, taskId: string, spans: map<EventQueue, Span>) {
    forall q :: q in queues ==> q in spans && spans[q].taskId == taskId && spans[q].end.None?
  }

  lemma AddSubscriber(subscribers: map<string, set<EventQueue>>, spans: map<EventQueue, Span>, taskId: string,
                      queue: EventQueue, start: nat)
    requires SubscribersOk(subscribers, spans) && queue !in spans
    ensures SubscribersOk(subscribers[taskId := SubscribersOf(subscribers, taskId) + {queue}],
                          spans[queue := Span(taskId, start, None)])
  {
  }

  /** The subscribers without a queue; a task without subscribers has no entry. */
  function Without(subscribers: map<string, set<EventQueue>>, taskId: string, queue: EventQueue)
    : map<string, set<EventQueue>>
    requires taskId in subscribers
  {
    var remaining := subscribers[taskId] - {queue};
    if remaining == {} then subscribers - {taskId} else subscribers[taskId := remaining]
  }

  lemma RemoveSubscriber(subscribers: map<string, set<EventQueue>>, spans: map<EventQueue, Span>, taskId: string,
                         queue: EventQueue, end: nat)
    requires SubscribersOk(subscribers, spans) && taskId in subscribers
    ensures queue in subscribers[taskId] ==>
              && queue in spans && spans[queue].taskId == taskId
              && SubscribersOk(Without(subscribers, taskId, queue), spans[queue := spans[queue].(end := Some(end))])
    ensures queue !in subscribers[taskId] ==> SubscribersOk(Without(subscribers, taskId, queue), spans)
  {
    assert AllOpen(subscribers[taskId], taskId, spans);
  }

  lemma SubscribersAreOpen(subscribers: map<string, set<EventQueue>>, spans: map<EventQueue, Span>, taskId: string)
    requires SubscribersOk(subscribers, spans)
    ensures forall q :: q in SubscribersOf(subscribers, taskId) <==>
              q in spans && spans[q].taskId == taskId && spans[q].end.None?
  {
    assert taskId in subscribers ==> AllOpen(subscribers[taskId], taskId, spans);
  }

  method PutEach(queues: set<EventQueue>, item: Item)
    requires forall q :: q in queues ==> q.Valid()
    modifies queues
    ensures forall q :: q in queues ==> q.Valid() && q.items == old(q.items) + [item] && q.put == old(q.put) + [item]
  {
    var todo := queues;
    while todo != {}
      invariant todo <= queues
      invariant forall q :: q in queues ==> q.Valid()
      invariant forall q :: q in queues - todo ==> q.items == old(q.items) + [item] && q.put == old(q.put) + [item]
      invariant forall q :: q in todo ==> q.items == old(q.items) && q.put == old(q.put)
      decreases |todo|
    {
      var queue :| queue in todo;
      queue.Put(item);
      todo := todo - {queue};
    }
  }

  class TaskEventBroadcaster {
    var subscribers: map<string, set<EventQueue>>
    ghost var log: seq<Item>
    ghost var spans: map<EventQueue, Span>

    function Subscribers(taskId: string): set<EventQueue>
      reads this
    {
      SubscribersOf(subscribers, taskId)
    }

    /** Every queue ever handed out has got exactly what was published for its task while it
        was subscribed, in order. */
    ghost predicate QueuesOk()
      reads this, spans.Keys
    {
      forall q :: q in spans ==> Got(q, log, spans[q])
    }

    ghost predicate Valid()
      reads this, spans.Keys
    {
      QueuesOk() && SubscribersOk(subscribers, spans)
    }

    constructor ()
      ensures Valid() && log == [] && spans == map[]
    {
      subscribers, log, spans := map[], [], map[];
    }

    method Subscribe(taskId: string) returns (queue: EventQueue)
      requires Valid()
      modifies this
      ensures Valid() && fresh(queue) && log == old(log)
      ensures spans == old(spans)[queue := Span(taskId, |log|, None)]
    {
      queue := new EventQueue();
      AddSubscriber(subscribers, spans, taskId, queue, |log|);
      NothingSeenYet(log, taskId);
      subscribers := subscribers[taskId := Subscribers(taskId) + {queue}];
      spans := spans[queue := Span(taskId, |log|, None)];
      forall q | q in spans
        ensures Got(q, log, spans[q])
      {
        assert q != queue ==> Got(q, log, old(spans)[q]);
      }
    }

    /** Only a subscriber of the task is taken out; its queue then gets nothing more. */
    method Unsubscribe(taskId: string, queue: EventQueue)
      requires Valid()
      modifies this
      ensures Valid() && log == old(log)
      ensures spans == if queue in old(Subscribers(taskId))
                       then old(spans)[queue := Span(taskId, old(spans)[queue].start, Some(|log|))] else old(spans)
      ensures Subscribers(taskId) == old(Subscribers(taskId)) - {queue}
    {
      if Subscribers(taskId) == {} {
        return;
      }
      RemoveSubscriber(subscribers, spans, taskId, queue, |log|);
      if queue in subscribers[taskId] {
        assert Got(queue, log, spans[queue]);
        SeenWhenClosed(log, spans[queue]);
        spans := spans[queue := spans[queue].(end := Some(|log|))];
      }
      var remaining := subscribers[taskId] - {queue};
      subscribers := if remaining == {} then subscribers - {taskId} else subscribers[taskId := remaining];
    }

    /** Every subscriber of the item's task gets it, and nobody else. */
    method PutAll(item: Item)
      requires Valid()
      modifies this`log, Subscribers(TaskOf(item))
      ensures Valid() && log == old(log) + [item]
      ensures forall q :: q in Subscribers(TaskOf(item)) ==> q.items == old(q.items) + [item]
    {
      SubscribersAreOpen(subscribers, spans, TaskOf(item));
      assert forall q :: q in Subscribers(TaskOf(item)) ==> Got(q, log, spans[q]);
      PutEach(Subscribers(TaskOf(item)), item);
      log := log + [item];
      forall q | q in spans
        ensures Got(q, log, spans[q])
      {
        assert old(Got(q, log, spans[q]));
        SeenMore(old(log), item, spans[q]);
      }
    }

    method Publish(event: Event)
      requires Valid()
      modifies this`log, Subscribers(event.taskId)
      ensures Valid() && log == old(log) + [Sent(event)]
      ensures forall q :: q in Subscribers(event.taskId) ==> q.items == old(q.items) + [Sent(event)]
    {
      PutAll(Sent(event));
    }

    method Close(taskId: string)
      requires Valid()
      modifies this`log, Subscribers(taskId)
      ensures Valid() && log == old(log) + [Closing(taskId)]
      ensures forall q :: q in Subscribers(taskId) ==> q.items == old(q.items) + [Closing(taskId)]
    {
      PutAll(Closing(taskId));
    }
  }
}
