/** The in-memory event bus: a bounded replay buffer per run and live subscriber queues
    that are dropped when full (backend/events/event_bus.py). */
module EventBus {
  import opened Wrappers

  datatype Event = Event(id: string, run: string, message: string)

  const BUFFER_LIMIT: nat := 500
  const SUBSCRIBER_QUEUE_LIMIT: nat := 200

  /** Where the last `limit` events of a log of length n begin. */
  function Kept(n: nat, limit: nat): nat {
    if n <= limit then 0 else n - limit
  }

  function LastOf(log: seq<Event>, limit: nat): (r: seq<Event>)
    ensures |r| <= limit
  {
    log[Kept(|log|, limit)..]
  }

  // ----- replay ---------------------------------------------------------------------------

  predicate DistinctIds(log: seq<Event>) {
    forall i, j :: 0 <= i < j < |log| ==> log[i].id != log[j].id
  }

  /** Position of the first event with an id, or -1. */
  function IndexOf(events: seq<Event>, id: string): (i: int)
    ensures -1 <= i < |events|
    ensures i >= 0 ==> events[i].id == id
    ensures forall k :: 0 <= k < |events| && (i < 0 || k < i) ==> events[k].id != id
  {
    if events == [] then -1
    else if events[0].id == id then 0
    else
      var rest := IndexOf(events[1..], id);
      assert forall k :: 1 <= k < |events| ==> events[k] == events[1..][k - 1];
      if rest < 0 then -1 else rest + 1
  }

  /** What a poll returns: the buffer, from behind the cursor if the cursor is still in it. */
  function Replay(buffer: seq<Event>, since: Option<string>): seq<Event> {
    if since.None? then buffer else buffer[IndexOf(buffer, since.value) + 1..]
  }

  method GetBuffered(events: seq<Event>, since: Option<string>) returns (page: seq<Event>)
    ensures page == Replay(events, since)
  {
    if since.None? {
      return events;
    }
    for index := 0 to |events|
      invariant forall k :: 0 <= k < index ==> events[k].id != since.value
    {
      if events[index].id == since.value {
        return events[index + 1..];
      }
    }
    page := events;
  }

  /** A poll with the id at log position p returns the log from there on, less what the
      buffer has already evicted. */
  lemma PollIsSuffix(log: seq<Event>, p: nat)
    requires DistinctIds(log) && p < |log|
    ensures var from := if |log| <= 500 then 0 else |log| - 500;
            Replay(LastOf(log, BUFFER_LIMIT), Some(log[p].id)) == log[if p + 1 >= from then p + 1 else from..]
  {
    hide IndexOf, Replay, DistinctIds;
    PollFrom(log, p, Kept(|log|, BUFFER_LIMIT));
  }

  /** A buffer that begins at some position of the log. */
  lemma PollFrom(log: seq<Event>, p: nat, from: nat)
    requires DistinctIds(log) && p < |log| && from <= |log|
    ensures Replay(log[from..], Some(log[p].id)) == log[if p + 1 >= from then p + 1 else from..]
  {
    hide IndexOf;
    if p >= from {
      IndexInTail(log, p, from);
      TailOfTail(log, from, p - from + 1);
    } else {
      NotInTail(log, p, from);
    }
  }

  lemma TailOfTail(log: seq<Event>, from: nat, k: nat)
    requires from + k <= |log|
    ensures log[from..][k..] == log[from + k..]
  {}

  lemma IndexInTail(log: seq<Event>, p: nat, from: nat)
    requires DistinctIds(log) && from <= p < |log|
    ensures IndexOf(log[from..], log[p].id) == p - from
  {
    hide IndexOf;
    var buffer := log[from..];
    var i := IndexOf(buffer, log[p].id);
    assert buffer[p - from] == log[p];
    assert 0 <= i <= p - from;
    assert log[from + i] == buffer[i];
  }

  lemma NotInTail(log: seq<Event>, p: nat, from: nat)
    requires DistinctIds(log) && p < from <= |log|
    ensures IndexOf(log[from..], log[p].id) == -1
  {
    hide IndexOf;
    var buffer := log[from..];
    forall k | 0 <= k < |buffer| ensures buffer[k].id != log[p].id {
      assert buffer[k] == log[from + k];
    }
  }

  /** A client that polls, stores the last id it got and polls again sees nothing twice, and
      misses only events evicted in between. */
  lemma RepeatedPolls(before: seq<Event>, after: seq<Event>)
    requires before != [] && before <= after && DistinctIds(after)
    ensures var page := Replay(LastOf(after, BUFFER_LIMIT), Some(before[|before| - 1].id));
            var missed := if |before| < Kept(|after|, BUFFER_LIMIT) then Kept(|after|, BUFFER_LIMIT) - |before| else 0;
            after == before + after[|before|..|before| + missed] + page
  {
    var p := |before| - 1;
    assert after[p] == before[p];
    PollIsSuffix(after, p);
    var from := Kept(|after|, BUFFER_LIMIT);
    var page := after[if p + 1 >= from then p + 1 else from..];
    SeenMissedRest(before, after, if |before| < from then from else |before|);
  }

  /** A log is what was seen, what was missed and the rest. */
  lemma SeenMissedRest(before: seq<Event>, after: seq<Event>, from: nat)
    requires before <= after && |before| <= from <= |after|
    ensures after == before + after[|before|..from] + after[from..]
  {
    assert after[..|before|] == before;
  }

  /** The log position a poll reads from: behind its cursor, if that is still buffered. */
  function ReadsFrom(n: nat, cursor: Option<nat>): nat {
    if cursor.Some? && cursor.value + 1 >= Kept(n, BUFFER_LIMIT) then cursor.value + 1 else Kept(n, BUFFER_LIMIT)
  }

  /** A page of an earlier log and the block a queue holds of the later one. */
  lemma PageThenQueue(l: seq<Event>, replayed: seq<Event>, from: nat, start: nat)
    requires replayed <= l && from <= |replayed| <= start <= |l|
    ensures replayed[from..] + l[start..] == l[from..] <==> start == |replayed|
    ensures replayed[from..] + l[|replayed|..start] + l[start..] == l[from..]
  {
    assert replayed[from..] == l[from..|replayed|];
    if start > |replayed| {
      assert |replayed[from..] + l[start..]| < |l[from..]|;
    }
  }

  lemma PollReads(log: seq<Event>, cursor: Option<nat>)
    requires DistinctIds(log) && (cursor.Some? ==> cursor.value < |log|)
    ensures var since := if cursor.Some? then Some(log[cursor.value].id) else None;
            ReadsFrom(|log|, cursor) <= |log|
            && Replay(LastOf(log, BUFFER_LIMIT), since) == log[ReadsFrom(|log|, cursor)..]
  {
    if cursor.Some? {
      PollIsSuffix(log, cursor.value);
    }
  }

  // ----- queues ---------------------------------------------------------------------------

  /** One subscriber's queue. `consumed` and `start` record its history: what the client has
      taken out, and how long the run's log was when it subscribed. */
  class Queue {
    const run: string
    ghost const start: nat
    var items: seq<Event>
    ghost var consumed: seq<Event>

    constructor (run: string, ghost start: nat)
      ensures this.run == run && this.start == start && items == [] && consumed == []
    {
      this.run := run;
      this.start := start;
      items, consumed := [], [];
    }

    /** Everything this queue was ever given. */
    ghost function Delivered(): seq<Event>
      reads this
    {
      consumed + items
    }

    method PutNowait(event: Event) returns (full: bool)
      modifies `items
      ensures full == (|old(items)| >= 200)
      ensures items == Offered(old(items), event)
    {
      full := |items| >= SUBSCRIBER_QUEUE_LIMIT;
      if !full {
        items := items + [event];
      }
    }
  }

  function LogOf(log: map<string, seq<Event>>, run: string): seq<Event> {
    if run in log then log[run] else []
  }

  /** Every run's buffer is the last events of its log. */
  ghost predicate BuffersOk(buffers: map<string, seq<Event>>, log: map<string, seq<Event>>) {
    && buffers.Keys == log.Keys
    && forall run :: run in log ==> buffers[run] == LastOf(log[run], BUFFER_LIMIT)
  }

  lemma BuffersAppend(buffers: map<string, seq<Event>>, log: map<string, seq<Event>>, event: Event)
    requires BuffersOk(buffers, log)
    ensures BuffersOk(buffers[event.run := LastOf(LogOf(buffers, event.run) + [event], BUFFER_LIMIT)],
                      log[event.run := LogOf(log, event.run) + [event]])
    ensures |LogOf(buffers, event.run)| <= BUFFER_LIMIT
  {
    LastOfAppend(LogOf(log, event.run), event);
  }

  /** `d` is the block of `l` that begins at `start`. */
  predicate Block(start: nat, d: seq<Event>, l: seq<Event>) {
    start + |d| <= |l| && d == l[start..start + |d|]
  }

  /** A queue holds a contiguous block of its run's log, beginning where it subscribed. */
  ghost predicate Contiguous(q: Queue, log: map<string, seq<Event>>)
    reads q
  {
    |q.items| <= SUBSCRIBER_QUEUE_LIMIT && Block(q.start, q.Delivered(), LogOf(log, q.run))
  }

  ghost predicate UpToDate(q: Queue, log: map<string, seq<Event>>)
    reads q
  {
    q.start + |q.Delivered()| == |LogOf(log, q.run)|
  }

  /** A queue after it was offered an event. */
  function Offered(items: seq<Event>, event: Event): seq<Event> {
    if |items| < SUBSCRIBER_QUEUE_LIMIT then items + [event] else items
  }

  /** Offer an event to each of a set of queues; `dropped` are the full ones. */
  method OfferAll(all: set<Queue>, event: Event) returns (dropped: set<Queue>)
    modifies all
    ensures forall q :: q in all ==> q.consumed == old(q.consumed) && q.items == Offered(old(q.items), event)
    ensures forall q :: q in dropped <==> q in all && |old(q.items)| >= SUBSCRIBER_QUEUE_LIMIT
  {
    var rest := all;
    dropped := {};
    while rest != {}
      invariant rest <= all
      invariant forall q :: q in rest ==> q.items == old(q.items) && q.consumed == old(q.consumed)
      invariant forall q :: q in all && q !in rest ==>
                  q.consumed == old(q.consumed) && q.items == Offered(old(q.items), event)
      invariant forall q :: q in dropped <==> q in all && q !in rest && |old(q.items)| >= SUBSCRIBER_QUEUE_LIMIT
      decreases |rest|
    {
      var q :| q in rest;
      var full := q.PutNowait(event);
      if full {
        dropped := dropped + {q};
      }
      rest := rest - {q};
    }
  }

  class Bus {
    var buffers: map<string, seq<Event>>
    var subscribers: map<string, set<Queue>>
    ghost var log: map<string, seq<Event>>
    ghost var queues: set<Queue>

    ghost predicate Registered(q: Queue)
      reads this
    {
      q.run in subscribers && q in subscribers[q.run]
    }

    ghost predicate Valid()
      reads this, queues
    {
      BuffersOk(buffers, log) && SubscribersOk() && QueuesOk()
    }

    ghost predicate SubscribersOk()
      reads this
    {
      forall run :: run in subscribers ==> forall q :: q in subscribers[run] ==> q in queues && q.run == run
    }

    ghost predicate QueuesOk()
      reads this, queues
    {
      forall q :: q in queues ==> Contiguous(q, log) && (Registered(q) ==> UpToDate(q, log))
    }

    constructor ()
      ensures Valid() && queues == {} && log == map[]
    {
      buffers, subscribers, log, queues := map[], map[], map[], {};
    }

    /** A queue the bus no longer serves is never served again and never changes again. */
    twostate predicate Frozen()
      reads this, queues
    {
      && old(queues) <= queues
      && forall q :: q in old(queues) && !old(Registered(q)) ==>
           !Registered(q) && q.items == old(q.items) && q.consumed == old(q.consumed)
    }

    method StoreEvent(event: Event)
      requires |LogOf(buffers, event.run)| <= BUFFER_LIMIT
      modifies `buffers
      ensures buffers == old(buffers)[event.run := LastOf(LogOf(old(buffers), event.run) + [event], BUFFER_LIMIT)]
    {
      var buffer := LogOf(buffers, event.run) + [event];
      if |buffer| > BUFFER_LIMIT {
        buffer := buffer[1..];
      }
      buffers := buffers[event.run := buffer];
    }

    /** Offer the event to every subscriber of its run, then drop the full ones. */
    method FanoutEvent(event: Event)
      modifies `subscribers, SubscribersOf(event.run)
      ensures forall run :: run != event.run ==>
                (run in subscribers <==> run in old(subscribers)) &&
                (run in subscribers ==> subscribers[run] == old(subscribers)[run])
      ensures forall q :: q in SubscribersOf(event.run) <==>
                q in old(SubscribersOf(event.run)) && |old(q.items)| < SUBSCRIBER_QUEUE_LIMIT
      ensures forall q :: q in old(SubscribersOf(event.run)) ==>
                q.consumed == old(q.consumed) && q.items == Offered(old(q.items), event)
    {
      var all := SubscribersOf(event.run);
      var dropped := OfferAll(all, event);
      if event.run in subscribers {
        subscribers := subscribers[event.run := all - dropped];
      }
    }

    function SubscribersOf(run: string): set<Queue>
      reads this
    {
      if run in subscribers then subscribers[run] else {}
    }

    /** What publishing does to one queue: a registered queue of the run gets the event, or
        is dropped as it is when full; any other queue is left alone. */
    twostate predicate Given(q: Queue, event: Event)
      reads this, q
    {
      && q.consumed == old(q.consumed)
      && if old(Registered(q)) && q.run == event.run then
           q.items == Offered(old(q.items), event) && (Registered(q) <==> |old(q.items)| < SUBSCRIBER_QUEUE_LIMIT)
         else
           q.items == old(q.items) && (Registered(q) <==> old(Registered(q)))
    }

    twostate lemma AllGivenKeep(event: Event)
      requires queues == old(queues) && forall q :: q in queues ==> Given(q, event)
      requires log == old(log)[event.run := LogOf(old(log), event.run) + [event]]
      requires old(QueuesOk())
      ensures QueuesOk()
    {
      hide Block, Offered;
      forall q | q in queues ensures Contiguous(q, log) && (Registered(q) ==> UpToDate(q, log)) {
        assert old(Contiguous(q, log)) && old(Registered(q) ==> UpToDate(q, log));
        QueueAfter(q.start, q.consumed, old(q.items), LogOf(old(log), q.run), event);
      }
    }

    /** Store and fan out. */
    method Publish(event: Event)
      requires Valid()
      modifies this, SubscribersOf(event.run)
      ensures Valid() && Frozen() && queues == old(queues)
      ensures log == old(log)[event.run := LogOf(old(log), event.run) + [event]]
      ensures forall q :: q in queues ==> Given(q, event)
    {
      hide Contiguous, UpToDate, LastOf, BuffersOk, Offered;
      BuffersAppend(buffers, log, event);
      StoreEvent(event);
      FanoutEvent(event);
      log := log[event.run := LogOf(log, event.run) + [event]];
      forall q | q in queues ensures Given(q, event) {
        assert q.run == event.run && old(Registered(q)) <==> q in old(SubscribersOf(event.run));
      }
      AllGivenKeep(event);
      assert SubscribersOk();
      forall q | q in old(queues) && !old(Registered(q))
        ensures !Registered(q) && q.items == old(q.items) && q.consumed == old(q.consumed)
      {
        assert Given(q, event);
      }
    }

    method GetBufferedEvents(run: string, since: Option<string>) returns (page: seq<Event>)
      requires Valid()
      ensures page == Replay(LastOf(LogOf(log, run), BUFFER_LIMIT), since)
    {
      page := GetBuffered(LogOf(buffers, run), since);
    }

    method Subscribe(run: string) returns (q: Queue)
      requires Valid()
      modifies this
      ensures Valid() && Frozen() && fresh(q) && queues == old(queues) + {q} && log == old(log)
      ensures q.run == run && Registered(q) && q.start == |LogOf(log, run)| && q.Delivered() == []
      ensures forall p :: p in old(queues) ==> Registered(p) == old(Registered(p))
    {
      hide LastOf;
      q := new Queue(run, |LogOf(log, run)|);
      subscribers := subscribers[run := SubscribersOf(run) + {q}];
      queues := queues + {q};
    }

    /** Leaving the subscription; the last one out removes the run's entry. */
    method Unsubscribe(q: Queue)
      requires Valid() && q in queues
      modifies this
      ensures Valid() && Frozen() && queues == old(queues) && log == old(log) && !Registered(q)
      ensures forall p :: p in queues && p != q ==> Registered(p) == old(Registered(p))
    {
      hide LastOf, Block;
      if q.run in subscribers {
        var rest := subscribers[q.run] - {q};
        assert forall p :: p != q && p in subscribers[q.run] ==> p in rest;
        subscribers := if rest == {} then subscribers - {q.run} else subscribers[q.run := rest];
      }
    }

    /** The client takes the oldest waiting event. */
    method Take(q: Queue) returns (event: Event)
      requires Valid() && q in queues && q.items != []
      modifies q
      ensures Valid() && q.Delivered() == old(q.Delivered())
      ensures q.consumed == old(q.consumed) + [event]
    {
      hide Block;
      event := q.items[0];
      q.items, q.consumed := q.items[1..], q.consumed + [event];
      assert old(q.items) == [event] + q.items;
      assert q.Delivered() == old(q.Delivered());
    }

    /** What a client has taken is a contiguous block of the log from where it subscribed,
        and what waits for it continues that block; a registered client lacks nothing. */
    lemma ClientSeesNoGap(q: Queue)
      requires Valid() && q in queues
      ensures var l := LogOf(log, q.run);
              && q.start + |q.consumed| + |q.items| <= |l|
              && q.consumed == l[q.start..q.start + |q.consumed|]
              && q.items == l[q.start + |q.consumed|..q.start + |q.consumed| + |q.items|]
              && (Registered(q) ==> q.consumed + q.items == l[q.start..])
    {
      var l, d := LogOf(log, q.run), q.Delivered();
      assert Contiguous(q, log);
      assert q.consumed == d[..|q.consumed|] && q.items == d[|q.consumed|..];
    }

    /** Two live subscribers of one run agree on everything since the later of them came,
        whatever any other subscriber does. */
    lemma LiveSubscribersAgree(early: Queue, late: Queue)
      requires Valid() && early in queues && late in queues
      requires Registered(early) && Registered(late) && early.run == late.run && early.start <= late.start
      ensures late.Delivered() == early.Delivered()[late.start - early.start..]
    {
      var l := LogOf(log, early.run);
      assert Contiguous(early, log) && Contiguous(late, log);
      assert l[early.start..][late.start - early.start..] == l[late.start..];
    }

    /** A websocket client replays first and subscribes afterwards. Its page was read when the
        log was `replayed`; a live client has the whole log from its cursor on exactly when
        nothing of its run was published before it subscribed, and otherwise lacks just that. */
    lemma StreamIsGaplessIff(q: Queue, replayed: seq<Event>, cursor: Option<nat>, page: seq<Event>)
      requires Valid() && q in queues && Registered(q)
      requires replayed <= LogOf(log, q.run) && |replayed| <= q.start && DistinctIds(replayed)
      requires cursor.Some? ==> cursor.value < |replayed|
      requires var since := if cursor.Some? then Some(replayed[cursor.value].id) else None;
               page == Replay(LastOf(replayed, BUFFER_LIMIT), since)
      ensures var l, from := LogOf(log, q.run), ReadsFrom(|replayed|, cursor);
              && (page + q.Delivered() == l[from..] <==> q.start == |replayed|)
              && page + l[|replayed|..q.start] + q.Delivered() == l[from..]
    {
      var l, from := LogOf(log, q.run), ReadsFrom(|replayed|, cursor);
      hide DistinctIds, Replay, LastOf, ReadsFrom;
      PollReads(replayed, cursor);
      ClientSeesNoGap(q);
      PageThenQueue(l, replayed, from, q.start);
    }
  }

  /** What an offered queue holds afterwards. */
  lemma QueueAfter(start: nat, consumed: seq<Event>, items: seq<Event>, l: seq<Event>, event: Event)
    requires Block(start, consumed + items, l) && |items| <= SUBSCRIBER_QUEUE_LIMIT
    ensures Block(start, consumed + items, l + [event])
    ensures var r := Offered(items, event);
            && |r| <= SUBSCRIBER_QUEUE_LIMIT
            && consumed + r == consumed + items + (if |items| < SUBSCRIBER_QUEUE_LIMIT then [event] else [])
            && (start + |consumed + items| == |l| ==> Block(start, consumed + r, l + [event]))
  {
    BlockGrows(start, consumed + items, l, event);
    assert consumed + (items + [event]) == consumed + items + [event];
  }

  /** A block stays one as the log grows, and one that reached the end may grow with it. */
  lemma BlockGrows(start: nat, d: seq<Event>, l: seq<Event>, event: Event)
    requires Block(start, d, l)
    ensures Block(start, d, l + [event])
    ensures start + |d| == |l| ==> Block(start, d + [event], l + [event])
  {}

  lemma LastOfAppend(log: seq<Event>, event: Event)
    ensures LastOf(LastOf(log, BUFFER_LIMIT) + [event], BUFFER_LIMIT) == LastOf(log + [event], BUFFER_LIMIT)
  {
    var kept := LastOf(log, BUFFER_LIMIT);
    if |log| >= BUFFER_LIMIT {
      var from := |log| - BUFFER_LIMIT;
      assert kept + [event] == (log + [event])[from..];
      assert (log + [event])[from..][1..] == (log + [event])[from + 1..];
    }
  }
}
