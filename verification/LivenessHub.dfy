/**
 The per-organisation fan-out of charger liveness events. Every subscriber has its own bounded queue;
 a full queue gives up its oldest entry for the newest one.
 */
module LivenessHub {
  import opened Common

  /** A timestamp as text; `instant` is absent when the text does not parse. */
  datatype Stamp = Stamp(text: string, instant: Option<int>)

  /** What a subscriber receives: an event without its organisation, or the closing sentinel. */
  datatype Item = Event(station: Option<string>, at: Option<Stamp>, serverTime: Option<string>) | Closing

  /** A notification as decoded; `Malformed` is a payload that is not a JSON object. */
  datatype Payload =
    | Malformed
    | Note(org: Option<string>, station: Option<string>, at: Option<Stamp>, serverTime: Option<string>)

  /** A notification and the clock when it arrived. */
  datatype Arrival = Arrival(payload: Payload, now: int)

  const CAPACITY: nat := 50

  predicate Given(text: Option<string>) {
    text.Some? && text.value != ""
  }

  /** A full queue gives up its oldest entry. */
  function Push(items: seq<Item>, item: Item): seq<Item> {
    if |items| < CAPACITY then items + [item] else items[1..] + [item]
  }

  // ---------------------------------------------------------------- what the history means

  function Outbound(p: Payload): Item
    requires p.Note?
  {
    Event(p.station, p.at, p.serverTime)
  }

  predicate IsFor(p: Payload, org: string) {
    p.Note? && Given(p.org) && p.org.value == org
  }

  /** The events of one organisation in a history of arrivals. */
  function EventsOf(history: seq<Arrival>, org: string): seq<Item> {
    if history == [] then []
    else
      var last := history[|history| - 1].payload;
      EventsOf(history[..|history| - 1], org) + if IsFor(last, org) then [Outbound(last)] else []
  }

  predicate Reports(p: Payload, station: string) {
    p.Note? && Given(p.station) && p.station.value == station && p.at.Some? && p.at.value.text != ""
  }

  /** The instant of the last arrival that reports on a station. */
  function LastSeen(history: seq<Arrival>, station: string): Option<int> {
    if history == [] then None
    else
      var last := history[|history| - 1];
      if !Reports(last.payload, station) then LastSeen(history[..|history| - 1], station)
      else if last.payload.at.value.instant.Some? then last.payload.at.value.instant
      else Some(last.now)
  }

  lemma EventsGrow(history: seq<Arrival>, a: Arrival, org: string)
    ensures EventsOf(history + [a], org) ==
            EventsOf(history, org) + if IsFor(a.payload, org) then [Outbound(a.payload)] else []
  {
    assert (history + [a])[..|history|] == history;
  }

  /** The cache holds the last instant of every station seen, and nothing else. */
  ghost predicate CacheAgrees(cache: map<string, int>, history: seq<Arrival>) {
    forall s {:trigger LastSeen(history, s)} :: LastSeen(history, s) == if s in cache then Some(cache[s]) else None
  }

  function Remember(cache: map<string, int>, a: Arrival): map<string, int> {
    var p := a.payload;
    if p.Note? && Given(p.station) && p.at.Some? && p.at.value.text != ""
    then cache[p.station.value := if p.at.value.instant.Some? then p.at.value.instant.value else a.now]
    else cache
  }

  lemma CacheFollows(cache: map<string, int>, history: seq<Arrival>, a: Arrival)
    requires CacheAgrees(cache, history)
    ensures CacheAgrees(Remember(cache, a), history + [a])
  {
    assert (history + [a])[..|history|] == history;
  }

  // ---------------------------------------------------------------- queues

  /** The past of a queue: the entries that have left it, those that its subscriber took, and their
      places among the former. */
  datatype Past = Past(gone: seq<Item>, drained: seq<Item>, places: seq<nat>)

  /** What was drained is an in-order subsequence of what has left the queue. */
  ghost predicate InOrder(past: Past) {
    && |past.places| == |past.drained|
    && (forall i :: 0 <= i < |past.places| ==>
          past.places[i] < |past.gone| && past.gone[past.places[i]] == past.drained[i])
    && (forall i, j :: 0 <= i < j < |past.places| ==> past.places[i] < past.places[j])
  }

  /** Entries are dropped only from a full queue: one that is never drained then holds the latest ones. */
  ghost predicate Consistent(items: seq<Item>, past: Past) {
    && |items| <= CAPACITY && InOrder(past)
    && (past.drained == [] && past.gone != [] ==> |items| == CAPACITY)
  }

  function Offered(items: seq<Item>, past: Past): Past {
    if |items| < CAPACITY then past else past.(gone := past.gone + [items[0]])
  }

  function Taken(items: seq<Item>, past: Past): Past
    requires items != []
  {
    Past(past.gone + [items[0]], past.drained + [items[0]], past.places + [|past.gone|])
  }

  /** A consistent queue that was sent exactly `events`: it holds a suffix of them. */
  ghost predicate Follows(items: seq<Item>, past: Past, events: seq<Item>) {
    Consistent(items, past) && past.gone + items == events
  }

  lemma OfferKeeps(items: seq<Item>, past: Past, events: seq<Item>, item: Item)
    requires Follows(items, past, events)
    ensures Follows(Push(items, item), Offered(items, past), events + [item])
  {
    if |items| == CAPACITY {
      assert items == [items[0]] + items[1..];
    }
  }

  lemma FollowsOn(items: seq<Item>, past: Past, since: nat, events: seq<Item>, item: Item)
    requires since <= |events| && Follows(items, past, events[since..])
    ensures Follows(Push(items, item), Offered(items, past), (events + [item])[since..])
  {
    OfferKeeps(items, past, events[since..], item);
    assert (events + [item])[since..] == events[since..] + [item];
  }

  lemma TakeKeeps(items: seq<Item>, past: Past, events: seq<Item>)
    requires Follows(items, past, events) && items != []
    ensures Follows(items[1..], Taken(items, past), events)
  {
    assert items == [items[0]] + items[1..];
  }

  /** A subscriber's queue. */
  class Queue {
    const org: string
    ghost const since: nat          // its organisation's events before the subscription
    var items: seq<Item>
    ghost var past: Past

    constructor (org: string, ghost since: nat)
      ensures this.org == org && this.since == since && items == [] && past == Past([], [], [])
    {
      this.org, this.since := org, since;
      items, past := [], Past([], [], []);
    }

    /** A bounded put that refuses a full queue. */
    method PutNowait(item: Item) returns (ok: bool)
      modifies this`items
      ensures ok == (|old(items)| < CAPACITY)
      ensures items == if ok then old(items) + [item] else old(items)
    {
      ok := |items| < CAPACITY;
      if ok {
        items := items + [item];
      }
    }

    /** The oldest entry, if there is one. */
    method GetNowait() returns (r: Option<Item>)
      modifies this`items
      ensures old(items) == [] ==> r == None && items == []
      ensures old(items) != [] ==> r == Some(old(items)[0]) && items == old(items)[1..]
    {
      if items == [] {
        return None;
      }
      r := Some(items[0]);
      items := items[1..];
    }

    /** The subscriber takes the oldest entry; what it has taken stays in order. */
    method Drain(ghost events: seq<Item>) returns (r: Option<Item>)
      requires Follows(items, past, events)
      modifies this
      ensures Follows(items, past, events)
      ensures old(items) == [] ==> r == None && items == [] && past == old(past)
      ensures old(items) != [] ==> r == Some(old(items)[0]) && items == old(items)[1..]
      ensures old(items) != [] ==> past.drained == old(past.drained) + [old(items)[0]]
    {
      if items != [] {
        TakeKeeps(items, past, events);
        past := Taken(items, past);
      }
      r := GetNowait();
    }

    /** Put, and if the queue is full evict its oldest entry and put again. */
    method Offer(item: Item)
      requires |items| <= CAPACITY
      modifies this
      ensures items == Push(old(items), item) && past == Offered(old(items), old(past))
    {
      past := Offered(items, past);
      var ok := PutNowait(item);
      if !ok {
        var _ := GetNowait();
        var again := PutNowait(item);
      }
    }
  }

  // ---------------------------------------------------------------- hub

  /** Offers one item to each of `queues`. */
  method OfferAll(queues: set<Queue>, item: Item)
    requires forall q <- queues :: |q.items| <= CAPACITY
    modifies queues
    ensures forall q <- queues :: q.items == Push(old(q.items), item) && q.past == Offered(old(q.items), old(q.past))
  {
    var left := queues;
    while left != {}
      invariant left <= queues
      invariant forall q <- left :: q.items == old(q.items) && q.past == old(q.past)
      invariant forall q <- queues - left ::
                  q.items == Push(old(q.items), item) && q.past == Offered(old(q.items), old(q.past))
      decreases left
    {
      var q :| q in left;
      q.Offer(item);
      left := left - {q};
    }
  }

  class Hub {
    var subs: map<string, set<Queue>>
    var lastInteraction: map<string, int>
    var running: bool
    ghost var history: seq<Arrival>
    ghost var registered: set<Queue>

    constructor ()
      ensures Valid() && subs == map[] && registered == {} && history == [] && !running
    {
      subs, lastInteraction, running, history, registered := map[], map[], false, [], {};
    }

    /** The buckets hold the registered queues, each under its own organisation; none is empty. */
    ghost predicate BucketsOk()
      reads this
    {
      && (forall o :: o in subs ==> subs[o] != {})
      && (forall o, q :: o in subs && q in subs[o] ==> q in registered && q.org == o)
      && (forall q :: q in registered ==> q.org in subs && q in subs[q.org])
    }

    /** A registered queue has been sent exactly its organisation's events since it subscribed. */
    ghost predicate UpToDate(q: Queue)
      reads this, q
    {
      q.since <= |EventsOf(history, q.org)| && Follows(q.items, q.past, EventsOf(history, q.org)[q.since..])
    }

    ghost predicate Valid()
      reads this, registered
    {
      BucketsOk() && CacheAgrees(lastInteraction, history) && AllUpToDate()
    }

    method Start()
      requires Valid()
      modifies this`running
      ensures Valid() && running
    {
      running := true;
    }

    method Subscribe(org: string) returns (q: Queue)
      requires Valid()
      modifies this`subs, this`registered
      ensures Valid() && fresh(q) && q.org == org && q.since == |EventsOf(history, org)| && q.items == []
      ensures registered == old(registered) + {q}
    {
      ghost var events := EventsOf(history, org);
      q := new Queue(org, |events|);
      assert events[|events|..] == [];
      Register(q);
    }

    /** Adds a queue that is up to date to the bucket of its organisation. */
    method Register(q: Queue)
      requires Valid() && UpToDate(q)
      modifies this`subs, this`registered
      ensures Valid() && registered == old(registered) + {q}
    {
      var bucket := if q.org in subs then subs[q.org] else {};
      subs := subs[q.org := bucket + {q}];
      registered := registered + {q};
    }

    method Unsubscribe(org: string, q: Queue)
      requires Valid()
      modifies this`subs, this`registered
      ensures Valid()
      ensures registered == old(registered) - if q.org == org then {q} else {}
    {
      if org !in subs {
        return;
      }
      var bucket := subs[org] - {q};
      if bucket == {} {
        subs := subs - {org};
      } else {
        subs := subs[org := bucket];
      }
      if q.org == org {
        registered := registered - {q};
      }
    }

    ghost predicate Bounded()
      reads this, registered
    {
      forall q :: q in registered ==> |q.items| <= CAPACITY
    }

    /** Offers an item to the queues of one organisation and to no other. */
    method FanOut(org: string, item: Item)
      requires BucketsOk() && Bounded()
      modifies registered
      ensures BucketsOk() && Bounded()
      ensures forall q <- registered :: q.org == org ==>
                q.items == Push(old(q.items), item) && q.past == Offered(old(q.items), old(q.past))
      ensures forall q <- registered :: q.org != org ==> q.items == old(q.items) && q.past == old(q.past)
    {
      if org in subs {
        assert forall q <- subs[org] :: q in registered;
        OfferAll(subs[org], item);
      }
    }

    ghost predicate AllUpToDate()
      reads this, registered
    {
      forall q :: q in registered ==> UpToDate(q)
    }

    /** Fans an arrival out to its organisation, if it names one. */
    method Publish(a: Arrival)
      requires BucketsOk() && AllUpToDate()
      modifies this`history, registered
      ensures BucketsOk() && AllUpToDate() && history == old(history) + [a]
      ensures forall q <- registered ::
                q.items == if IsFor(a.payload, q.org) then Push(old(q.items), Outbound(a.payload)) else old(q.items)
    {
      if a.payload.Note? && Given(a.payload.org) {
        FanOut(a.payload.org.value, Outbound(a.payload));
      }
      history := history + [a];
      forall q | q in registered
        ensures UpToDate(q)
      {
        assert old(UpToDate(q));
        EventsGrow(old(history), a, q.org);
        if IsFor(a.payload, q.org) {
          FollowsOn(old(q.items), old(q.past), q.since, EventsOf(old(history), q.org), Outbound(a.payload));
        }
      }
    }

    /** A notification: the cache sees every one that reports on a station; only its own organisation's
        queues receive it. */
    method OnNotify(p: Payload, now: int)
      requires Valid()
      modifies this`lastInteraction, this`history, registered
      ensures Valid() && history == old(history) + [Arrival(p, now)]
      ensures forall q <- registered :: p.Note? && p.org == Some(q.org) && q.org != "" ==>
                q.items == (if |old(q.items)| < 50 then old(q.items) else old(q.items)[1..])
                           + [Event(p.station, p.at, p.serverTime)]
      ensures forall q <- registered :: !(p.Note? && p.org == Some(q.org) && q.org != "") ==> q.items == old(q.items)
    {
      CacheFollows(lastInteraction, history, Arrival(p, now));
      lastInteraction := Remember(lastInteraction, Arrival(p, now));
      assert forall q :: q in registered ==> old(UpToDate(q));
      Publish(Arrival(p, now));
    }

    method GetLastInteraction(station: string) returns (r: Option<int>)
      requires Valid()
      ensures r == LastSeen(history, station)
    {
      return if station in lastInteraction then Some(lastInteraction[station]) else None;
    }

    /** The subscriber drains its queue; the hub does not notice. */
    method Drain(q: Queue) returns (r: Option<Item>)
      requires Valid() && q in registered
      modifies q
      ensures Valid()
      ensures r == if old(q.items) == [] then None else Some(old(q.items)[0])
    {
      r := q.Drain(EventsOf(history, q.org)[q.since..]);
    }

    /** Offers the sentinel to every registered queue, bucket by bucket. */
    method CloseAll()
      requires BucketsOk() && Bounded()
      modifies registered
      ensures forall q <- registered ::
                q.items == Push(old(q.items), Closing) && q.past == Offered(old(q.items), old(q.past))
    {
      var left := subs.Keys;
      while left != {}
        invariant left <= subs.Keys && BucketsOk() && Bounded()
        invariant forall q <- registered :: q.org in left ==> q.items == old(q.items) && q.past == old(q.past)
        invariant forall q <- registered :: q.org !in left ==>
                    q.items == Push(old(q.items), Closing) && q.past == Offered(old(q.items), old(q.past))
        decreases left
      {
        var o :| o in left;
        FanOut(o, Closing);
        left := left - {o};
      }
    }

    /** The first half of `stop`, up to where it waits for the listener to end. Only a running hub goes on. */
    method BeginStop() returns (stopping: bool)
      requires Valid()
      modifies this`running
      ensures Valid() && !running && stopping == old(running)
    {
      stopping := running;
      running := false;
    }

    /** The second half: whoever is registered by then gets the sentinel last and is forgotten. While `stop`
        waits, queues may come and go and events may arrive; all that matters is that the hub is valid. */
    method FinishStop()
      requires Valid()
      modifies this`subs, this`registered, registered
      ensures Valid() && subs == map[] && registered == {}
      ensures forall q <- old(registered) ::
                && q.items == Push(old(q.items), Closing)
                && Follows(q.items, q.past, EventsOf(history, q.org)[q.since..] + [Closing])
    {
      CloseAll();
      forall q | q in registered
        ensures Follows(q.items, q.past, EventsOf(history, q.org)[q.since..] + [Closing])
      {
        OfferKeeps(old(q.items), old(q.past), EventsOf(history, q.org)[q.since..], Closing);
      }
      subs, registered := map[], {};
    }

    /** Stopping without interruption: a running hub puts the sentinel at the end of every registered queue
        and forgets them; any other does nothing. */
    method Stop()
      requires Valid()
      modifies this`running, this`subs, this`registered, registered
      ensures Valid() && !running
      ensures !old(running) ==> subs == old(subs) && registered == old(registered)
      ensures !old(running) ==> forall q <- registered :: q.items == old(q.items) && q.past == old(q.past)
      ensures old(running) ==> subs == map[] && registered == {}
      ensures old(running) ==> forall q <- old(registered) ::
                && q.items == Push(old(q.items), Closing)
                && Follows(q.items, q.past, EventsOf(history, q.org)[q.since..] + [Closing])
    {
      var stopping := BeginStop();
      if stopping {
        FinishStop();
      }
    }
  }
}
