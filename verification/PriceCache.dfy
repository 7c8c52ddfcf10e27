/**
 The bounded least-recently-used price cache in front of the read-through. The fill of an hour does not
 depend on the request that asked for it, so an entry is right until a row arrives that decides its hour.
 */
module PriceCache {
  import opened Common
  import opened PriceFill

  /** The hour buckets of `[start, end)`, oldest first. */
  function HoursFrom(cursor: int, end: int): (hours: seq<int>)
    ensures forall h :: h in hours ==> cursor <= h < end
    ensures forall i, j :: 0 <= i < j < |hours| ==> hours[i] < hours[j]
    decreases end - cursor
  {
    if end <= cursor then []
    else
      var later := HoursFrom(cursor + HOUR, end);
      assert forall i :: 0 <= i < |later| ==> later[i] in later;
      [cursor] + later
  }

  function ExpectedHours(start: int, end: int): seq<int> {
    HoursFrom(HourFloor(start), end)
  }

  lemma {:induction false} HoursAreWindow(cursor: int, end: int, h: int)
    requires cursor % HOUR == 0
    ensures h in HoursFrom(cursor, end) <==> h % HOUR == 0 && cursor <= h < end
    decreases end - cursor
  {
    if cursor < end {
      NextHour(cursor);
      HoursAreWindow(cursor + HOUR, end, h);
    }
  }

  lemma ExpectedAreWindow(start: int, end: int)
    ensures forall h :: h in ExpectedHours(start, end) <==> InWindow(start, end, h)
  {
    forall h
      ensures h in ExpectedHours(start, end) <==> InWindow(start, end, h)
    {
      HoursAreWindow(HourFloor(start), end, h);
    }
  }

  /** The expected buckets are exactly the full hours that overlap the request. */
  lemma ExpectedMeans(start: int, end: int, h: int)
    ensures h in ExpectedHours(start, end) <==> h % HOUR == 0 && start < h + HOUR && h < end
  {
    ExpectedAreWindow(start, end);
    WindowMeans(start, end, h);
  }

  type Slot = (string, int)

  ghost predicate NoRepeats(order: seq<Slot>) {
    forall i, j :: 0 <= i < j < |order| ==> order[i] != order[j]
  }

  function Without(order: seq<Slot>, key: Slot): (rest: seq<Slot>)
    ensures NoRepeats(order) ==> NoRepeats(rest)
    ensures forall k :: k in rest <==> k in order && k != key
    ensures |rest| <= |order|
  {
    if order == [] then []
    else if order[0] == key then Without(order[1..], key)
    else
      var tail := Without(order[1..], key);
      assert forall i :: 0 <= i < |tail| ==> tail[i] in order[1..];
      [order[0]] + tail
  }

  /** The latest entries of the order are exactly `keys`, in this order. */
  ghost predicate EndsWith(order: seq<Slot>, keys: seq<Slot>) {
    |keys| <= |order| && order[|order| - |keys|..] == keys
  }

  lemma {:induction false} WithoutKeepsEnd(order: seq<Slot>, keys: seq<Slot>, key: Slot)
    requires EndsWith(order, keys) && key !in keys
    ensures EndsWith(Without(order, key), keys)
  {
    if |order| == |keys| {
      assert order == keys;
      WithoutNothing(order, key);
    } else {
      assert order[1..][|order| - 1 - |keys|..] == keys;
      WithoutKeepsEnd(order[1..], keys, key);
    }
  }

  lemma {:induction false} WithoutNothing(order: seq<Slot>, key: Slot)
    requires key !in order
    ensures Without(order, key) == order
  {
    if order != [] { WithoutNothing(order[1..], key); }
  }

  /** The order after a key was used: it comes last. */
  function Touch(order: seq<Slot>, key: Slot): seq<Slot> {
    Without(order, key) + [key]
  }

  lemma TouchKeeps(order: seq<Slot>, key: Slot, recent: seq<Slot>)
    requires NoRepeats(order) && EndsWith(order, recent) && key !in recent
    ensures NoRepeats(Touch(order, key)) && EndsWith(Touch(order, key), recent + [key])
    ensures forall k :: k in Touch(order, key) <==> k in order || k == key
    ensures |Touch(order, key)| <= |order| + Bit(key !in order)
  {
    WithoutKeepsEnd(order, recent, key);
    var rest := Without(order, key);
    assert (rest + [key])[|rest| - |recent|..] == rest[|rest| - |recent|..] + [key];
    if key in order { WithoutOne(order, key); }
  }

  /** The cached ones among some hours, in their order. */
  ghost function HitKeys(zone: string, hours: seq<int>, cache: map<Slot, real>): (keys: seq<Slot>)
    ensures forall k :: k in keys <==> k.0 == zone && k.1 in hours && k in cache
  {
    if hours == [] then []
    else
      var before, key := HitKeys(zone, hours[..|hours| - 1], cache), (zone, hours[|hours| - 1]);
      assert forall h :: h in hours <==> h in hours[..|hours| - 1] || h == hours[|hours| - 1];
      if key in cache then before + [key] else before
  }

  /** `move_to_end`, or the end position of a new key. */
  method MoveToEnd(order: seq<Slot>, key: Slot, ghost recent: seq<Slot>) returns (next: seq<Slot>)
    requires NoRepeats(order) && EndsWith(order, recent) && key !in recent
    ensures NoRepeats(next) && EndsWith(next, recent + [key])
    ensures forall k :: k in next <==> k in order || k == key
    ensures |next| <= |order| + Bit(key !in order)
  {
    TouchKeeps(order, key, recent);
    next := Touch(order, key);
  }

  lemma DropOldest(order: seq<Slot>, recent: seq<Slot>)
    requires NoRepeats(order) && order != []
    ensures NoRepeats(order[1..]) && forall k :: k in order[1..] <==> k in order && k != order[0]
    ensures EndsWith(order, recent) && |recent| < |order| ==> EndsWith(order[1..], recent)
  {
    assert order == [order[0]] + order[1..];
  }

  /** The order lists the cached keys once each, and there are not too many. */
  ghost predicate WellFormed(order: seq<Slot>, cache: map<Slot, real>) {
    NoRepeats(order) && forall k :: k in order <==> k in cache
  }

  /** The entry was written and no other entry changed, though some may be gone. */
  ghost predicate Holds(before: map<Slot, real>, cache: map<Slot, real>, key: Slot, price: real) {
    forall k :: k in cache ==> if k == key then cache[k] == price else k in before && cache[k] == before[k]
  }

  // ---------------------------------------------------------------- what a pull does to the cache

  /** A row that the table did not have decides the hour in `more`, with another price. */
  ghost predicate Disturbed(table: Table, more: Table, zone: string, hour: int, price: real) {
    exists t ::
      && hour - HOUR <= t <= hour && Key(t, zone, DAM) !in table
      && PriceAt(more, zone, t).Some? && PriceAt(more, zone, t).value / 1000.0 != price
      && forall u :: t < u <= hour ==> PriceAt(more, zone, u).None?
  }

  /** When rows are added, a price stays right exactly when none of them decides its hour anew. */
  lemma EntryStaysExactly(table: Table, more: Table, zone: string, hour: int, price: real)
    requires Extends(more, table) && Fill(table, zone, hour, HOUR) == Some(price)
    ensures Fill(more, zone, hour, HOUR) == Some(price) <==> !Disturbed(table, more, zone, hour, price)
  {
    CoverageStays(table, more, zone, hour - HOUR, hour);
    var was := FillSource(table, zone, hour - HOUR, hour);
    var now := FillSource(more, zone, hour - HOUR, hour);
    NewRowsMoveFill(table, more, zone, hour - HOUR, hour, was, now);
    if was < now {
      assert PriceAt(table, zone, now).None?;
      assert Key(now, zone, DAM) !in table;
    } else {
      assert forall t :: PriceAt(more, zone, t).Some? && hour - HOUR <= t <= hour && t != now ==> t < now;
    }
  }

  ghost predicate Hourly(table: Table) {
    forall k :: k in table ==> k.time % HOUR == 0
  }

  ghost predicate HourlyRows(pulled: seq<(int, real)>) {
    forall i :: 0 <= i < |pulled| ==> pulled[i].0 % HOUR == 0
  }

  lemma HourGap(t: int, hour: int)
    requires t % HOUR == 0 && hour % HOUR == 0 && hour - HOUR <= t <= hour
    ensures t == hour || t == hour - HOUR
  {
    NextHour(hour - HOUR);
  }

  /** The first price pulled for an hour, if there is one. */
  function FirstPulled(pulled: seq<(int, real)>, hour: int): (r: Option<real>)
    ensures r.None? <==> forall i :: 0 <= i < |pulled| ==> pulled[i].0 != hour
  {
    if pulled == [] then None
    else if pulled[0].0 == hour then Some(pulled[0].1)
    else
      assert forall i :: 0 < i < |pulled| ==> pulled[i] == pulled[1..][i - 1];
      FirstPulled(pulled[1..], hour)
  }

  lemma {:induction false} FirstPulledIs(pulled: seq<(int, real)>, hour: int, i: nat)
    requires i < |pulled| && pulled[i].0 == hour && forall j :: 0 <= j < i ==> pulled[j].0 != hour
    ensures FirstPulled(pulled, hour) == Some(pulled[i].1)
  {
    if i > 0 { FirstPulledIs(pulled[1..], hour, i - 1); }
  }

  /** The price that an absent row gets. */
  lemma InsertedPrice(table: Table, zone: string, pulled: seq<(int, real)>, other: string, t: int)
    requires Key(t, other, DAM) !in table
    ensures PriceAt(InsertNew(table, zone, pulled), other, t) ==
            if other == zone && FirstPulled(pulled, t).Some? then Some(FirstPulled(pulled, t).value * 1000.0) else None
  {
    var more, k := InsertNew(table, zone, pulled), Key(t, other, DAM);
    InsertAddsAbsent(table, zone, pulled, k);
    if k in more {
      var i :| 0 <= i < |pulled| && pulled[i].0 == t && more[k] == Some(pulled[i].1 * 1000.0)
               && forall j :: 0 <= j < i ==> pulled[j].0 != t;
      FirstPulledIs(pulled, t, i);
    }
  }

  /** With hourly rows everywhere, a pull makes the price of an hour wrong exactly when it is of the same zone,
      the table had no row for the hour, and the first price pulled for it is another one. */
  lemma HourlyDisturbsExactly(table: Table, zone: string, pulled: seq<(int, real)>, other: string, hour: int,
                              price: real)
    requires Hourly(table) && HourlyRows(pulled) && hour % HOUR == 0 && Fill(table, other, hour, HOUR) == Some(price)
    ensures Disturbed(table, InsertNew(table, zone, pulled), other, hour, price) <==>
            && other == zone && Key(hour, zone, DAM) !in table
            && FirstPulled(pulled, hour).Some? && FirstPulled(pulled, hour).value != price
  {
    var more := InsertNew(table, zone, pulled);
    var was := FillSource(table, other, hour - HOUR, hour);
    assert Key(was, other, DAM) in table;
    HourGap(was, hour);
    InsertKeepsRows(table, zone, pulled);
    assert PriceAt(more, other, was) == PriceAt(table, other, was);
    forall t | hour - HOUR <= t <= hour && Key(t, other, DAM) !in table && PriceAt(more, other, t).Some? && t != hour
      ensures t < was
    {
      InsertedPrice(table, zone, pulled, other, t);
      HourGap(t, hour);
    }
    if Key(hour, other, DAM) !in table {
      InsertedPrice(table, zone, pulled, other, hour);
    }
  }

  // ---------------------------------------------------------------- two stale entries

  /** A table with one price of 50 EUR/MWh at hour 0; it fills hour 1 as well. */
  function OneRow(): Table {
    map[Key(0, "DK1", DAM) := Some(50.0)]
  }

  lemma OneRowFills()
    ensures Fill(OneRow(), "DK1", HOUR, HOUR) == Some(0.05)
    ensures Fill(OneRow(), "DK1", -HOUR, HOUR) == None
  {
    LatestIsLatest(OneRow(), "DK1", 0, HOUR, 0);
    LatestNeedsPrice(OneRow(), "DK1", -2 * HOUR, -HOUR);
  }

  /** Pulling one row for a request that starts an hour before the table does. */
  lemma OnePull(end: int, t: int)
    requires end > -HOUR && 0 < t <= HOUR
    ensures var more := ReadThrough(OneRow(), "DK1", -HOUR, end, true, Some([(t, 0.08)]));
            Fill(more, "DK1", HOUR, HOUR) == Some(0.08)
  {
    OneRowFills();
    assert HourFloor(-HOUR) == -HOUR;
    assert InWindow(-HOUR, end, -HOUR);
    assert HasGap(OneRow(), "DK1", -HOUR, end, HOUR);
    var pulled := [(t, 0.08)];
    assert pulled[..0] == [] && InsertNew(OneRow(), "DK1", []) == OneRow() && Key(t, "DK1", DAM) !in OneRow();
    var more := InsertNew(OneRow(), "DK1", pulled);
    assert more == OneRow()[Key(t, "DK1", DAM) := Some(0.08 * 1000.0)];
    LatestIsLatest(more, "DK1", 0, HOUR, t);
  }

  /** The request [-1h, 1h) pulls a quarter-hour row inside its own window; the cached price of hour 1, which
      the request does not contain, is wrong from then on. */
  lemma QuarterHourDisturbs()
    ensures var more := ReadThrough(OneRow(), "DK1", -HOUR, HOUR, true, Some([(HOUR / 4, 0.08)]));
            && !InWindow(-HOUR, HOUR, HOUR)
            && Fill(OneRow(), "DK1", HOUR, HOUR) == Some(0.05) && Fill(more, "DK1", HOUR, HOUR) == Some(0.08)
  {
    OneRowFills();
    OnePull(HOUR, HOUR / 4);
  }

  /** So does an hourly row that the answer to the request [-1h, 0h) holds for an hour outside it. */
  lemma RowOutsideDisturbs()
    ensures var more := ReadThrough(OneRow(), "DK1", -HOUR, 0, true, Some([(HOUR, 0.08)]));
            && !InWindow(-HOUR, 0, HOUR)
            && Fill(OneRow(), "DK1", HOUR, HOUR) == Some(0.05) && Fill(more, "DK1", HOUR, HOUR) == Some(0.08)
  {
    OneRowFills();
    OnePull(0, HOUR);
  }

  // ---------------------------------------------------------------- the cache

  class LruPriceLookup {
    const store: PriceStore
    const maxEntries: nat
    var order: seq<Slot>            // least recently used first
    var cache: map<Slot, real>
    ghost var origin: map<Slot, Table>   // the table that each entry was read from

    ghost predicate Bounded()
      reads this
    {
      WellFormed(order, cache) && |order| <= maxEntries
    }

    /** Every entry was right when it was stored, and the table has only gained rows since. */
    ghost predicate Traced()
      reads this, store
    {
      TracedBy(cache, origin, store.rows)
    }

    constructor (store: PriceStore, maxEntries: nat)
      ensures Bounded() && Traced() && this.store == store && this.maxEntries == maxEntries && cache == map[]
    {
      this.store, this.maxEntries := store, maxEntries;
      order, cache, origin := [], map[], map[];
    }

    /** `_put`: the entry becomes the most recent one and the oldest ones make room. */
    method Put(key: Slot, price: real, ghost recent: seq<Slot>)
      requires Bounded() && EndsWith(order, recent) && key !in recent
      modifies this`order, this`cache
      ensures Bounded()
      ensures Holds(old(cache), cache, key, price)
      ensures |recent| < maxEntries ==> EndsWith(order, recent + [key])
    {
      Insert(key, price, recent);
      Shrink(recent + [key]);
    }

    method Insert(key: Slot, price: real, ghost recent: seq<Slot>)
      requires WellFormed(order, cache) && EndsWith(order, recent) && key !in recent
      modifies this`order, this`cache
      ensures WellFormed(order, cache) && cache == old(cache)[key := price] && EndsWith(order, recent + [key])
    {
      order := MoveToEnd(order, key, recent);
      cache := cache[key := price];
    }

    /** Evicts the oldest entries until the bound holds. */
    method Shrink(ghost recent: seq<Slot>)
      requires WellFormed(order, cache)
      modifies this`order, this`cache
      ensures Bounded() && (forall k :: k in cache ==> k in old(cache) && cache[k] == old(cache)[k])
      ensures EndsWith(old(order), recent) && |recent| <= maxEntries ==> EndsWith(order, recent)
    {
      while |order| > maxEntries
        invariant WellFormed(order, cache)
        invariant forall k :: k in cache ==> k in old(cache) && cache[k] == old(cache)[k]
        invariant EndsWith(old(order), recent) && |recent| <= maxEntries ==> EndsWith(order, recent)
      {
        Evict(recent);
      }
    }

    /** `popitem(last=False)`. */
    method Evict(ghost recent: seq<Slot>)
      requires WellFormed(order, cache) && order != []
      modifies this`order, this`cache
      ensures WellFormed(order, cache) && order == old(order)[1..] && cache == old(cache) - {old(order)[0]}
      ensures EndsWith(old(order), recent) && |recent| < |old(order)| ==> EndsWith(order, recent)
    {
      DropOldest(order, recent);
      cache := cache - {order[0]};
      order := order[1..];
    }

    /** One request on any cache, stale entries included. When every hour is cached the answer is the cached
        prices and nothing is read; otherwise the table is that of the uncached lookup and the requested
        entries are renewed. A request that fits is answered like the uncached one exactly when `RightFor`
        holds of the cache before the call. */
    method Lookup(zone: string, start: int, end: int, hasToken: bool, pulled: Option<seq<(int, real)>>)
      returns (result: map<int, real>)
      requires Bounded()
      modifies this, store
      ensures Bounded()
      ensures store.rows == if AllCached(old(cache), zone, start, end) then old(store.rows)
                            else ReadThrough(old(store.rows), zone, start, end, hasToken, pulled)
      ensures |ExpectedHours(start, end)| <= maxEntries ==>
                (IsFillOf(result, store.rows, zone, start, end, HOUR) <==>
                 RightFor(old(cache), store.rows, zone, start, end))
      ensures Answers(result, old(cache), store.rows, zone, start, end)
      ensures Renewed(old(cache), cache, store.rows, zone, start, end)
      ensures AllCached(old(cache), zone, start, end) ==>
                cache == old(cache) && EndsWith(order, HitKeys(zone, ExpectedHours(start, end), cache))
      ensures old(Traced()) ==>
                Traced() && Retraced(old(cache), old(origin), cache, origin, store.rows, zone, start, end)
    {
      ghost var table, before, was := store.rows, cache, origin;
      result := Answer(zone, start, end, hasToken, pulled);
      ReadThroughExtends(table, zone, start, end, hasToken, pulled);
      origin := Origins(before, was, cache, store.rows, zone, start, end);
      RetraceKeeps(before, was, cache, table, store.rows, zone, start, end);
    }

    /** The request without the trace. */
    method Answer(zone: string, start: int, end: int, hasToken: bool, pulled: Option<seq<(int, real)>>)
      returns (result: map<int, real>)
      requires Bounded()
      modifies this`order, this`cache, store
      ensures Bounded()
      ensures store.rows == if AllCached(old(cache), zone, start, end) then old(store.rows)
                            else ReadThrough(old(store.rows), zone, start, end, hasToken, pulled)
      ensures |ExpectedHours(start, end)| <= maxEntries ==>
                (IsFillOf(result, store.rows, zone, start, end, HOUR) <==>
                 RightFor(old(cache), store.rows, zone, start, end))
      ensures Answers(result, old(cache), store.rows, zone, start, end)
      ensures Renewed(old(cache), cache, store.rows, zone, start, end)
      ensures AllCached(old(cache), zone, start, end) ==>
                cache == old(cache) && EndsWith(order, HitKeys(zone, ExpectedHours(start, end), cache))
    {
      var needed := ExpectedHours(start, end);
      ExpectedAreWindow(start, end);
      if needed == [] {
        NothingAsked(cache, store.rows, zone, start, end, hasToken, pulled);
        result := Fetch(store, zone, start, end, hasToken, pulled);
        return;
      }
      result := Hits(zone, needed);
      AllHit(result, needed);
      assert |result| == |needed| <==> AllCached(cache, zone, start, end) by { assert InWindow(start, end, needed[0]); }
      if |result| == |needed| {
        HitAnswers(cache, store.rows, zone, start, end, result);
      } else {
        result := Refill(zone, start, end, result, hasToken, pulled);
      }
    }

    /** Some hour is not cached: read through, store what came back and answer from the cache again. */
    method Refill(zone: string, start: int, end: int, hits: map<int, real>, hasToken: bool,
                  pulled: Option<seq<(int, real)>>)
      returns (result: map<int, real>)
      requires Bounded() && !AllCached(cache, zone, start, end)
      requires forall h :: h in hits <==> h in ExpectedHours(start, end) && (zone, h) in cache
      requires forall h :: h in hits ==> hits[h] == cache[(zone, h)]
      modifies this`order, this`cache, store
      ensures Bounded()
      ensures store.rows == ReadThrough(old(store.rows), zone, start, end, hasToken, pulled)
      ensures |ExpectedHours(start, end)| <= maxEntries ==>
                (IsFillOf(result, store.rows, zone, start, end, HOUR) <==>
                 RightFor(old(cache), store.rows, zone, start, end))
      ensures Answers(result, old(cache), store.rows, zone, start, end)
      ensures Renewed(old(cache), cache, store.rows, zone, start, end)
    {
      var needed := ExpectedHours(start, end);
      ExpectedAreWindow(start, end);
      ghost var before := cache;
      var current := Fetch(store, zone, start, end, hasToken, pulled);
      Store(zone, needed, current);
      StoredIsRenewed(before, cache, store.rows, zone, start, end, current);
      result := SecondPass(zone, needed, hits);
      Answered(before, cache, store.rows, zone, start, end, current, result);
    }

    /** An entry is wrong now exactly when a row that arrived since it was stored decides its hour. */
    lemma WrongExactly(k: Slot)
      requires Traced() && k in cache
      ensures k in origin
      ensures Fill(store.rows, k.0, k.1, HOUR) == Some(cache[k]) <==>
              !Disturbed(origin[k], store.rows, k.0, k.1, cache[k])
    {
      EntryStaysExactly(origin[k], store.rows, k.0, k.1, cache[k]);
    }

    /** For a traced cache the table after a request is that of the uncached lookup, and the answer is wrong only
        if every hour was cached and some row that arrived since decides one of them anew. */
    lemma TracedAnswer(zone: string, start: int, end: int, hasToken: bool, pulled: Option<seq<(int, real)>>)
      requires Traced()
      ensures AllCached(cache, zone, start, end) ==>
                && ReadThrough(store.rows, zone, start, end, hasToken, pulled) == store.rows
                && (RightFor(cache, store.rows, zone, start, end) <==>
                    forall h :: InWindow(start, end, h) ==>
                      !Disturbed(origin[(zone, h)], store.rows, zone, h, cache[(zone, h)]))
      ensures !AllCached(cache, zone, start, end) ==>
                RightFor(cache, ReadThrough(store.rows, zone, start, end, hasToken, pulled), zone, start, end)
    {
      ReadThroughExtends(store.rows, zone, start, end, hasToken, pulled);
      forall h | InWindow(start, end, h) && (zone, h) in cache
        ensures Fill(store.rows, zone, h, HOUR).Some?
        ensures Fill(ReadThrough(store.rows, zone, start, end, hasToken, pulled), zone, h, HOUR).Some?
        ensures Fill(store.rows, zone, h, HOUR) == Some(cache[(zone, h)]) <==>
                !Disturbed(origin[(zone, h)], store.rows, zone, h, cache[(zone, h)])
      {
        WrongExactly((zone, h));
        CoverageStays(origin[(zone, h)], store.rows, zone, h - HOUR, h);
        CoverageStays(store.rows, ReadThrough(store.rows, zone, start, end, hasToken, pulled), zone, h - HOUR, h);
      }
    }

    /** The second pass: every hour that is cached now overwrites the first answer. */
    method SecondPass(zone: string, needed: seq<int>, hits: map<int, real>) returns (result: map<int, real>)
      ensures forall h :: h in result <==> h in hits || (h in needed && (zone, h) in cache)
      ensures forall h :: h in result ==>
                result[h] == if h in needed && (zone, h) in cache then cache[(zone, h)] else hits[h]
    {
      result := hits;
      for i := 0 to |needed|
        invariant forall h :: h in result <==> h in hits || (h in needed[..i] && (zone, h) in cache)
        invariant forall h :: h in result ==>
                    result[h] == if h in needed[..i] && (zone, h) in cache then cache[(zone, h)] else hits[h]
      {
        if (zone, needed[i]) in cache {
          result := result[needed[i] := cache[(zone, needed[i])]];
        }
      }
      assert needed[..|needed|] == needed;
    }

    /** The first pass: cached hours are answered and become the most recent ones. */
    method Hits(zone: string, needed: seq<int>) returns (result: map<int, real>)
      requires Bounded() && forall i, j :: 0 <= i < j < |needed| ==> needed[i] < needed[j]
      modifies this`order
      ensures Bounded()
      ensures forall h :: h in result <==> h in needed && (zone, h) in cache
      ensures forall h :: h in result ==> result[h] == cache[(zone, h)]
      ensures EndsWith(order, HitKeys(zone, needed, cache))
    {
      result := map[];
      for i := 0 to |needed|
        invariant Bounded() && EndsWith(order, HitKeys(zone, needed[..i], cache))
        invariant forall h :: h in result <==> h in needed[..i] && (zone, h) in cache
        invariant forall h :: h in result ==> result[h] == cache[(zone, h)]
      {
        var key := (zone, needed[i]);
        assert needed[..i + 1][..i] == needed[..i] && needed[i] !in needed[..i];
        if key in cache {
          order := MoveToEnd(order, key, HitKeys(zone, needed[..i], cache));
          result := result[needed[i] := cache[key]];
        }
      }
      assert needed[..|needed|] == needed;
    }

    /** Fresh prices enter oldest hour first; when they all fit, they are all still there. */
    method Store(zone: string, needed: seq<int>, current: map<int, real>)
      requires Bounded() && forall i, j :: 0 <= i < j < |needed| ==> needed[i] < needed[j]
      requires forall h :: h in current ==> h in needed
      modifies this`order, this`cache
      ensures Bounded() && Updated(old(cache), cache, zone, current, needed)
      ensures |needed| <= maxEntries ==> forall h :: h in current ==> (zone, h) in cache
    {
      ghost var recent: seq<Slot> := [];
      ghost var fits := |needed| <= maxEntries;
      for i := 0 to |needed|
        invariant Bounded() && |recent| <= i && Updated(old(cache), cache, zone, current, needed[..i])
        invariant fits ==> EndsWith(order, recent)
        invariant Lists(recent, zone, needed[..i], current, fits)
      {
        assert needed[..i + 1] == needed[..i] + [needed[i]] && needed[i] !in needed[..i];
        ghost var before := cache;
        if needed[i] in current {
          Put((zone, needed[i]), current[needed[i]], recent);
          if fits { recent := recent + [(zone, needed[i])]; }
        }
        UpdatedMore(old(cache), before, cache, zone, current, needed[..i], needed[i]);
      }
      assert needed[..|needed|] == needed;
      assert forall k :: k in recent && fits ==> k in order;
    }
  }

  // ---------------------------------------------------------------- one request

  /** What the uncached lookup does to the table. */
  ghost function ReadThrough(table: Table, zone: string, start: int, end: int, hasToken: bool,
                             pulled: Option<seq<(int, real)>>): Table
  {
    if hasToken && HasGap(table, zone, start, end, HOUR) && pulled.Some? then InsertNew(table, zone, pulled.value)
    else table
  }

  lemma ReadThroughExtends(table: Table, zone: string, start: int, end: int, hasToken: bool,
                           pulled: Option<seq<(int, real)>>)
    ensures Extends(ReadThrough(table, zone, start, end, hasToken, pulled), table)
    ensures pulled.Some? ==> InsertNew(table, zone, Absent(table, zone, start, end, pulled.value)) ==
                             InsertNew(table, zone, pulled.value)
  {
    if pulled.Some? {
      InsertKeepsRows(table, zone, pulled.value);
      AbsentIsEnough(table, table, zone, start, end, pulled.value);
    }
  }

  /** The uncached lookup, with no other writer at work. */
  method Fetch(store: PriceStore, zone: string, start: int, end: int, hasToken: bool, pulled: Option<seq<(int, real)>>)
    returns (filled: map<int, real>)
    modifies store
    ensures store.rows == ReadThrough(old(store.rows), zone, start, end, hasToken, pulled)
    ensures Extends(store.rows, old(store.rows)) && IsFillOf(filled, store.rows, zone, start, end, HOUR)
  {
    ReadThroughExtends(store.rows, zone, start, end, hasToken, pulled);
    var pulls;
    filled, pulls := store.FetchOrPull(zone, start, end, HOUR, hasToken, pulled, t => t, t => t, t => t);
  }

  /** The stored hours have their current price, all other entries their old one. */
  ghost predicate Updated(before: map<Slot, real>, after: map<Slot, real>, zone: string, current: map<int, real>,
                          hours: seq<int>)
  {
    forall k :: k in after ==>
      if k.0 == zone && k.1 in current && k.1 in hours then after[k] == current[k.1]
      else k in before && after[k] == before[k]
  }

  lemma UpdatedMore(before: map<Slot, real>, mid: map<Slot, real>, after: map<Slot, real>, zone: string,
                    current: map<int, real>, hours: seq<int>, hour: int)
    requires Updated(before, mid, zone, current, hours)
    requires if hour in current then Holds(mid, after, (zone, hour), current[hour]) else after == mid
    ensures Updated(before, after, zone, current, hours + [hour])
  {
  }

  /** When the hours fit, `recent` lists exactly the ones stored so far. */
  ghost predicate Lists(recent: seq<Slot>, zone: string, hours: seq<int>, current: map<int, real>, fits: bool) {
    if fits then forall k :: k in recent <==> k.0 == zone && k.1 in hours && k.1 in current else recent == []
  }

  /** Every hour of a non-empty request is cached. */
  ghost predicate AllCached(cache: map<Slot, real>, zone: string, start: int, end: int) {
    && (exists h :: InWindow(start, end, h))
    && (forall h :: InWindow(start, end, h) ==> (zone, h) in cache)
  }

  /** When the cache before a request lets it be answered from `table`: every hour is cached at its price, or some
      hour is not cached and no cached one has lost its price. */
  ghost predicate RightFor(cache: map<Slot, real>, table: Table, zone: string, start: int, end: int) {
    if AllCached(cache, zone, start, end)
    then forall h :: InWindow(start, end, h) ==> Fill(table, zone, h, HOUR) == Some(cache[(zone, h)])
    else forall h :: InWindow(start, end, h) && (zone, h) in cache ==> Fill(table, zone, h, HOUR).Some?
  }

  /** The request reads this entry anew. */
  ghost predicate IsRenewed(before: map<Slot, real>, table: Table, zone: string, start: int, end: int, k: Slot) {
    && !AllCached(before, zone, start, end)
    && k.0 == zone && InWindow(start, end, k.1) && Fill(table, zone, k.1, HOUR).Some?
  }

  /** Renewed entries agree with the table; the others are as they were. */
  ghost predicate Renewed(before: map<Slot, real>, cache: map<Slot, real>, table: Table, zone: string,
                          start: int, end: int)
  {
    forall k :: k in cache ==>
      if IsRenewed(before, table, zone, start, end, k) then Fill(table, k.0, k.1, HOUR) == Some(cache[k])
      else k in before && cache[k] == before[k]
  }

  ghost predicate TracedBy(cache: map<Slot, real>, origin: map<Slot, Table>, table: Table) {
    forall k :: k in cache ==>
      k in origin && Extends(table, origin[k]) && Fill(origin[k], k.0, k.1, HOUR) == Some(cache[k])
  }

  /** A renewed entry comes from the new table, any other from where it came from. */
  ghost predicate Retraced(before: map<Slot, real>, was: map<Slot, Table>, cache: map<Slot, real>,
                           origin: map<Slot, Table>, table: Table, zone: string, start: int, end: int)
  {
    forall k :: k in cache ==>
      k in origin &&
      if IsRenewed(before, table, zone, start, end, k) then origin[k] == table else k in was && origin[k] == was[k]
  }

  /** Where the entries come from after a request. */
  ghost function Origins(before: map<Slot, real>, was: map<Slot, Table>, cache: map<Slot, real>, table: Table,
                         zone: string, start: int, end: int): map<Slot, Table>
  {
    map k | k in cache :: if IsRenewed(before, table, zone, start, end, k) || k !in was then table else was[k]
  }

  lemma RetraceKeeps(before: map<Slot, real>, was: map<Slot, Table>, cache: map<Slot, real>, table: Table, more: Table,
                     zone: string, start: int, end: int)
    requires Renewed(before, cache, more, zone, start, end) && Extends(more, table)
    ensures var origin := Origins(before, was, cache, more, zone, start, end);
            TracedBy(before, was, table) ==>
              TracedBy(cache, origin, more) && Retraced(before, was, cache, origin, more, zone, start, end)
  {
    var origin := Origins(before, was, cache, more, zone, start, end);
    if TracedBy(before, was, table) {
      forall k | k in cache
        ensures Extends(more, origin[k]) && Fill(origin[k], k.0, k.1, HOUR) == Some(cache[k])
      {
        if !IsRenewed(before, more, zone, start, end, k) { assert k in before && Extends(table, was[k]); }
      }
    }
  }

  /** Rows that other writers add between two requests leave the trace intact. */
  lemma TracedStays(cache: map<Slot, real>, origin: map<Slot, Table>, table: Table, more: Table)
    requires TracedBy(cache, origin, table) && Extends(more, table)
    ensures TracedBy(cache, origin, more)
  {
  }

  /** Every answer is the price of its hour or the price that was cached for it. */
  ghost predicate Answers(result: map<int, real>, before: map<Slot, real>, table: Table, zone: string,
                          start: int, end: int)
  {
    forall h :: h in result ==>
      && InWindow(start, end, h)
      && (Fill(table, zone, h, HOUR) == Some(result[h]) || ((zone, h) in before && before[(zone, h)] == result[h]))
  }

  lemma NothingAsked(cache: map<Slot, real>, table: Table, zone: string, start: int, end: int, hasToken: bool,
                     pulled: Option<seq<(int, real)>>)
    requires ExpectedHours(start, end) == []
    ensures !AllCached(cache, zone, start, end) && RightFor(cache, table, zone, start, end)
    ensures ReadThrough(table, zone, start, end, hasToken, pulled) == table
    ensures Renewed(cache, cache, table, zone, start, end)
    ensures forall filled :: IsFillOf(filled, table, zone, start, end, HOUR) ==>
              Answers(filled, cache, table, zone, start, end)
  {
    ExpectedAreWindow(start, end);
    assert forall h :: h !in ExpectedHours(start, end);
  }

  lemma HitAnswers(cache: map<Slot, real>, table: Table, zone: string, start: int, end: int, result: map<int, real>)
    requires AllCached(cache, zone, start, end)
    requires forall h :: h in result <==> InWindow(start, end, h)
    requires forall h :: h in result ==> result[h] == cache[(zone, h)]
    ensures IsFillOf(result, table, zone, start, end, HOUR) <==> RightFor(cache, table, zone, start, end)
    ensures Answers(result, cache, table, zone, start, end) && Renewed(cache, cache, table, zone, start, end)
  {
  }

  lemma StoredIsRenewed(before: map<Slot, real>, cache: map<Slot, real>, table: Table, zone: string,
                        start: int, end: int, current: map<int, real>)
    requires IsFillOf(current, table, zone, start, end, HOUR) && !AllCached(before, zone, start, end)
    requires Updated(before, cache, zone, current, ExpectedHours(start, end))
    ensures Renewed(before, cache, table, zone, start, end)
  {
    ExpectedAreWindow(start, end);
  }

  lemma Answered(before: map<Slot, real>, cache: map<Slot, real>, table: Table, zone: string, start: int, end: int,
                 current: map<int, real>, result: map<int, real>)
    requires IsFillOf(current, table, zone, start, end, HOUR) && !AllCached(before, zone, start, end)
    requires Updated(before, cache, zone, current, ExpectedHours(start, end))
    requires forall h :: h in result <==> h in ExpectedHours(start, end) && ((zone, h) in before || (zone, h) in cache)
    requires forall h :: h in result ==>
               result[h] == if (zone, h) in cache then cache[(zone, h)] else before[(zone, h)]
    ensures Answers(result, before, table, zone, start, end)
    ensures (forall h :: h in current ==> (zone, h) in cache) ==>
              (IsFillOf(result, table, zone, start, end, HOUR) <==> RightFor(before, table, zone, start, end))
  {
    ExpectedAreWindow(start, end);
    if forall h :: h in current ==> (zone, h) in cache {
      assert forall h :: h in result && h in current ==> result[h] == current[h];
      if RightFor(before, table, zone, start, end) {
        assert forall h :: h in result ==> h in current;
        assert IsFillOf(result, table, zone, start, end, HOUR);
      } else {
        var h :| InWindow(start, end, h) && (zone, h) in before && Fill(table, zone, h, HOUR).None?;
        assert h in result;
      }
    }
  }

  lemma {:induction false} WithoutOne(order: seq<Slot>, key: Slot)
    requires NoRepeats(order) && key in order
    ensures |Without(order, key)| == |order| - 1
  {
    if order[0] == key {
      WithoutNothing(order[1..], key);
    } else {
      WithoutOne(order[1..], key);
    }
  }

  /** As many hours are answered as were asked for exactly when all of them are. */
  lemma AllHit(result: map<int, real>, needed: seq<int>)
    requires forall h :: h in result ==> h in needed
    requires forall i, j :: 0 <= i < j < |needed| ==> needed[i] < needed[j]
    ensures |result| == |needed| <==> forall h :: h in needed ==> h in result
  {
    CountDistinct(needed);
    var asked := set h | h in needed;
    assert forall h :: h in result.Keys ==> h in result && h in asked;
    assert |result| == |result.Keys|;
    if |result| == |needed| { SubsetOfSameSize(result.Keys, asked); }
    if forall h :: h in needed ==> h in result { assert result.Keys == asked; }
  }

  lemma {:induction false} CountDistinct(hours: seq<int>)
    requires forall i, j :: 0 <= i < j < |hours| ==> hours[i] < hours[j]
    ensures |set h | h in hours| == |hours|
  {
    if hours != [] {
      var rest := hours[1..];
      CountDistinct(rest);
      assert (set h | h in hours) == {hours[0]} + (set h | h in rest);
    }
  }

  lemma SubsetOfSameSize(a: set<int>, b: set<int>)
    requires a <= b && |a| == |b|
    ensures a == b
  {
    assert |b - a| == |b| - |a|;
    assert b - a == {};
  }
}
