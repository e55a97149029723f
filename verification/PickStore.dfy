/** The pick store: the object the broker feeds and the subscribers read. */
module PickStores {
  import opened Wrappers
  import opened Picks
  import opened TimeOrder
  import opened StoreModel

  /** The reads of a store that ask for no particular amount use the largest 16-bit count. */
  const DEFAULT_CHUNK: nat := 0x7FFF

  class PickStore {
    var deque: seq<Entry>
    var cursorMap: map<nat, int>
    const maxHistory: Positive
    const maxQueueCapacity: Positive

    ghost function Snapshot(): Store
      reads this
    {
      Store(deque, cursorMap, maxQueueCapacity, maxHistory)
    }

    ghost predicate Valid()
      reads this
    {
      Sound(Snapshot())
    }

    /** Rebuilds a store from the picks of the database: load, sort, clean. */
    constructor (retention: Positive, capacity: Positive, backfill: seq<Entry>, now: int)
      ensures Sorted(deque) && ((forall e :: e in backfill ==> InRange(e)) ==> Valid())
      ensures maxHistory == retention && maxQueueCapacity == capacity && cursorMap == map[]
      ensures exists sorted :: IsSorting(backfill, sorted) && deque == Cleaned(sorted, capacity, now - retention)
    {
      maxHistory := retention;
      maxQueueCapacity := capacity;
      cursorMap := map[];
      deque := [];
      new;
      for i := 0 to |backfill|
        invariant deque == backfill[..i]
        invariant cursorMap == map[]
      {
        deque := deque + [backfill[i]];
      }
      assert backfill[..|backfill|] == backfill;
      var sorted := SortByTime(deque);
      deque := sorted;
      SortingMembers(backfill, sorted);
      ghost var k := CleanedIsSuffix(sorted, capacity, now - maxHistory);
      CleanDeque(now);
    }

    method SubscribeNext(contextAddress: nat)
      modifies this`cursorMap
      ensures Snapshot() == Apply(old(Snapshot()), Subscribe(contextAddress, MAX_TIME))
      ensures cursorMap == old(cursorMap)[contextAddress := 9223372036854775807]
    {
      cursorMap := cursorMap[contextAddress := MAX_TIME];
    }

    method SubscribeFrom(contextAddress: nat, startTime: int, now: int) returns (r: Result<(), Error>)
      modifies this`cursorMap
      ensures r.Failure? <==> now < startTime != MAX_TIME
      ensures r.Failure? ==> r.error.InvalidArgument? && Snapshot() == old(Snapshot())
      ensures r.Success? ==> Snapshot() == Apply(old(Snapshot()), Subscribe(contextAddress, startTime))
      ensures r.Success? ==> cursorMap == old(cursorMap)[contextAddress := startTime]
    {
      if startTime > now && startTime != MAX_TIME {
        return Failure(InvalidArgument("startTime cannot be in the future"));
      }
      cursorMap := cursorMap[contextAddress := startTime];
      return Success(());
    }

    method UnsubscribeContext(contextAddress: nat)
      modifies this`cursorMap
      ensures Snapshot() == Apply(old(Snapshot()), Unsubscribe(contextAddress))
      ensures contextAddress !in cursorMap
      ensures forall id :: id != contextAddress ==>
                (id in cursorMap <==> id in old(cursorMap)) && (id in cursorMap ==> cursorMap[id] == old(cursorMap)[id])
    {
      cursorMap := cursorMap - {contextAddress};
    }

    method CleanBefore(oldestPickToKeep: int)
      modifies this`deque
      ensures Snapshot() == Apply(old(Snapshot()), Clean(oldestPickToKeep))
    {
      var halfQueueCapacity := maxQueueCapacity / 2;
      if deque != [] {
        if |deque| < halfQueueCapacity {
          return;
        }
        while deque[0].time < oldestPickToKeep
          invariant deque != []
          invariant DropOlder(deque, oldestPickToKeep) == DropOlder(old(deque), oldestPickToKeep)
          decreases |deque|
        {
          deque := deque[1..];
          if deque == [] {
            break;
          }
        }
      }
    }

    method CleanDeque(now: int)
      modifies this`deque
      ensures Snapshot() == Apply(old(Snapshot()), Clean(now - maxHistory))
    {
      CleanBefore(now - maxHistory);
    }

    /** The second critical section of `Enqueue`: append, sort if out of order, wake the waiting subscribers. */
    method Append(receivedTime: int, pick: Pick)
      requires Sorted(deque)
      modifies this
      ensures Inserted(old(deque), Entry(receivedTime, pick), deque)
      ensures Snapshot() == Apply(old(Snapshot()), Insert(Entry(receivedTime, pick), deque))
      ensures Sorted(deque) && (old(Valid()) && InRange(Entry(receivedTime, pick)) ==> Valid())
    {
      var sortDeque := false;
      if deque != [] {
        sortDeque := deque[|deque| - 1].time > receivedTime;
      }
      deque := deque + [Entry(receivedTime, pick)];
      if sortDeque {
        var sorted := SortByTime(deque);
        deque := sorted;
      }
      InsertedIsSorting(old(deque), Entry(receivedTime, pick), deque);
      var back := deque[|deque| - 1].time;
      var remaining := cursorMap.Keys;
      ghost var after := deque;
      while remaining != {}
        invariant deque == after
        invariant remaining <= cursorMap.Keys == old(cursorMap).Keys
        invariant forall id :: id in cursorMap ==>
          cursorMap[id] == if id in remaining then old(cursorMap)[id] else Woken(old(cursorMap), back)[id]
        decreases remaining
      {
        var id :| id in remaining;
        if cursorMap[id] == MAX_TIME {
          cursorMap := cursorMap[id := back];
        }
        remaining := remaining - {id};
      }
      assert cursorMap == Woken(old(cursorMap), back);
      if old(Valid()) && InRange(Entry(receivedTime, pick)) {
        ApplySound(old(Snapshot()), Insert(Entry(receivedTime, pick), deque));
      }
    }

    method Enqueue(receivedTime: int, pick: Pick, now: int)
      requires Sorted(deque)
      modifies this
      ensures Sorted(deque)
      ensures var e, clean := Entry(receivedTime, pick), Clean(now - maxHistory);
              && Inserted(Apply(old(Snapshot()), clean).deque, e, deque)
              && Snapshot() == Run(old(Snapshot()), [clean, Insert(e, deque)])
              && (old(Valid()) && InRange(e) ==> Valid() && ValidRun(old(Snapshot()), [clean, Insert(e, deque)]))
    {
      ghost var before, clean := Snapshot(), Clean(now - maxHistory);
      ghost var k := CleanedIsSuffix(deque, maxQueueCapacity, now - maxHistory);
      CleanDeque(now);
      if Sound(before) {
        ApplySound(before, clean);
      }
      Append(receivedTime, pick);
      TwoSteps(before, clean, Insert(Entry(receivedTime, pick), deque));
    }

    method GetPicks(contextAddress: nat, maximumNumberOfPicks: int) returns (r: Result<seq<Pick>, Error>)
      modifies this`cursorMap
      ensures r.Failure? <==> maximumNumberOfPicks < 1
      ensures r.Failure? ==> r.error.InvalidArgument? && Snapshot() == old(Snapshot())
      ensures r.Success? ==> r.value == PicksOf(Chunk(old(Snapshot()), contextAddress, maximumNumberOfPicks))
      ensures r.Success? ==> Snapshot() == Apply(old(Snapshot()), Read(contextAddress, maximumNumberOfPicks))
      ensures contextAddress !in old(cursorMap) ==> cursorMap == old(cursorMap) && (r.Success? ==> r.value == [])
    {
      if maximumNumberOfPicks < 1 {
        return Failure(InvalidArgument("Maximum number of picks must be positive"));
      }
      if contextAddress !in cursorMap {
        return Success([]);
      }
      var cursor := cursorMap[contextAddress];
      var result, lastReadTime := Scan(deque, cursor, maximumNumberOfPicks);
      if result != [] {
        cursorMap := cursorMap[contextAddress := lastReadTime + 1];
      } else {
        assert cursorMap[contextAddress := cursor] == cursorMap;
      }
      return Success(result);
    }

    method GetAllPicks(contextAddress: nat) returns (r: Result<seq<Pick>, Error>)
      modifies this`cursorMap
      ensures r == Success(PicksOf(Chunk(old(Snapshot()), contextAddress, 32767)))
      ensures Snapshot() == Apply(old(Snapshot()), Read(contextAddress, 32767))
    {
      r := GetPicks(contextAddress, DEFAULT_CHUNK);
    }
  }

  /** The loop of `GetPicks`: runs over the deque from the front and stops once the chunk is full. */
  method Scan(d: seq<Entry>, cursor: int, max: nat) returns (result: seq<Pick>, lastReadTime: int)
    requires max >= 1
    ensures result == PicksOf(Take(From(d, cursor), max))
    ensures lastReadTime == if result == [] then cursor else Last(Take(From(d, cursor), max)).time
  {
    hide From, Take;
    result := [];
    lastReadTime := cursor;
    ghost var taken: seq<Entry> := [];
    var i := 0;
    assert d[0..] == d;
    while i < |d|
      invariant 0 <= i <= |d|
      invariant |result| == |taken| < max && result == PicksOf(taken)
      invariant taken + From(d[i..], cursor) == From(d, cursor)
      invariant lastReadTime == if taken == [] then cursor else Last(taken).time
    {
      ScanStep(taken, d, i, cursor);
      if d[i].time >= cursor {
        result := result + [d[i].pick];
        lastReadTime := d[i].time;
        taken := taken + [d[i]];
      }
      if |result| >= max {
        i := i + 1;
        break;
      }
      i := i + 1;
    }
    ScanEnd(taken, d, i, cursor, max);
  }

  /** One turn of the scan moves at most one entry from the unread rest to the entries taken. */
  lemma ScanStep(taken: seq<Entry>, d: seq<Entry>, i: nat, cursor: int)
    requires i < |d|
    ensures var next := if d[i].time >= cursor then taken + [d[i]] else taken;
            next + From(d[i + 1..], cursor) == taken + From(d[i..], cursor)
  {
    assert d[i..][1..] == d[i + 1..];
  }

  /** The scan ends with the first entries of the pending ones, as many as were asked for. */
  lemma ScanEnd(taken: seq<Entry>, d: seq<Entry>, i: nat, cursor: int, max: nat)
    requires i <= |d| && taken + From(d[i..], cursor) == From(d, cursor)
    requires |taken| <= max && (|taken| == max || i == |d|)
    ensures taken == Take(From(d, cursor), max)
  {
  }

  lemma TwoSteps(s: Store, a: Event, b: Event)
    ensures Run(s, [a, b]) == Apply(Apply(s, a), b)
    ensures ValidRun(s, [a, b]) <==> Enabled(s, a) && Enabled(Apply(s, a), b)
  {
    hide Apply, Enabled;
    assert [a, b][..1] == [a] && [a][..0] == [];
    assert Run(s, []) == s && ValidRun(s, []);
    assert Run(s, [a]) == Apply(s, a) && (ValidRun(s, [a]) <==> Enabled(s, a));
  }
}
