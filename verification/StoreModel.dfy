/** The pick store as a state machine: a time-ordered deque and one cursor per subscriber.  Each event is one
    critical section of the store. */
module StoreModel {
  import opened Picks
  import opened TimeOrder

  datatype Store = Store(deque: seq<Entry>, cursors: map<nat, int>, capacity: nat, retention: int)

  /** The library sort is free to order equal times as it likes, so an insertion carries the deque it left. */
  datatype Event =
    | Subscribe(id: nat, start: int)
    | Unsubscribe(id: nat)
    | Clean(cutoff: int)
    | Insert(entry: Entry, after: seq<Entry>)
    | Read(id: nat, max: nat)

  function Last(d: seq<Entry>): Entry
    requires d != []
  {
    d[|d| - 1]
  }

  function Cleaned(d: seq<Entry>, capacity: nat, cutoff: int): seq<Entry> {
    if |d| < capacity / 2 then d else DropOlder(d, cutoff)
  }

  ghost predicate Inserted(d: seq<Entry>, e: Entry, after: seq<Entry>) {
    if d != [] && Last(d).time > e.time then IsSorting(d + [e], after) else after == d + [e]
  }

  /** Subscribers waiting for the next pick start at the back of the deque. */
  function Woken(cursors: map<nat, int>, back: int): map<nat, int> {
    map id | id in cursors :: if cursors[id] == MAX_TIME then back else cursors[id]
  }

  function Take(d: seq<Entry>, n: nat): seq<Entry> {
    if |d| <= n then d else d[..n]
  }

  function Pending(s: Store, id: nat): seq<Entry> {
    if id in s.cursors then From(s.deque, s.cursors[id]) else []
  }

  function Chunk(s: Store, id: nat, max: nat): seq<Entry> {
    Take(Pending(s, id), max)
  }

  function Advanced(cursor: int, chunk: seq<Entry>): int {
    if chunk == [] then cursor else Last(chunk).time + 1
  }

  function Apply(s: Store, ev: Event): Store {
    match ev
    case Subscribe(id, start) => s.(cursors := s.cursors[id := start])
    case Unsubscribe(id) => s.(cursors := s.cursors - {id})
    case Clean(cutoff) => s.(deque := Cleaned(s.deque, s.capacity, cutoff))
    case Insert(_, after) =>
      s.(deque := after, cursors := if after == [] then s.cursors else Woken(s.cursors, Last(after).time))
    case Read(id, max) =>
      if id in s.cursors then s.(cursors := s.cursors[id := Advanced(s.cursors[id], Chunk(s, id, max))]) else s
  }

  ghost predicate Enabled(s: Store, ev: Event) {
    match ev
    case Subscribe(_, start) => start <= MAX_TIME
    case Unsubscribe(_) => true
    case Clean(_) => true
    case Insert(e, after) => InRange(e) && Inserted(s.deque, e, after)
    case Read(_, max) => max >= 1
  }

  /** The deque is in time order, no entry is late enough to confuse the sentinel, and no cursor exceeds it. */
  ghost predicate Sound(s: Store) {
    && Sorted(s.deque)
    && (forall e :: e in s.deque ==> InRange(e))
    && (forall id :: id in s.cursors ==> s.cursors[id] <= MAX_TIME)
  }

  function Run(s: Store, evs: seq<Event>): Store {
    if evs == [] then s else Apply(Run(s, evs[..|evs| - 1]), evs[|evs| - 1])
  }

  ghost predicate ValidRun(s: Store, evs: seq<Event>) {
    evs != [] ==> ValidRun(s, evs[..|evs| - 1]) && Enabled(Run(s, evs[..|evs| - 1]), evs[|evs| - 1])
  }

  // ---- What every event keeps -----------------------------------------------------------------------------

  lemma CleanedIsSuffix(d: seq<Entry>, capacity: nat, cutoff: int) returns (k: nat)
    requires Sorted(d)
    ensures k <= |d| && Cleaned(d, capacity, cutoff) == d[k..]
    ensures forall i :: 0 <= i < k ==> d[i].time < cutoff
    ensures |d| >= capacity / 2 ==> forall i :: k <= i < |d| ==> d[i].time >= cutoff
  {
    DropOlderIsFrom(d, cutoff);
    k := FromIsSuffix(d, cutoff);
    if |d| < capacity / 2 {
      k := 0;
    }
  }

  lemma InsertedIsSorting(d: seq<Entry>, e: Entry, after: seq<Entry>)
    requires Sorted(d) && Inserted(d, e, after)
    ensures IsSorting(d + [e], after)
    ensures after != []
    ensures forall x :: x in after <==> x in d || x == e
    ensures Last(after).time >= e.time
  {
    assert multiset(after) == multiset(d + [e]);
    forall x ensures x in after <==> x in d || x == e {
      assert x in after <==> x in multiset(after);
      assert x in d + [e] <==> x in multiset(d + [e]);
    }
    assert |after| == |multiset(after)| == |d| + 1;
    assert e in after;
    var i :| 0 <= i < |after| && after[i] == e;
  }

  /** An entry in a chunk is pending, so it lies at or above the cursor. */
  lemma ChunkPending(s: Store, id: nat, max: nat)
    ensures forall e :: e in Chunk(s, id, max) ==> id in s.cursors && e in s.deque && e.time >= s.cursors[id]
  {
    if id in s.cursors {
      FromMembers(s.deque, s.cursors[id]);
      forall e | e in Chunk(s, id, max) ensures e in Pending(s, id) {
      }
    }
  }

  lemma ApplySound(s: Store, ev: Event)
    requires Sound(s) && Enabled(s, ev)
    ensures Sound(Apply(s, ev))
  {
    match ev {
      case Subscribe(_, _) =>
      case Unsubscribe(_) =>
      case Clean(cutoff) =>
        var k := CleanedIsSuffix(s.deque, s.capacity, cutoff);
      case Insert(e, after) =>
        InsertedIsSorting(s.deque, e, after);
        assert Last(after) in after;
      case Read(id, max) =>
        ChunkPending(s, id, max);
        if Chunk(s, id, max) != [] {
          assert Last(Chunk(s, id, max)) in Chunk(s, id, max);
        }
    }
  }

  lemma {:induction false} RunSound(s: Store, evs: seq<Event>)
    requires Sound(s) && ValidRun(s, evs)
    ensures Sound(Run(s, evs))
  {
    if evs == [] {
    } else {
      RunSound(s, evs[..|evs| - 1]);
      ApplySound(Run(s, evs[..|evs| - 1]), evs[|evs| - 1]);
    }
  }

  lemma {:induction false} RunAppend(s: Store, a: seq<Event>, b: seq<Event>)
    ensures Run(s, a + b) == Run(Run(s, a), b)
    ensures ValidRun(s, a + b) <==> ValidRun(s, a) && ValidRun(Run(s, a), b)
  {
    if b == [] {
      assert a + b == a;
    } else {
      assert (a + b)[..|a + b| - 1] == a + b[..|b| - 1];
      RunAppend(s, a, b[..|b| - 1]);
    }
  }

  lemma RunSnoc(s: Store, evs: seq<Event>, ev: Event)
    ensures Run(s, evs + [ev]) == Apply(Run(s, evs), ev)
    ensures ValidRun(s, evs + [ev]) <==> ValidRun(s, evs) && Enabled(Run(s, evs), ev)
  {
    hide Apply, Enabled;
    assert (evs + [ev])[..|evs|] == evs;
  }

  /** Every prefix of a run is a run. */
  lemma RunPrefix(s: Store, evs: seq<Event>, k: nat)
    requires ValidRun(s, evs) && k <= |evs|
    ensures ValidRun(s, evs[..k])
    ensures k < |evs| ==> Enabled(Run(s, evs[..k]), evs[k]) && Run(s, evs[..k + 1]) == Apply(Run(s, evs[..k]), evs[k])
  {
    hide Apply, Enabled, Run, ValidRun;
    assert evs == evs[..k] + evs[k..];
    RunAppend(s, evs[..k], evs[k..]);
    if k < |evs| {
      assert evs == evs[..k + 1] + evs[k + 1..];
      RunAppend(s, evs[..k + 1], evs[k + 1..]);
      assert evs[..k + 1] == evs[..k] + [evs[k]];
      RunSnoc(s, evs[..k], evs[k]);
    }
  }
}
