/** What the broker guarantees as a whole, in every state it can reach. */
module PipelineTheorems {
  import opened Picks
  import opened TimeOrder
  import opened NormalForm
  import opened Databases
  import opened StoreModel
  import opened StoreProperties
  import opened Pipeline
  import opened PipelineInvariants

  // ---- The input queue and conservation -------------------------------------------------------------------

  /** The queue is a suffix of the accepted picks no longer than its capacity; the picks the processor takes are
      accepted ones in order; accepted = dropped + queued + taken; taken = duplicates + failures + stored + at
      most the one being processed; the counters agree with the history. */
  lemma QueueAndCounters(p: Pipe)
    requires Reachable(p)
    ensures |p.queue| <= p.options.queueCapacity
    ensures |p.queue| <= |p.accepted| && p.queue == p.accepted[|p.accepted| - |p.queue|..]
    ensures Subsequence(p.taken, p.accepted[..|p.accepted| - |p.queue|])
    ensures |p.accepted| == p.overflowed + |p.queue| + |p.taken| && p.received == |p.accepted|
    ensures 0 <= |p.taken| - (p.duplicates + p.failures + |p.inserted|) <= 1
  {
    hide Reachable, WellFormed, CacheAgrees, RowsRemain, NoDoubleAdd, RowsLogged, OnlyAdded, Subsequence;
    ReachableInvariant(p);
  }

  // ---- Cache and database ---------------------------------------------------------------------------------

  /** In every reachable state the deque and the table hold the same entries from the window on, except for at
      most the one pick that is in the table and not yet in the store. */
  lemma CacheMatchesTable(p: Pipe, t: int)
    requires Reachable(p) && t >= Window(p)
    ensures |InFlight(p)| <= 1
    ensures var flying := if |InFlight(p)| == 1 && p.processor.entry.time >= t then InFlight(p) else multiset{};
            multiset(From(p.table, t)) == multiset(From(p.store.deque, t)) + flying
  {
    ReachableInvariant(p);
    var flying := if |InFlight(p)| == 1 && p.processor.entry.time >= t then InFlight(p) else multiset{};
    forall e: Entry ensures multiset(From(p.table, t))[e] == (multiset(From(p.store.deque, t)) + flying)[e] {
      FromCount(p.table, t, e);
      FromCount(p.store.deque, t, e);
      if e.time >= t {
        assert AgreesOn(p, e);
      }
    }
  }

  lemma ReachableStep(p: Pipe, a: Action)
    requires Reachable(p) && Possible(p, a)
    ensures Reachable(Perform(p, a))
  {
    var q: Pipe, loaded, now, actions :| Initial(q, loaded, now) && ValidTrace(q, actions) && p == After(q, actions);
    assert (actions + [a])[..|actions|] == actions;
    assert ValidTrace(q, actions + [a]) && After(q, actions + [a]) == Perform(p, a);
  }

  lemma ReachableAfter(p: Pipe, actions: seq<Action>)
    requires Reachable(p) && ValidTrace(p, actions)
    ensures Reachable(After(p, actions))
  {
    var q: Pipe, loaded, now, before :| Initial(q, loaded, now) && ValidTrace(q, before) && p == After(q, before);
    AfterAppend(q, before, actions);
  }

  // ---- The store inside the broker ------------------------------------------------------------------------

  predicate NoRestart(actions: seq<Action>) {
    forall i :: 0 <= i < |actions| ==> !actions[i].Restart?
  }

  /** The events of the store in a run of the broker. */
  function StoreTrace(p: Pipe, actions: seq<Action>): seq<Event> {
    if actions == [] then []
    else StoreTrace(p, actions[..|actions| - 1]) +
         StoreEvents(After(p, actions[..|actions| - 1]), actions[|actions| - 1])
  }

  lemma StoreStep(p: Pipe, a: Action)
    requires WellFormed(p) && Possible(p, a) && !a.Restart?
    ensures |StoreEvents(p, a)| <= 1
    ensures Perform(p, a).store == if StoreEvents(p, a) == [] then p.store else Apply(p.store, StoreEvents(p, a)[0])
    ensures StoreEvents(p, a) != [] ==> Enabled(p.store, StoreEvents(p, a)[0])
  {
    hide Submission, MadeRoom, Sound, From, Cleaned;
  }

  lemma TraceSnoc(p: Pipe, actions: seq<Action>, a: Action)
    ensures After(p, actions + [a]) == Perform(After(p, actions), a)
    ensures ValidTrace(p, actions + [a]) <==> ValidTrace(p, actions) && Possible(After(p, actions), a)
  {
    hide Perform, Possible;
    assert (actions + [a])[..|actions|] == actions;
  }

  lemma TraceGrows(p: Pipe, actions: seq<Action>, more: seq<Action>)
    requires ValidTrace(p, actions) && NoRestart(actions) && |more| <= 1
    requires more != [] ==> Possible(After(p, actions), more[0]) && !more[0].Restart?
    ensures ValidTrace(p, actions + more) && NoRestart(actions + more)
    ensures After(p, actions + more) ==
            if more == [] then After(p, actions) else Perform(After(p, actions), more[0])
  {
    hide Perform, Possible;
    if more == [] {
      assert actions + more == actions;
    } else {
      assert more == [more[0]];
      TraceSnoc(p, actions, more[0]);
    }
  }

  /** Between restarts the store inside the broker makes an ordinary run of the store, so everything proved about
      those runs holds inside the broker, whatever interleaves. */
  lemma {:induction false} StoreInsideBroker(p: Pipe, actions: seq<Action>)
    requires Invariant(p) && ValidTrace(p, actions) && NoRestart(actions)
    ensures ValidRun(p.store, StoreTrace(p, actions))
    ensures After(p, actions).store == Run(p.store, StoreTrace(p, actions))
  {
    if actions == [] {
    } else {
      hide Perform, Possible, StoreEvents, Apply, Enabled, Invariant;
      var init, a := actions[..|actions| - 1], actions[|actions| - 1];
      assert NoRestart(init);
      StoreInsideBroker(p, init);
      InvariantAfter(p, init);
      var mid, evs := After(p, init), StoreTrace(p, init);
      InvariantWellFormed(mid);
      StoreStep(mid, a);
      if StoreEvents(mid, a) == [] {
        assert evs + [] == evs;
      } else {
        assert StoreEvents(mid, a) == [StoreEvents(mid, a)[0]];
        RunSnoc(p.store, evs, StoreEvents(mid, a)[0]);
      }
    }
  }

  lemma InvariantWellFormed(p: Pipe)
    requires Invariant(p)
    ensures WellFormed(p)
  {
  }

  // ---- What reaches the store is what the table accepted --------------------------------------------------

  /** The pick in flight, as a sequence. */
  function Flying(p: Pipe): seq<Entry> {
    if p.processor.Persisted? || p.processor.CleanedFor? then [p.processor.entry] else []
  }

  /** The rows the table accepted between two states of a run. */
  function AddedSince(p: Pipe, q: Pipe): seq<Entry> {
    var before, now := AddedEntries(p.log), AddedEntries(q.log);
    if |before| <= |now| then now[|before|..] else []
  }

  lemma FlyingStep(p: Pipe, a: Action) returns (rows: seq<Entry>)
    requires Possible(p, a) && !a.Restart?
    ensures AddedEntries(Perform(p, a).log) == AddedEntries(p.log) + rows
    ensures Flying(p) + rows == Arrivals(StoreEvents(p, a)) + Flying(Perform(p, a))
  {
    hide AddedEntries;
    rows := [];
    assert AddedEntries(p.log) + [] == AddedEntries(p.log);
    match a {
      case AddToTable(fails) => rows := FlyingAdd(p, fails);
      case Purge(now) => FlyingPurge(p, now);
      case InsertIntoStore(after) => FlyingInsert(p, after);
      case Client(ev) => FlyingClient(p, ev);
      case CleanStore(now) => FlyingClean(p, now);
      case Accept(_, _) => hide Submission, MadeRoom; OneArrival([]);
      case TakePick => OneArrival([]);
      case Stamp(_) => OneArrival([]);
    }
  }

  lemma FlyingAdd(p: Pipe, fails: bool) returns (rows: seq<Entry>)
    requires Possible(p, AddToTable(fails))
    ensures AddedEntries(Perform(p, AddToTable(fails)).log) == AddedEntries(p.log) + rows
    ensures Flying(p) + rows == Arrivals([]) + Flying(Perform(p, AddToTable(fails)))
  {
    hide AddedEntries;
    var q := Perform(p, AddToTable(fails));
    rows := if q.log == p.log then [] else [p.processor.entry];
    AddedEntriesSnoc(p.log, Added(p.processor.entry));
    assert AddedEntries(p.log) + [] == AddedEntries(p.log);
  }

  lemma FlyingPurge(p: Pipe, now: int)
    ensures AddedEntries(Perform(p, Purge(now)).log) == AddedEntries(p.log)
    ensures Flying(p) + [] == Arrivals([]) + Flying(Perform(p, Purge(now)))
  {
    hide AddedEntries, From;
    AddedEntriesSnoc(p.log, Purged(now - p.options.dbRetention));
  }

  lemma FlyingInsert(p: Pipe, after: seq<Entry>)
    requires Possible(p, InsertIntoStore(after))
    ensures Perform(p, InsertIntoStore(after)).log == p.log
    ensures Flying(p) + [] ==
            Arrivals(StoreEvents(p, InsertIntoStore(after))) + Flying(Perform(p, InsertIntoStore(after)))
  {
    OneArrival(StoreEvents(p, InsertIntoStore(after)));
    hide Arrivals, Inserted, Apply;
  }

  lemma FlyingClient(p: Pipe, ev: Event)
    requires Possible(p, Client(ev))
    ensures Perform(p, Client(ev)).log == p.log
    ensures Flying(p) + [] == Arrivals([ev]) + Flying(Perform(p, Client(ev)))
  {
    OneArrival([ev]);
    hide Arrivals, Apply;
  }

  lemma FlyingClean(p: Pipe, now: int)
    ensures Perform(p, CleanStore(now)).log == p.log
    ensures Flying(p) + [] == Arrivals(StoreEvents(p, CleanStore(now))) + Flying(Perform(p, CleanStore(now)))
  {
    OneArrival(StoreEvents(p, CleanStore(now)));
    hide Arrivals, Apply;
  }

  lemma OneArrival(evs: seq<Event>)
    requires |evs| <= 1
    ensures Arrivals(evs) == if evs != [] && evs[0].Insert? then [evs[0].entry] else []
  {
  }

  /** Between restarts, in order: the pick in flight at first and the rows the table accepts are what the store
      receives and the pick in flight at last. */
  lemma {:induction false} StoredAreAdded(p: Pipe, actions: seq<Action>)
    requires ValidTrace(p, actions) && NoRestart(actions)
    ensures AddedEntries(After(p, actions).log) == AddedEntries(p.log) + AddedSince(p, After(p, actions))
    ensures Flying(p) + AddedSince(p, After(p, actions)) == Arrivals(StoreTrace(p, actions)) + Flying(After(p, actions))
  {
    hide Perform, Possible, StoreEvents, AddedEntries, Flying;
    if actions == [] {
      assert Flying(p) + [] == [] + Flying(p);
    } else {
      var init, a := actions[..|actions| - 1], actions[|actions| - 1];
      var mid, q := After(p, init), After(p, actions);
      assert NoRestart(init);
      StoredAreAdded(p, init);
      var rows := FlyingStep(mid, a);
      ArrivalsAppend(StoreTrace(p, init), StoreEvents(mid, a));
      hide Arrivals, After, ValidTrace, StoreTrace;
      Regroup(AddedEntries(p.log), AddedSince(p, mid), rows, AddedEntries(q.log));
      Exchange(Flying(p), AddedSince(p, mid), rows, Arrivals(StoreTrace(p, init)), Flying(mid),
               Arrivals(StoreEvents(mid, a)), Flying(q));
    }
  }

  lemma Regroup(first: seq<Entry>, since: seq<Entry>, rows: seq<Entry>, all: seq<Entry>)
    requires all == (first + since) + rows
    ensures |first| <= |all| && all[|first|..] == since + rows && all == first + (since + rows)
  {
  }

  lemma Exchange(fly: seq<Entry>, since: seq<Entry>, rows: seq<Entry>, came: seq<Entry>, midway: seq<Entry>,
                 comes: seq<Entry>, last: seq<Entry>)
    requires fly + since == came + midway && midway + rows == comes + last
    ensures fly + (since + rows) == (came + comes) + last
  {
    Associative(fly, since, rows);
    Associative(came, midway, rows);
    Associative(came, comes, last);
  }

  // ---- Restart --------------------------------------------------------------------------------------------

  /** What a subscriber with an explicit start is offered by a store. */
  function Offered(s: Store, start: int): seq<Entry> {
    From(s.deque, start)
  }

  /** `more` is `fewer` with the entries of `extra` put in somewhere. */
  ghost predicate WithExtra(fewer: seq<Entry>, extra: multiset<Entry>, more: seq<Entry>) {
    || (extra == multiset{} && more == fewer)
    || (exists i :: 0 <= i < |more| && extra == multiset{more[i]} && fewer == more[..i] + more[i + 1..])
  }

  lemma RestartSameEntries(p: Pipe, now: int, loaded: seq<Entry>, start: int)
    requires Reachable(p) && Possible(p, Restart(now, loaded))
    requires start >= Window(Perform(p, Restart(now, loaded)))
    ensures var q := Perform(p, Restart(now, loaded));
            var flying := if |InFlight(p)| == 1 && p.processor.entry.time >= start then InFlight(p) else multiset{};
            multiset(Offered(q.store, start)) == multiset(Offered(p.store, start)) + flying
  {
    var q := Perform(p, Restart(now, loaded));
    ReachableStep(p, Restart(now, loaded));
    WindowGrows(p, Restart(now, loaded));
    CacheMatchesTable(p, start);
    CacheMatchesTable(q, start);
    assert q.table == p.table && InFlight(q) == multiset{};
  }

  lemma RemoveOne(d: seq<Entry>, i: nat)
    requires StrictlySorted(d) && i < |d|
    ensures StrictlySorted(d[..i] + d[i + 1..])
    ensures multiset(d[..i] + d[i + 1..]) + multiset{d[i]} == multiset(d)
  {
    var r := d[..i] + d[i + 1..];
    assert d == d[..i] + [d[i]] + d[i + 1..];
    forall a, b | 0 <= a < b < |r| ensures r[a].time < r[b].time {
      assert r[a] == if a < i then d[a] else d[a + 1];
      assert r[b] == if b < i then d[b] else d[b + 1];
    }
  }

  lemma OrderPinned(fewer: seq<Entry>, extra: multiset<Entry>, more: seq<Entry>)
    requires Sorted(fewer) && StrictlySorted(more) && multiset(more) == multiset(fewer) + extra && |extra| <= 1
    ensures WithExtra(fewer, extra, more)
  {
    if extra == multiset{} {
      SortingUnique(more, fewer);
    } else {
      var e :| e in extra;
      assert extra == multiset{e} by {
        assert |extra - multiset{e}| == 0;
      }
      assert e in multiset(more);
      var i :| 0 <= i < |more| && more[i] == e;
      RemoveOne(more, i);
      Cancel(multiset{e}, multiset(more[..i] + more[i + 1..]), multiset(fewer));
      SortingUnique(more[..i] + more[i + 1..], fewer);
    }
  }

  /** Restart transparency: a store rebuilt from the table at any moment offers a subscriber, for any start
      inside the window, what the lost store offered plus at most the pick that was in flight; with distinct
      received times it offers them in the same order. */
  lemma RestartTransparent(p: Pipe, now: int, loaded: seq<Entry>, start: int)
    requires Reachable(p) && Possible(p, Restart(now, loaded))
    requires start >= Window(Perform(p, Restart(now, loaded)))
    ensures var q := Perform(p, Restart(now, loaded));
            var flying := if |InFlight(p)| == 1 && p.processor.entry.time >= start then InFlight(p) else multiset{};
            && multiset(Offered(q.store, start)) == multiset(Offered(p.store, start)) + flying
            && |flying| <= 1
            && (StrictlySorted(Offered(q.store, start)) ==>
                WithExtra(Offered(p.store, start), flying, Offered(q.store, start)))
  {
    RestartSameEntries(p, now, loaded, start);
    ReachableInvariant(p);
    FromSorted(p.store.deque, start);
    var q := Perform(p, Restart(now, loaded));
    var flying := if |InFlight(p)| == 1 && p.processor.entry.time >= start then InFlight(p) else multiset{};
    if StrictlySorted(Offered(q.store, start)) {
      OrderPinned(Offered(p.store, start), flying, Offered(q.store, start));
    }
  }

  /** What a series of reads by one subscriber returns. */
  function Chunks(s: Store, id: nat, sizes: seq<Positive>): seq<seq<Entry>>
    decreases sizes
  {
    if sizes == [] then [] else [Chunk(s, id, sizes[0])] + Chunks(Apply(s, Read(id, sizes[0])), id, sizes[1..])
  }

  /** Equal cursors and equal pending entries give equal chunks ever after. */
  lemma {:induction false} SameChunks(s: Store, t: Store, id: nat, sizes: seq<Positive>)
    requires Sorted(s.deque) && Sorted(t.deque) && id in s.cursors && id in t.cursors
    requires s.cursors[id] == t.cursors[id] && Pending(s, id) == Pending(t, id)
    ensures Chunks(s, id, sizes) == Chunks(t, id, sizes)
    decreases sizes
  {
    if sizes == [] {
    } else {
      hide Pending, Sorted;
      PendingAfterRead(s, id, sizes[0]);
      PendingAfterRead(t, id, sizes[0]);
      SameChunks(Apply(s, Read(id, sizes[0])), Apply(t, Read(id, sizes[0])), id, sizes[1..]);
    }
  }

  /** So, with nothing in flight and distinct received times, a subscriber that comes back after the restart with
      such a start reads the same chunks as it would have before, however often and however much it reads. */
  lemma RestartSameChunks(p: Pipe, now: int, loaded: seq<Entry>, start: int, id: nat, sizes: seq<Positive>)
    requires Reachable(p) && Possible(p, Restart(now, loaded))
    requires start >= Window(Perform(p, Restart(now, loaded)))
    requires InFlight(p) == multiset{} && StrictlySorted(Offered(p.store, start))
    ensures Chunks(Apply(Perform(p, Restart(now, loaded)).store, Subscribe(id, start)), id, sizes) ==
            Chunks(Apply(p.store, Subscribe(id, start)), id, sizes)
  {
    var q := Perform(p, Restart(now, loaded));
    RestartSameEntries(p, now, loaded, start);
    ReachableStep(p, Restart(now, loaded));
    ReachableInvariant(p);
    ReachableInvariant(q);
    FromSorted(q.store.deque, start);
    SortingUnique(Offered(p.store, start), Offered(q.store, start));
    hide From, CacheAgrees, RowsRemain, NoDoubleAdd, RowsLogged, OnlyAdded, BoundedFifo, Conserved, Chunks;
    SameChunks(Apply(q.store, Subscribe(id, start)), Apply(p.store, Subscribe(id, start)), id, sizes);
  }

  /** What a load cut short by the engine costs: of the rows in order only the first `n` were yielded.  The store
      rebuilt from them holds all rows of the table at or above `t` exactly when no row that was cut off is. */
  lemma CutShortExactly(options: Options, table: seq<Entry>, ordered: seq<Entry>, n: nat, now: int, t: int)
    requires IsSorting(table, ordered) && n <= |ordered| && t >= now - options.storeRetention
    ensures multiset(From(RebuiltStore(options, ordered[..n], now).deque, t)) == multiset(From(table, t)) <==>
            n == |ordered| || Last(ordered).time < t
  {
    hide From, RebuiltStore, Sorted;
    var cut := ordered[n..];
    RowsKept(options, table, ordered, n, now, t);
    CutOff(cut, t);
    assert cut != [] ==> Last(cut) == Last(ordered);
    NoMore(multiset(From(table, t)), multiset(From(RebuiltStore(options, ordered[..n], now).deque, t)), From(cut, t));
  }

  lemma NoMore(all: multiset<Entry>, some: multiset<Entry>, more: seq<Entry>)
    requires all == some + multiset(more)
    ensures some == all <==> more == []
  {
    assert |all| == |some| + |multiset(more)|;
    assert |multiset(more)| == |more|;
  }

  lemma RowsKept(options: Options, table: seq<Entry>, ordered: seq<Entry>, n: nat, now: int, t: int)
    requires IsSorting(table, ordered) && n <= |ordered| && t >= now - options.storeRetention
    ensures Sorted(ordered[n..])
    ensures multiset(From(table, t)) ==
            multiset(From(RebuiltStore(options, ordered[..n], now).deque, t)) + multiset(From(ordered[n..], t))
  {
    hide From, RebuiltStore;
    assert ordered == ordered[..n] + ordered[n..];
    FromAppend(ordered[..n], ordered[n..], t);
    FromSameEntries(table, ordered, t);
    RebuiltFrom(options, ordered[..n], now, t);
  }

  lemma RebuiltFrom(options: Options, loaded: seq<Entry>, now: int, t: int)
    requires Sorted(loaded) && t >= now - options.storeRetention
    ensures multiset(From(RebuiltStore(options, loaded, now).deque, t)) == multiset(From(loaded, t))
  {
    hide From, DropOlder;
    CleanAllOrNothing(loaded, options.storeCapacity, now - options.storeRetention);
    FromFrom(loaded, now - options.storeRetention, t);
  }

  lemma CutOff(cut: seq<Entry>, t: int)
    requires Sorted(cut)
    ensures From(cut, t) == [] <==> cut == [] || Last(cut).time < t
  {
    var k := FromIsSuffix(cut, t);
  }

  // ---- Expiry ---------------------------------------------------------------------------------------------

  /** In every reachable state the clean before an insertion leaves exactly the entries received within the retention
      time of the store before its reading of the clock, once the deque is at least half full. */
  lemma ExpiryExactly(p: Pipe, now: int)
    requires Reachable(p) && p.processor.Persisted?
    ensures Perform(p, CleanStore(now)).store.deque ==
            if |p.store.deque| < p.options.storeCapacity / 2 then p.store.deque
            else From(p.store.deque, now - p.options.storeRetention)
  {
    hide *;
    ReachableInvariant(p);
    InvariantWellFormed(p);
    StoreOptions(p);
    CleanedDeque(p, now);
    CleanAllOrNothing(p.store.deque, p.store.capacity, now - p.options.storeRetention);
  }

  lemma StoreOptions(p: Pipe)
    requires WellFormed(p)
    ensures Sorted(p.store.deque) && p.store.capacity == p.options.storeCapacity
  {
  }

  lemma CleanedDeque(p: Pipe, now: int)
    requires p.processor.Persisted?
    ensures Perform(p, CleanStore(now)).store.deque ==
            Cleaned(p.store.deque, p.store.capacity, now - p.options.storeRetention)
  {
    hide Cleaned;
  }

  // ---- Received times and retention over runs -------------------------------------------------------------

  /** Before action `k` the clock was last read for a received time at `t`. */
  ghost predicate StampedAt(actions: seq<Action>, k: nat, t: int) {
    exists i :: 0 <= i < k <= |actions| && actions[i] == Stamp(t) && forall j :: i < j < k ==> !actions[j].Stamp?
  }

  predicate Holds(p: Pipe) {
    p.processor.Stamped? || p.processor.Persisted? || p.processor.CleanedFor?
  }

  /** The pick being processed carries the reading of the latest stamp. */
  lemma {:induction false} HeldCarriesStamp(p: Pipe, actions: seq<Action>)
    requires ValidTrace(p, actions) && !Holds(p) && Holds(After(p, actions))
    ensures StampedAt(actions, |actions|, After(p, actions).processor.entry.time)
  {
    if actions == [] {
      assert false;
    } else {
      hide StampedAt;
      var init, a := actions[..|actions| - 1], actions[|actions| - 1];
      var mid, t := After(p, init), After(p, actions).processor.entry.time;
      assert actions == init + [a];
      HeldStep(mid, a);
      if a.Stamp? {
        StampedNow(init, t);
      } else {
        HeldCarriesStamp(p, init);
        StampedStill(init, a, t);
      }
    }
  }

  lemma HeldStep(p: Pipe, a: Action)
    requires Possible(p, a) && Holds(Perform(p, a))
    ensures a.Stamp? ==> Perform(p, a).processor.entry.time == a.now
    ensures !a.Stamp? ==> Holds(p) && Perform(p, a).processor.entry == p.processor.entry
  {
    hide Submission, MadeRoom, Inserted, From, Apply;
  }

  lemma StampedNow(init: seq<Action>, t: int)
    ensures StampedAt(init + [Stamp(t)], |init| + 1, t)
  {
    assert (init + [Stamp(t)])[|init|] == Stamp(t);
  }

  lemma StampedStill(init: seq<Action>, a: Action, t: int)
    requires StampedAt(init, |init|, t) && !a.Stamp?
    ensures StampedAt(init + [a], |init| + 1, t)
  {
    var i :| 0 <= i < |init| && init[i] == Stamp(t) && forall j :: i < j < |init| ==> !init[j].Stamp?;
    var all := init + [a];
    assert all[i] == Stamp(t);
    assert forall j :: i < j < |all| ==> !all[j].Stamp?;
  }

  /** Action `k` added the row to the table, with the latest stamp before it as its received time. */
  ghost predicate AddedBy(p: Pipe, actions: seq<Action>, k: nat, e: Entry) {
    && k < |actions| && actions[k] == AddToTable(false)
    && After(p, actions[..k]).processor == Stamped(e)
    && StampedAt(actions, k, e.time)
  }

  lemma AddedByGrows(p: Pipe, init: seq<Action>, a: Action, k: nat, e: Entry)
    requires AddedBy(p, init, k, e)
    ensures AddedBy(p, init + [a], k, e)
  {
    hide After, StampedAt;
    var all := init + [a];
    assert all[..k] == init[..k] && all[k] == init[k];
    StampedGrows(init, a, k, e.time);
  }

  lemma StampedGrows(init: seq<Action>, a: Action, k: nat, t: int)
    requires StampedAt(init, k, t)
    ensures StampedAt(init + [a], k, t)
  {
    var i :| 0 <= i < k <= |init| && init[i] == Stamp(t) && forall j :: i < j < k ==> !init[j].Stamp?;
    var all := init + [a];
    assert all[i] == init[i];
    assert forall j :: i < j < k ==> all[j] == init[j];
  }

  /** Every row of the table was there at first or was added by the run, with the reading of the stamp before it as
      its received time. */
  lemma {:induction false} RowsCarryStamps(p: Pipe, actions: seq<Action>, e: Entry)
    requires ValidTrace(p, actions) && !Holds(p) && e in After(p, actions).table && e !in p.table
    ensures exists k :: AddedBy(p, actions, k, e)
  {
    if actions == [] {
      assert false;
    } else {
      var init, a := actions[..|actions| - 1], actions[|actions| - 1];
      assert actions == init + [a];
      RowStep(After(p, init), a, e);
      hide AddedBy, Perform, Possible;
      if e in After(p, init).table {
        RowsCarryStamps(p, init, e);
        var k :| AddedBy(p, init, k, e);
        AddedByGrows(p, init, a, k, e);
      } else {
        AddedLast(p, init, e);
      }
    }
  }

  lemma RowStep(p: Pipe, a: Action, e: Entry)
    requires Possible(p, a) && e in Perform(p, a).table
    ensures e in p.table || (a == AddToTable(false) && p.processor == Stamped(e))
    ensures a.Purge? ==> e.time >= a.now - p.options.dbRetention
  {
    if a.Purge? {
      PurgeExactly(p, a.now);
    } else {
      hide Submission, MadeRoom, Inserted, From, Apply;
    }
  }

  lemma AddedLast(p: Pipe, init: seq<Action>, e: Entry)
    requires ValidTrace(p, init) && !Holds(p) && After(p, init).processor == Stamped(e)
    ensures AddedBy(p, init + [AddToTable(false)], |init|, e)
  {
    hide After, ValidTrace, StampedAt;
    HeldCarriesStamp(p, init);
    StampedGrows(init, AddToTable(false), |init|, e.time);
    assert (init + [AddToTable(false)])[..|init|] == init;
  }

  /** Retention over runs: a row still in the table although it is older than the retention interval before the
      reading of some purge was added after that purge. */
  lemma {:induction false} OldRowsGone(p: Pipe, actions: seq<Action>, i: nat, e: Entry)
    requires ValidTrace(p, actions) && !Holds(p) && i < |actions| && actions[i].Purge?
    requires e in After(p, actions).table && e.time < actions[i].now - p.options.dbRetention
    ensures exists k :: i < k && AddedBy(p, actions, k, e)
    decreases |actions|
  {
    var init, a := actions[..|actions| - 1], actions[|actions| - 1];
    assert actions == init + [a];
    OptionsStay(p, init);
    RowStep(After(p, init), a, e);
    hide AddedBy, Perform, Possible;
    if e in After(p, init).table {
      assert i < |init| && init[i] == actions[i];
      OldRowsGone(p, init, i, e);
      var k :| i < k && AddedBy(p, init, k, e);
      AddedByGrows(p, init, a, k, e);
    } else {
      AddedLast(p, init, e);
    }
  }

  lemma {:induction false} OptionsStay(p: Pipe, actions: seq<Action>)
    ensures After(p, actions).options == p.options
  {
    if actions == [] {
    } else {
      OptionsStay(p, actions[..|actions| - 1]);
      ClockMoves(After(p, actions[..|actions| - 1]), actions[|actions| - 1]);
      hide Perform;
    }
  }

  // ---- Duplicates -----------------------------------------------------------------------------------------

  /** In every interleaving, and across restarts, a pick is added to the table a second time only if a purge
      whose cutoff lies above the first copy's received time came in between. */
  lemma AddedTwiceOnlyAfterPurge(p: Pipe, i: nat, j: nat)
    requires Reachable(p) && i < j < |p.log|
    requires p.log[i].Added? && p.log[j].Added? && p.log[i].entry.pick == p.log[j].entry.pick
    ensures PurgedBetween(p.log, i, j, p.log[i].entry.time)
  {
    ReachableInvariant(p);
  }

  /** A copy of the pick has been added and not been purged since. */
  ghost predicate UnpurgedCopy(log: seq<Record>, pick: Pick) {
    exists i :: 0 <= i < |log| && log[i].Added? && log[i].entry.pick == pick
                && !PurgedBetween(log, i, |log|, log[i].entry.time)
  }

  /** Exactly when a stamped pick is refused as a duplicate, read off the history alone: in every reachable state
      its insertion is ignored if and only if the database does not fail and a copy has been added that no purge
      since had a cutoff above.  The counter of duplicates moves in no other case, and that of failures with the
      failures. */
  lemma DuplicateExactly(p: Pipe, fails: bool)
    requires Reachable(p) && p.processor.Stamped?
    ensures var q := Perform(p, AddToTable(fails));
            && q.duplicates ==
               p.duplicates + (if !fails && UnpurgedCopy(p.log, p.processor.entry.pick) then 1 else 0)
            && q.failures == p.failures + (if fails then 1 else 0)
            && q.table ==
               if fails || UnpurgedCopy(p.log, p.processor.entry.pick) then p.table else p.table + [p.processor.entry]
  {
    ReachableInvariant(p);
    KeyExactly(p, p.processor.entry.pick);
    hide Invariant, UnpurgedCopy;
  }

  lemma KeyExactly(p: Pipe, pick: Pick)
    requires RowsRemain(p) && RowsLogged(p)
    ensures HasKey(p.table, pick) <==> UnpurgedCopy(p.log, pick)
  {
    hide PurgedBetween;
    if HasKey(p.table, pick) {
      var i :| 0 <= i < |p.table| && p.table[i].pick == pick;
      assert LoggedSincePurge(p.log, p.table[i]);
    }
    if UnpurgedCopy(p.log, pick) {
      var i :| 0 <= i < |p.log| && p.log[i].Added? && p.log[i].entry.pick == pick
               && !PurgedBetween(p.log, i, |p.log|, p.log[i].entry.time);
      assert p.log[i].entry in p.table;
    }
  }

  /** Whatever was added after a purge was stamped no earlier than the purge read the clock. */
  ghost predicate Chronological(p: Pipe) {
    forall i, j :: 0 <= i < j < |p.log| && p.log[i].Purged? && p.log[j].Added? ==>
      p.log[i].cutoff + p.options.dbRetention <= p.log[j].entry.time
  }

  /** Then two copies of one pick were received more than the retention interval apart. */
  lemma CopiesFarApart(p: Pipe, i: nat, j: nat)
    requires Reachable(p) && Chronological(p) && i < j < |p.log|
    requires p.log[i].Added? && p.log[j].Added? && p.log[i].entry.pick == p.log[j].entry.pick
    ensures p.log[j].entry.time - p.log[i].entry.time > p.options.dbRetention
  {
    AddedTwiceOnlyAfterPurge(p, i, j);
    var k :| i < k < j && 0 <= k < |p.log| && p.log[k].Purged? && p.log[k].cutoff > p.log[i].entry.time;
    assert p.log[k].cutoff + p.options.dbRetention <= p.log[j].entry.time;
  }

  // ---- A clock that never runs backwards ------------------------------------------------------------------

  predicate Reads(a: Action) {
    a.Accept? || a.Stamp? || a.CleanStore? || a.Purge? || a.Restart?
  }

  /** `now` is at or above every clock reading of a run from `p`. */
  ghost predicate NoReadingAfter(p: Pipe, actions: seq<Action>, now: int) {
    p.clock <= now && forall i :: 0 <= i < |actions| && Reads(actions[i]) ==> actions[i].now <= now
  }

  lemma ClockMoves(p: Pipe, a: Action)
    ensures Perform(p, a).options == p.options
    ensures Perform(p, a).clock <= if Reads(a) then Max(p.clock, a.now) else p.clock
  {
    hide Submission, MadeRoom, From;
  }

  lemma {:induction false} ClockIsRead(p: Pipe, actions: seq<Action>, now: int)
    requires NoReadingAfter(p, actions, now)
    ensures After(p, actions).options == p.options && After(p, actions).clock <= now
  {
    hide Perform, Reads;
    if actions == [] {
    } else {
      var init, a := actions[..|actions| - 1], actions[|actions| - 1];
      assert forall i :: 0 <= i < |init| ==> init[i] == actions[i];
      ClockIsRead(p, init, now);
      ClockMoves(After(p, init), a);
    }
  }

  /** The window in terms of the clock: at a time `now` that no reading so far exceeds, the deque and the table
      hold the same entries from the shorter of the two retention times before `now` on, except for at most the
      one pick in flight. */
  lemma CacheMatchesTableNow(p: Pipe, actions: seq<Action>, now: int, t: int)
    requires Reachable(p) && ValidTrace(p, actions) && NoReadingAfter(p, actions, now)
    requires t >= now - Min(p.options.storeRetention, p.options.dbRetention)
    ensures var q := After(p, actions);
            var flying := if |InFlight(q)| == 1 && q.processor.entry.time >= t then InFlight(q) else multiset{};
            multiset(From(q.table, t)) == multiset(From(q.store.deque, t)) + flying
  {
    ReachableAfter(p, actions);
    ClockIsRead(p, actions, now);
    CacheMatchesTable(After(p, actions), t);
  }

  /** Every received time is at or above all readings that have taken effect before it.  The other readings may be
      stale by the time they take effect, as they are made outside the critical sections. */
  ghost predicate StampsForward(p: Pipe, actions: seq<Action>) {
    actions != [] ==>
      var init, a := actions[..|actions| - 1], actions[|actions| - 1];
      StampsForward(p, init) && (a.Stamp? ==> a.now >= After(p, init).clock)
  }

  /** No purge comes between the stamping of a pick and its insertion. */
  ghost predicate PromptlyAdded(p: Pipe, actions: seq<Action>) {
    actions != [] ==>
      var init, a := actions[..|actions| - 1], actions[|actions| - 1];
      PromptlyAdded(p, init) && (After(p, init).processor.Stamped? ==> !a.Purge?)
  }

  ghost predicate InClockOrder(p: Pipe) {
    && Chronological(p)
    && PurgesReadBy(p, p.clock)
    && (p.processor.Stamped? ==> PurgesReadBy(p, p.processor.entry.time))
  }

  /** All purges so far read the clock at or before `t`. */
  ghost predicate PurgesReadBy(p: Pipe, t: int) {
    forall i :: 0 <= i < |p.log| && p.log[i].Purged? ==> p.log[i].cutoff + p.options.dbRetention <= t
  }

  lemma ClockOrderStep(p: Pipe, a: Action)
    requires WellFormed(p) && InClockOrder(p) && Possible(p, a)
    requires a.Stamp? ==> a.now >= p.clock
    requires p.processor.Stamped? ==> !a.Purge?
    ensures InClockOrder(Perform(p, a))
  {
    hide Submission, MadeRoom, Sound, Inserted, HasKey, From;
    var q := Perform(p, a);
    assert q.options == p.options;
    if q.log != p.log {
      assert q.log == p.log + [q.log[|p.log|]];
    }
  }

  /** A broker that has just been constructed over a table has purged nothing yet. */
  lemma InitialClockOrder(p: Pipe, loaded: seq<Entry>, now: int)
    requires Initial(p, loaded, now)
    ensures InClockOrder(p)
  {
  }

  /** The two hypotheses on the clock make the table's history chronological. */
  lemma {:induction false} ForwardIsChronological(p: Pipe, actions: seq<Action>)
    requires Invariant(p) && InClockOrder(p) && ValidTrace(p, actions)
    requires StampsForward(p, actions) && PromptlyAdded(p, actions)
    ensures InClockOrder(After(p, actions))
  {
    if actions == [] {
    } else {
      var init, a := actions[..|actions| - 1], actions[|actions| - 1];
      ForwardIsChronological(p, init);
      InvariantAfter(p, init);
      ClockOrderStep(After(p, init), a);
    }
  }

  // ---- Normal form and causality --------------------------------------------------------------------------

  ghost predicate CausalEntry(e: Entry) {
    Normal(e.pick) && e.pick.time.value <= e.time
  }

  /** Every pick waiting or being processed is in normal form and no later than the clock; every entry persisted
      or stored is in normal form and was received no earlier than it was picked. */
  ghost predicate Causal(p: Pipe) {
    && (forall x :: x in p.queue ==> Normal(x) && x.time.value <= p.clock)
    && (p.processor.Taken? ==> Normal(p.processor.pick) && p.processor.pick.time.value <= p.clock)
    && (!p.processor.Idle? && !p.processor.Taken? ==> CausalEntry(p.processor.entry))
    && (forall e :: e in p.table ==> CausalEntry(e))
    && (forall e :: e in p.store.deque ==> CausalEntry(e))
  }

  lemma AcceptCausal(p: Pipe, pick: Pick, now: int)
    requires Causal(p) && Possible(p, Accept(pick, now))
    ensures Causal(Perform(p, Accept(pick, now)))
  {
    hide Normal, Submission, MadeRoom;
    SubmissionNormal(pick, now);
    MadeRoomMembers(p.queue, p.options.queueCapacity);
  }

  lemma CausalStep(p: Pipe, a: Action)
    requires WellFormed(p) && Causal(p) && Possible(p, a)
    requires a.Stamp? ==> a.now >= p.clock
    ensures Causal(Perform(p, a))
  {
    hide Normal, Submission, MadeRoom, Cleaned, From;
    match a {
      case Accept(pick, now) =>
        AcceptCausal(p, pick, now);
      case CleanStore(now) =>
        var k := CleanedIsSuffix(p.store.deque, p.store.capacity, now - p.options.storeRetention);
      case InsertIntoStore(after) =>
        InsertedIsSorting(p.store.deque, p.processor.entry, after);
      case Purge(now) =>
        DeleteKeepsUnique(p.table, now - p.options.dbRetention);
      case Restart(now, loaded) =>
        RebuiltFromTable(p.options, p.table, loaded, now);
      case TakePick =>
      case Stamp(_) =>
      case AddToTable(_) =>
      case Client(_) =>
    }
  }

  /** With a clock that never runs backwards, starting over a table that satisfies it. */
  lemma {:induction false} CausalAlways(p: Pipe, actions: seq<Action>)
    requires Invariant(p) && Causal(p) && ValidTrace(p, actions) && StampsForward(p, actions)
    ensures Causal(After(p, actions))
  {
    if actions == [] {
    } else {
      var init, a := actions[..|actions| - 1], actions[|actions| - 1];
      CausalAlways(p, init);
      InvariantAfter(p, init);
      CausalStep(After(p, init), a);
    }
  }

  /** Whatever the clock does, everything queued, persisted and stored is in normal form. */
  lemma {:induction false} NormalAlways(p: Pipe, actions: seq<Action>)
    requires Invariant(p) && AllNormal(p) && ValidTrace(p, actions)
    ensures AllNormal(After(p, actions))
  {
    if actions == [] {
    } else {
      var init := actions[..|actions| - 1];
      NormalAlways(p, init);
      InvariantAfter(p, init);
      AllNormalStep(After(p, init), actions[|actions| - 1]);
    }
  }

  // ---- The size of the store ------------------------------------------------------------------------------

  /** How many entries are not expired when an action cleans the store. */
  function Unexpired(p: Pipe, a: Action): nat {
    match a
    case CleanStore(now) => |From(p.store.deque, now - p.options.storeRetention)|
    case Restart(now, loaded) => |From(loaded, now - p.options.storeRetention)|
    case _ => 0
  }

  /** At most `r` entries are ever unexpired at once. */
  ghost predicate AtMostUnexpired(p: Pipe, actions: seq<Action>, r: nat) {
    actions != [] ==>
      var init := actions[..|actions| - 1];
      AtMostUnexpired(p, init, r) && Unexpired(After(p, init), actions[|actions| - 1]) <= r
  }

  ghost predicate SizeBounded(p: Pipe, r: nat) {
    && |p.store.deque| <= Max(p.options.storeCapacity / 2, r + 1)
    && (p.processor.CleanedFor? ==> |p.store.deque| <= Max(p.options.storeCapacity / 2 - 1, r))
  }

  lemma CleanedSize(d: seq<Entry>, capacity: nat, cutoff: int)
    requires Sorted(d)
    ensures |Cleaned(d, capacity, cutoff)| <= Max(capacity / 2 - 1, |From(d, cutoff)|)
  {
    hide From, DropOlder;
    CleanAllOrNothing(d, capacity, cutoff);
  }

  lemma SizeStep(p: Pipe, a: Action, r: nat)
    requires WellFormed(p) && SizeBounded(p, r) && Possible(p, a) && Unexpired(p, a) <= r
    ensures SizeBounded(Perform(p, a), r)
  {
    hide Submission, MadeRoom, From, Cleaned;
    match a {
      case CleanStore(now) =>
        CleanedSize(p.store.deque, p.store.capacity, now - p.options.storeRetention);
      case InsertIntoStore(after) =>
        InsertedIsSorting(p.store.deque, p.processor.entry, after);
        assert |after| == |multiset(after)| == |p.store.deque| + 1;
      case Restart(now, loaded) =>
        CleanedSize(loaded, p.options.storeCapacity, now - p.options.storeRetention);
      case Purge(_) =>
      case Accept(_, _) =>
      case TakePick =>
      case Stamp(_) =>
      case AddToTable(_) =>
      case Client(_) =>
    }
  }

  /** If at most `r` entries are ever unexpired at once, the deque never holds more than half its capacity or
      `r + 1` entries, whichever is more. */
  lemma {:induction false} StoreSizeBound(p: Pipe, actions: seq<Action>, r: nat)
    requires Invariant(p) && SizeBounded(p, r) && ValidTrace(p, actions) && AtMostUnexpired(p, actions, r)
    ensures SizeBounded(After(p, actions), r)
  {
    if actions == [] {
    } else {
      var init, a := actions[..|actions| - 1], actions[|actions| - 1];
      StoreSizeBound(p, init, r);
      InvariantAfter(p, init);
      SizeStep(After(p, init), a, r);
    }
  }

  /** A freshly started broker is within the bound. */
  lemma InitialSize(p: Pipe, loaded: seq<Entry>, now: int)
    requires Initial(p, loaded, now)
    ensures SizeBounded(p, |From(loaded, now - p.options.storeRetention)|)
  {
    CleanedSize(loaded, p.options.storeCapacity, now - p.options.storeRetention);
  }
}
