/** What every action of the broker keeps, and therefore what holds in every reachable state. */
module PipelineInvariants {
  import opened Picks
  import opened TimeOrder
  import opened NormalForm
  import opened Databases
  import opened StoreModel
  import opened StoreProperties
  import opened Pipeline

  // ---- Well-formed states ---------------------------------------------------------------------------------

  ghost predicate WellFormed(p: Pipe) {
    && UniqueKeys(p.table)
    && (forall e :: e in p.table ==> InRange(e))
    && Sound(p.store)
    && p.store.capacity == p.options.storeCapacity && p.store.retention == p.options.storeRetention
    && (!p.processor.Idle? && !p.processor.Taken? ==> InRange(p.processor.entry))
  }

  lemma RebuiltSound(options: Options, table: seq<Entry>, loaded: seq<Entry>, now: int)
    requires IsSorting(table, loaded) && forall e :: e in table ==> InRange(e)
    ensures Sound(RebuiltStore(options, loaded, now))
  {
    var k := CleanedIsSuffix(loaded, options.storeCapacity, now - options.storeRetention);
    forall e | e in loaded ensures InRange(e) {
      assert e in multiset(loaded);
      assert e in multiset(table);
    }
  }

  lemma WellFormedStep(p: Pipe, a: Action)
    requires WellFormed(p) && Possible(p, a)
    ensures WellFormed(Perform(p, a))
  {
    match a {
      case AddToTable(fails) =>
        InsertKeepsUnique(p.table, p.processor.entry);
      case CleanStore(now) =>
        ApplySound(p.store, Clean(now - p.options.storeRetention));
      case InsertIntoStore(after) =>
        ApplySound(p.store, Insert(p.processor.entry, after));
      case Purge(now) =>
        DeleteKeepsUnique(p.table, now - p.options.dbRetention);
      case Client(ev) =>
        ApplySound(p.store, ev);
      case Restart(now, loaded) =>
        RebuiltSound(p.options, p.table, loaded, now);
      case Accept(_, _) =>
      case TakePick =>
      case Stamp(_) =>
    }
  }

  // ---- What one step does ---------------------------------------------------------------------------------

  /** A purge leaves exactly the rows received within the retention interval before its reading of the clock, and
      everything else as it was. */
  lemma PurgeExactly(p: Pipe, now: int)
    ensures var q := Perform(p, Purge(now));
            && (forall e :: e in q.table <==> e in p.table && e.time >= now - p.options.dbRetention)
            && q == p.(table := q.table, log := q.log, clock := q.clock)
  {
    FromMembers(p.table, now - p.options.dbRetention);
    hide From;
  }

  // ---- The input queue and the counters -------------------------------------------------------------------

  /** `a` can be got from `b` by leaving elements out. */
  ghost predicate Subsequence(a: seq<Pick>, b: seq<Pick>) {
    || a == []
    || (&& b != []
        && (|| Subsequence(a, b[..|b| - 1])
            || (a[|a| - 1] == b[|b| - 1] && Subsequence(a[..|a| - 1], b[..|b| - 1]))))
  }

  lemma {:induction false} SubsequenceSkips(a: seq<Pick>, b: seq<Pick>, c: seq<Pick>)
    requires Subsequence(a, b)
    ensures Subsequence(a, b + c)
  {
    if c == [] {
      assert b + c == b;
    } else {
      SubsequenceSkips(a, b, c[..|c| - 1]);
      assert (b + c)[..|b + c| - 1] == b + c[..|c| - 1];
    }
  }

  lemma SubsequenceTakes(a: seq<Pick>, b: seq<Pick>, x: Pick)
    requires Subsequence(a, b)
    ensures Subsequence(a + [x], b + [x])
  {
    assert (a + [x])[..|a|] == a && (b + [x])[..|b|] == b;
  }

  /** The accepted picks that have left the queue, dropped or taken. */
  function Gone(p: Pipe): seq<Pick>
    requires |p.queue| <= |p.accepted|
  {
    p.accepted[..|p.accepted| - |p.queue|]
  }

  /** A bounded queue that drops its oldest picks: it holds the latest accepted ones, and those taken off it are
      accepted ones in their order. */
  ghost predicate BoundedFifo(p: Pipe) {
    && |p.queue| <= p.options.queueCapacity
    && |p.queue| <= |p.accepted|
    && p.queue == p.accepted[|p.accepted| - |p.queue|..]
    && Subsequence(p.taken, Gone(p))
  }

  /** Every accepted pick is dropped, queued or taken; every taken one was a duplicate, failed, reached the store
      or is the one being processed; the counters say so. */
  ghost predicate Conserved(p: Pipe) {
    && p.received == |p.accepted| == p.overflowed + |p.queue| + |p.taken|
    && |p.taken| == p.duplicates + p.failures + |p.inserted| + if p.processor.Idle? then 0 else 1
  }

  lemma AcceptFifo(p: Pipe, pick: Pick, now: int)
    requires BoundedFifo(p) && Possible(p, Accept(pick, now))
    ensures BoundedFifo(Perform(p, Accept(pick, now)))
  {
    MadeRoomIsSuffix(p.queue, p.options.queueCapacity);
    var q := Perform(p, Accept(pick, now));
    var room := MadeRoom(p.queue, p.options.queueCapacity);
    var dropped := p.queue[..|p.queue| - |room|];
    assert Gone(q) == Gone(p) + dropped;
    SubsequenceSkips(p.taken, Gone(p), dropped);
  }

  lemma TakeFifo(p: Pipe)
    requires BoundedFifo(p) && Possible(p, TakePick)
    ensures BoundedFifo(Perform(p, TakePick))
  {
    var q := Perform(p, TakePick);
    assert Gone(q) == Gone(p) + [p.queue[0]];
    SubsequenceTakes(p.taken, Gone(p), p.queue[0]);
  }

  lemma FifoStep(p: Pipe, a: Action)
    requires BoundedFifo(p) && Possible(p, a)
    ensures BoundedFifo(Perform(p, a))
  {
    match a {
      case Accept(pick, now) => AcceptFifo(p, pick, now);
      case TakePick => TakeFifo(p);
      case Stamp(_) =>
      case AddToTable(_) =>
      case CleanStore(_) =>
      case InsertIntoStore(_) =>
      case Purge(_) =>
      case Client(_) =>
      case Restart(_, _) =>
    }
  }

  lemma ConservedStep(p: Pipe, a: Action)
    requires Conserved(p) && Possible(p, a)
    ensures Conserved(Perform(p, a))
  {
    if a.Accept? {
      MadeRoomIsSuffix(p.queue, p.options.queueCapacity);
    }
  }

  // ---- Normal form ----------------------------------------------------------------------------------------

  ghost predicate AllNormal(p: Pipe) {
    && (forall x :: x in p.queue ==> Normal(x))
    && (p.processor.Taken? ==> Normal(p.processor.pick))
    && (!p.processor.Idle? && !p.processor.Taken? ==> Normal(p.processor.entry.pick))
    && (forall e :: e in p.table ==> Normal(e.pick))
    && (forall e :: e in p.store.deque ==> Normal(e.pick))
  }

  lemma MadeRoomMembers(queue: seq<Pick>, capacity: Positive)
    ensures forall x :: x in MadeRoom(queue, capacity) ==> x in queue
  {
    MadeRoomIsSuffix(queue, capacity);
  }

  lemma SubmissionNormal(pick: Pick, now: int)
    ensures Submission(pick, now).Success? ==>
              Normal(Submission(pick, now).value) && Submission(pick, now).value.time.value <= now
  {
    hide Normalize;
    NormalizeReachesNormalForm(pick);
    assert Submission(pick, now).Success? ==> Submission(pick, now) == Normalize(pick);
  }

  lemma AcceptNormal(p: Pipe, pick: Pick, now: int)
    requires AllNormal(p) && Possible(p, Accept(pick, now))
    ensures AllNormal(Perform(p, Accept(pick, now)))
  {
    hide Normal, Submission, MadeRoom;
    SubmissionNormal(pick, now);
    MadeRoomMembers(p.queue, p.options.queueCapacity);
  }

  lemma AllNormalStep(p: Pipe, a: Action)
    requires WellFormed(p) && AllNormal(p) && Possible(p, a)
    ensures AllNormal(Perform(p, a))
  {
    hide Normal, Submission, MadeRoom, Cleaned, From;
    match a {
      case Accept(pick, now) =>
        AcceptNormal(p, pick, now);
      case CleanStore(now) =>
        var k := CleanedIsSuffix(p.store.deque, p.store.capacity, now - p.options.storeRetention);
      case InsertIntoStore(after) =>
        InsertedIsSorting(p.store.deque, p.processor.entry, after);
      case Purge(now) =>
        DeleteKeepsUnique(p.table, now - p.options.dbRetention);
      case Restart(now, loaded) =>
        RebuiltFromTable(p.options, p.table, loaded, now);
      case TakePick =>
      case Stamp(_) =>
      case AddToTable(_) =>
      case Client(_) =>
    }
  }

  lemma RebuiltFromTable(options: Options, table: seq<Entry>, loaded: seq<Entry>, now: int)
    requires IsSorting(table, loaded)
    ensures forall e :: e in RebuiltStore(options, loaded, now).deque ==> e in table
  {
    var k := CleanedIsSuffix(loaded, options.storeCapacity, now - options.storeRetention);
    forall e | e in loaded ensures e in table {
      assert e in multiset(loaded);
      assert e in multiset(table);
    }
  }

  // ---- The store caches the table -------------------------------------------------------------------------

  /** No clean and no purge has yet used a cutoff above this time. */
  function Window(p: Pipe): int {
    p.clock - Min(p.options.storeRetention, p.options.dbRetention)
  }

  /** Inside the window the store holds exactly the rows of the table, the pick in flight excepted. */
  ghost predicate CacheAgrees(p: Pipe) {
    forall e: Entry :: e.time >= Window(p) ==> AgreesOn(p, e)
  }

  ghost predicate AgreesOn(p: Pipe, e: Entry) {
    multiset(p.table)[e] == multiset(p.store.deque)[e] + InFlight(p)[e]
  }

  lemma CleanedCount(d: seq<Entry>, capacity: nat, cutoff: int, e: Entry)
    requires Sorted(d) && e.time >= cutoff
    ensures multiset(Cleaned(d, capacity, cutoff))[e] == multiset(d)[e]
  {
    hide From, Below, DropOlder;
    CleanAllOrNothing(d, capacity, cutoff);
    FromCount(d, cutoff, e);
  }

  lemma RebuiltAgrees(options: Options, table: seq<Entry>, loaded: seq<Entry>, now: int, e: Entry)
    requires IsSorting(table, loaded) && e.time >= now - options.storeRetention
    ensures multiset(RebuiltStore(options, loaded, now).deque)[e] == multiset(table)[e]
  {
    CleanedCount(loaded, options.storeCapacity, now - options.storeRetention, e);
  }

  lemma CountSnoc(d: seq<Entry>, x: Entry, e: Entry)
    ensures multiset(d + [x])[e] == multiset(d)[e] + if x == e then 1 else 0
  {
  }

  lemma InsertAgrees(p: Pipe, after: seq<Entry>, e: Entry)
    requires WellFormed(p) && AgreesOn(p, e) && Possible(p, InsertIntoStore(after))
    ensures AgreesOn(Perform(p, InsertIntoStore(after)), e)
  {
    InsertedIsSorting(p.store.deque, p.processor.entry, after);
    CountSnoc(p.store.deque, p.processor.entry, e);
  }

  lemma AddAgrees(p: Pipe, fails: bool, e: Entry)
    requires WellFormed(p) && AgreesOn(p, e) && Possible(p, AddToTable(fails))
    ensures AgreesOn(Perform(p, AddToTable(fails)), e)
  {
    CountSnoc(p.table, p.processor.entry, e);
  }

  /** The actions that leave the table, the deque and the pick in flight as they are. */
  predicate Bystander(a: Action) {
    a.Accept? || a.TakePick? || a.Stamp? || a.Client?
  }

  lemma BystanderStep(p: Pipe, a: Action)
    requires WellFormed(p) && Possible(p, a) && Bystander(a)
    ensures var q := Perform(p, a);
            q.table == p.table && q.store.deque == p.store.deque && InFlight(q) == InFlight(p) && q.log == p.log
  {
    hide Submission, MadeRoom, Sound, From;
  }

  lemma CleanAgrees(p: Pipe, now: int, e: Entry)
    requires WellFormed(p) && AgreesOn(p, e) && p.processor.Persisted? && e.time >= now - p.options.storeRetention
    ensures AgreesOn(Perform(p, CleanStore(now)), e)
  {
    hide Cleaned;
    CleanedCount(p.store.deque, p.store.capacity, now - p.options.storeRetention, e);
  }

  lemma PurgeAgrees(p: Pipe, now: int, e: Entry)
    requires WellFormed(p) && AgreesOn(p, e) && e.time >= now - p.options.dbRetention
    ensures AgreesOn(Perform(p, Purge(now)), e)
  {
    hide From;
    FromCount(p.table, now - p.options.dbRetention, e);
  }

  lemma CacheStepAt(p: Pipe, a: Action, e: Entry)
    requires WellFormed(p) && AgreesOn(p, e) && Possible(p, a) && e.time >= Window(Perform(p, a))
    ensures AgreesOn(Perform(p, a), e)
  {
    hide Sound, Submission, Cleaned, From;
    match a {
      case CleanStore(now) => CleanAgrees(p, now, e);
      case InsertIntoStore(after) => InsertAgrees(p, after, e);
      case Purge(now) => PurgeAgrees(p, now, e);
      case Restart(now, loaded) => RebuiltAgrees(p.options, p.table, loaded, now, e);
      case AddToTable(fails) => AddAgrees(p, fails, e);
      case Accept(_, _) => BystanderStep(p, a);
      case TakePick => BystanderStep(p, a);
      case Stamp(_) => BystanderStep(p, a);
      case Client(_) => BystanderStep(p, a);
    }
  }

  lemma CacheStep(p: Pipe, a: Action)
    requires WellFormed(p) && CacheAgrees(p) && Possible(p, a)
    ensures CacheAgrees(Perform(p, a))
  {
    var q := Perform(p, a);
    WindowGrows(p, a);
    hide WellFormed, Possible, Perform, AgreesOn;
    forall e: Entry | e.time >= Window(q) ensures AgreesOn(q, e) {
      assert AgreesOn(p, e);
      CacheStepAt(p, a, e);
    }
  }

  lemma WindowGrows(p: Pipe, a: Action)
    ensures Window(Perform(p, a)) >= Window(p)
  {
  }

  // ---- The history of the table ---------------------------------------------------------------------------

  ghost predicate PurgedBetween(log: seq<Record>, i: int, j: int, t: int) {
    exists k :: i < k < j && 0 <= k < |log| && log[k].Purged? && log[k].cutoff > t
  }

  /** A row once added is in the table until a purge with a cutoff above its time. */
  ghost predicate RowsRemain(p: Pipe) {
    forall i :: 0 <= i < |p.log| && p.log[i].Added? ==>
      p.log[i].entry in p.table || PurgedBetween(p.log, i, |p.log|, p.log[i].entry.time)
  }

  /** The same pick is added twice only if a purge with a cutoff above the first copy's received time came in
      between. */
  ghost predicate NoDoubleAdd(log: seq<Record>) {
    forall i, j :: 0 <= i < j < |log| && log[i].Added? && log[j].Added? && log[i].entry.pick == log[j].entry.pick ==>
      PurgedBetween(log, i, j, log[i].entry.time)
  }

  lemma PurgedBetweenGrows(log: seq<Record>, i: int, j: int, t: int, r: Record)
    requires j <= |log| && PurgedBetween(log, i, j, t)
    ensures PurgedBetween(log + [r], i, j, t) && PurgedBetween(log + [r], i, j + 1, t)
  {
    var k :| i < k < j && 0 <= k < |log| && log[k].Purged? && log[k].cutoff > t;
    assert (log + [r])[k] == log[k];
  }

  lemma AddRemains(p: Pipe, a: Action)
    requires WellFormed(p) && RowsRemain(p) && NoDoubleAdd(p.log) && Possible(p, a) && a.AddToTable?
    ensures RowsRemain(Perform(p, a)) && NoDoubleAdd(Perform(p, a).log)
  {
    var e, log := p.processor.entry, p.log;
    if !a.fails && !HasKey(p.table, e.pick) {
      var q := Perform(p, a);
      forall i | 0 <= i < |q.log| && q.log[i].Added?
        ensures q.log[i].entry in q.table || PurgedBetween(q.log, i, |q.log|, q.log[i].entry.time)
      {
        if i < |log| && log[i].entry !in p.table {
          PurgedBetweenGrows(log, i, |log|, log[i].entry.time, Added(e));
        }
      }
      forall i, j | 0 <= i < j < |q.log| && q.log[i].Added? && q.log[j].Added?
                    && q.log[i].entry.pick == q.log[j].entry.pick
        ensures PurgedBetween(q.log, i, j, q.log[i].entry.time)
      {
        if j < |log| {
          PurgedBetweenGrows(log, i, j, log[i].entry.time, Added(e));
        } else {
          NoRowWithKey(p.table, e.pick, log[i].entry);
          PurgedBetweenGrows(log, i, |log|, log[i].entry.time, Added(e));
        }
      }
    }
  }

  lemma NoRowWithKey(rows: seq<Entry>, pick: Pick, x: Entry)
    requires !HasKey(rows, pick) && x.pick == pick
    ensures x !in rows
  {
  }

  lemma PurgeRemains(p: Pipe, now: int)
    requires WellFormed(p) && RowsRemain(p) && NoDoubleAdd(p.log)
    ensures RowsRemain(Perform(p, Purge(now))) && NoDoubleAdd(Perform(p, Purge(now)).log)
  {
    var q, cutoff, log := Perform(p, Purge(now)), now - p.options.dbRetention, p.log;
    DeleteKeepsUnique(p.table, cutoff);
    forall i | 0 <= i < |q.log| && q.log[i].Added?
      ensures q.log[i].entry in q.table || PurgedBetween(q.log, i, |q.log|, q.log[i].entry.time)
    {
      if log[i].entry !in p.table {
        PurgedBetweenGrows(log, i, |log|, log[i].entry.time, Purged(cutoff));
      } else if log[i].entry.time < cutoff {
        assert q.log[|log|] == Purged(cutoff);
      }
    }
    forall i, j | 0 <= i < j < |q.log| && q.log[i].Added? && q.log[j].Added?
                  && q.log[i].entry.pick == q.log[j].entry.pick
      ensures PurgedBetween(q.log, i, j, q.log[i].entry.time)
    {
      PurgedBetweenGrows(log, i, j, log[i].entry.time, Purged(cutoff));
    }
  }

  /** Every row of the table was added at some point and no purge since had a cutoff above its time. */
  ghost predicate RowsLogged(p: Pipe) {
    forall e :: e in p.table ==> LoggedSincePurge(p.log, e)
  }

  ghost predicate LoggedSincePurge(log: seq<Record>, e: Entry) {
    exists i :: 0 <= i < |log| && log[i] == Added(e) && !PurgedBetween(log, i, |log|, e.time)
  }

  lemma LoggedStays(log: seq<Record>, e: Entry, r: Record)
    requires LoggedSincePurge(log, e) && (r.Purged? ==> r.cutoff <= e.time)
    ensures LoggedSincePurge(log + [r], e)
  {
    var i :| 0 <= i < |log| && log[i] == Added(e) && !PurgedBetween(log, i, |log|, e.time);
    var more := log + [r];
    assert more[i] == Added(e);
    forall k | i < k < |more| && more[k].Purged? ensures more[k].cutoff <= e.time {
      assert k < |log| ==> more[k] == log[k];
    }
  }

  lemma LoggedNow(log: seq<Record>, e: Entry)
    ensures LoggedSincePurge(log + [Added(e)], e)
  {
    assert (log + [Added(e)])[|log|] == Added(e);
  }

  lemma LoggedStep(p: Pipe, a: Action)
    requires WellFormed(p) && RowsLogged(p) && Possible(p, a)
    ensures RowsLogged(Perform(p, a))
  {
    hide Submission, MadeRoom, Sound, From, LoggedSincePurge, UniqueKeys;
    var q := Perform(p, a);
    match a {
      case AddToTable(fails) =>
        if q.log != p.log {
          var r := p.processor.entry;
          LoggedNow(p.log, r);
          forall e | e in p.table ensures LoggedSincePurge(q.log, e) {
            LoggedStays(p.log, e, Added(r));
          }
        }
      case Purge(now) =>
        var cutoff := now - p.options.dbRetention;
        DeleteKeepsUnique(p.table, cutoff);
        forall e | e in q.table ensures LoggedSincePurge(q.log, e) {
          LoggedStays(p.log, e, Purged(cutoff));
        }
      case Accept(_, _) =>
      case TakePick =>
      case Stamp(_) =>
      case CleanStore(_) =>
      case InsertIntoStore(_) =>
      case Client(_) =>
      case Restart(_, _) =>
    }
  }

  lemma HistoryStep(p: Pipe, a: Action)
    requires WellFormed(p) && RowsRemain(p) && NoDoubleAdd(p.log) && Possible(p, a)
    ensures RowsRemain(Perform(p, a)) && NoDoubleAdd(Perform(p, a).log)
  {
    match a {
      case AddToTable(_) => AddRemains(p, a);
      case Purge(now) => PurgeRemains(p, now);
      case Accept(_, _) =>
      case TakePick =>
      case Stamp(_) =>
      case CleanStore(_) =>
      case InsertIntoStore(_) =>
      case Client(_) =>
      case Restart(_, _) =>
    }
  }

  /** The entries ever added to the table, in order. */
  function AddedEntries(log: seq<Record>): seq<Entry> {
    if log == [] then []
    else
      var r := log[|log| - 1];
      AddedEntries(log[..|log| - 1]) + if r.Added? then [r.entry] else []
  }

  /** The table, and the store together with the pick in flight, hold nothing that was not added, nor any copy
      too many. */
  ghost predicate OnlyAdded(p: Pipe) {
    && multiset(p.table) <= multiset(AddedEntries(p.log))
    && multiset(p.store.deque) + InFlight(p) <= multiset(AddedEntries(p.log))
  }

  lemma AddedEntriesSnoc(log: seq<Record>, r: Record)
    ensures AddedEntries(log + [r]) == AddedEntries(log) + if r.Added? then [r.entry] else []
  {
    assert (log + [r])[..|log|] == log;
  }

  lemma FewerCleaned(d: seq<Entry>, capacity: nat, cutoff: int)
    requires Sorted(d)
    ensures multiset(Cleaned(d, capacity, cutoff)) <= multiset(d)
  {
    hide From, Below, DropOlder;
    CleanAllOrNothing(d, capacity, cutoff);
    FewerFrom(d, cutoff);
  }

  lemma MoreAdded(d: multiset<Entry>, log: seq<Record>, r: Record)
    requires d <= multiset(AddedEntries(log))
    ensures d <= multiset(AddedEntries(log + [r]))
    ensures r.Added? ==> d + multiset{r.entry} <= multiset(AddedEntries(log + [r]))
  {
    AddedEntriesSnoc(log, r);
  }

  lemma AddOnlyAdded(p: Pipe, fails: bool)
    requires OnlyAdded(p) && p.processor.Stamped?
    ensures OnlyAdded(Perform(p, AddToTable(fails)))
  {
    hide AddedEntries;
    var e := p.processor.entry;
    MoreAdded(multiset(p.table), p.log, Added(e));
    MoreAdded(multiset(p.store.deque), p.log, Added(e));
    assert multiset(p.table + [e]) == multiset(p.table) + multiset{e};
  }

  lemma CleanOnlyAdded(p: Pipe, now: int)
    requires WellFormed(p) && OnlyAdded(p) && p.processor.Persisted?
    ensures OnlyAdded(Perform(p, CleanStore(now)))
  {
    hide Cleaned, AddedEntries;
    FewerCleaned(p.store.deque, p.store.capacity, now - p.options.storeRetention);
  }

  lemma InsertOnlyAdded(p: Pipe, after: seq<Entry>)
    requires WellFormed(p) && OnlyAdded(p) && Possible(p, InsertIntoStore(after))
    ensures OnlyAdded(Perform(p, InsertIntoStore(after)))
  {
    hide AddedEntries, WellFormed, Possible, Perform, InFlight;
    InsertMoves(p, after);
  }

  /** An insertion moves the pick in flight into the deque. */
  lemma InsertMoves(p: Pipe, after: seq<Entry>)
    requires WellFormed(p) && Possible(p, InsertIntoStore(after))
    ensures var q := Perform(p, InsertIntoStore(after));
            && q.table == p.table && q.log == p.log
            && multiset(q.store.deque) + InFlight(q) == multiset(p.store.deque) + InFlight(p)
  {
    InsertedIsSorting(p.store.deque, p.processor.entry, after);
    hide Inserted, Woken, UniqueKeys, Sorted;
    assert multiset(after) == multiset(p.store.deque) + multiset{p.processor.entry};
  }

  lemma PurgeOnlyAdded(p: Pipe, now: int)
    requires WellFormed(p) && OnlyAdded(p)
    ensures OnlyAdded(Perform(p, Purge(now)))
  {
    hide AddedEntries, From;
    FewerFrom(p.table, now - p.options.dbRetention);
    var r := Purged(now - p.options.dbRetention);
    MoreAdded(multiset(DeletedBefore(p.table, r.cutoff)), p.log, r);
    MoreAdded(multiset(p.store.deque) + InFlight(p), p.log, r);
  }

  lemma RestartOnlyAdded(p: Pipe, now: int, loaded: seq<Entry>)
    requires WellFormed(p) && OnlyAdded(p) && Possible(p, Restart(now, loaded))
    ensures OnlyAdded(Perform(p, Restart(now, loaded)))
  {
    hide AddedEntries, Cleaned, Sound, UniqueKeys, Inserted;
    FewerCleaned(loaded, p.options.storeCapacity, now - p.options.storeRetention);
    assert InFlight(Perform(p, Restart(now, loaded))) == multiset{};
  }

  lemma OnlyAddedStep(p: Pipe, a: Action)
    requires WellFormed(p) && OnlyAdded(p) && Possible(p, a)
    ensures OnlyAdded(Perform(p, a))
  {
    if Bystander(a) {
      BystanderStep(p, a);
    } else {
      match a {
        case AddToTable(fails) => AddOnlyAdded(p, fails);
        case CleanStore(now) => CleanOnlyAdded(p, now);
        case InsertIntoStore(after) => InsertOnlyAdded(p, after);
        case Purge(now) => PurgeOnlyAdded(p, now);
        case Restart(now, loaded) => RestartOnlyAdded(p, now, loaded);
      }
    }
  }

  // ---- Together -------------------------------------------------------------------------------------------

  ghost predicate Invariant(p: Pipe) {
    && WellFormed(p)
    && BoundedFifo(p)
    && Conserved(p)
    && CacheAgrees(p)
    && RowsRemain(p)
    && NoDoubleAdd(p.log)
    && RowsLogged(p)
    && OnlyAdded(p)
  }

  lemma {:induction false} LoggedEntries(rows: seq<Entry>)
    ensures AddedEntries(Logged(rows)) == rows
  {
    if rows == [] {
    } else {
      var init := rows[..|rows| - 1];
      LoggedEntries(init);
      assert Logged(rows)[..|rows| - 1] == Logged(init);
      assert rows == init + [rows[|rows| - 1]];
    }
  }

  lemma UniqueSorting(rows: seq<Entry>, loaded: seq<Entry>)
    requires UniqueKeys(rows) && multiset(loaded) == multiset(rows)
    ensures UniqueKeys(loaded)
  {
    forall i, j | 0 <= i < j < |loaded| ensures loaded[i].pick != loaded[j].pick {
      assert loaded[i] in multiset(rows) && loaded[j] in multiset(rows);
      var m :| 0 <= m < |rows| && rows[m] == loaded[i];
      var n :| 0 <= n < |rows| && rows[n] == loaded[j];
      AtMostOneCopy(rows, loaded[i]);
      TwoCopies(loaded, i, j);
      assert m != n;
    }
  }

  lemma {:induction false} AtMostOneCopy(rows: seq<Entry>, e: Entry)
    requires UniqueKeys(rows)
    ensures multiset(rows)[e] <= 1
  {
    if rows == [] {
    } else {
      AtMostOneCopy(rows[1..], e);
      assert rows == [rows[0]] + rows[1..];
      forall i | 0 <= i < |rows[1..]| ensures rows[1..][i] != rows[0] {
        assert rows[0].pick != rows[i + 1].pick;
      }
    }
  }

  lemma InitialInvariant(p: Pipe, loaded: seq<Entry>, now: int)
    requires Initial(p, loaded, now)
    ensures Invariant(p)
  {
    hide WellFormed, CacheAgrees, RowsRemain, NoDoubleAdd, RowsLogged, OnlyAdded;
    InitialWellFormed(p, loaded, now);
    InitialAgrees(p, loaded, now);
    InitialHistory(p, loaded, now);
    InitialLogged(p, loaded, now);
    InitialOnlyAdded(p, loaded, now);
    InitialQueue(p, loaded, now);
  }

  lemma InitialQueue(p: Pipe, loaded: seq<Entry>, now: int)
    requires Initial(p, loaded, now)
    ensures BoundedFifo(p) && Conserved(p)
  {
    hide RebuiltStore, UniqueKeys, IsSorting;
  }

  lemma InitialWellFormed(p: Pipe, loaded: seq<Entry>, now: int)
    requires Initial(p, loaded, now)
    ensures WellFormed(p)
  {
    hide Cleaned, Sound;
    RebuiltSound(p.options, p.table, loaded, now);
  }

  lemma InitialOnlyAdded(p: Pipe, loaded: seq<Entry>, now: int)
    requires Initial(p, loaded, now)
    ensures OnlyAdded(p)
  {
    hide Cleaned, AddedEntries, UniqueKeys;
    LoggedEntries(loaded);
    FewerCleaned(loaded, p.options.storeCapacity, now - p.options.storeRetention);
    assert InFlight(p) == multiset{};
  }

  lemma InitialHistory(p: Pipe, loaded: seq<Entry>, now: int)
    requires Initial(p, loaded, now)
    ensures RowsRemain(p) && NoDoubleAdd(p.log)
  {
    UniqueSorting(p.table, loaded);
    forall i | 0 <= i < |loaded| ensures loaded[i] in p.table {
      assert loaded[i] in multiset(loaded);
      assert loaded[i] in multiset(p.table);
    }
  }

  lemma InitialLogged(p: Pipe, loaded: seq<Entry>, now: int)
    requires Initial(p, loaded, now)
    ensures RowsLogged(p)
  {
    hide Cleaned, UniqueKeys;
    forall e | e in p.table ensures LoggedSincePurge(p.log, e) {
      assert e in multiset(p.table);
      assert e in multiset(loaded);
      var i :| 0 <= i < |loaded| && loaded[i] == e;
      assert p.log[i] == Added(e);
    }
  }

  lemma InitialAgrees(p: Pipe, loaded: seq<Entry>, now: int)
    requires Initial(p, loaded, now)
    ensures CacheAgrees(p)
  {
    forall e: Entry | e.time >= Window(p) ensures AgreesOn(p, e) {
      RebuiltAgrees(p.options, p.table, loaded, now, e);
    }
  }

  lemma InvariantStep(p: Pipe, a: Action)
    requires Invariant(p) && Possible(p, a)
    ensures Invariant(Perform(p, a))
  {
    WellFormedStep(p, a);
    FifoStep(p, a);
    ConservedStep(p, a);
    CacheStep(p, a);
    HistoryStep(p, a);
    LoggedStep(p, a);
    OnlyAddedStep(p, a);
  }

  lemma {:induction false} InvariantAfter(p: Pipe, actions: seq<Action>)
    requires Invariant(p) && ValidTrace(p, actions)
    ensures Invariant(After(p, actions))
  {
    if actions == [] {
    } else {
      InvariantAfter(p, actions[..|actions| - 1]);
      InvariantStep(After(p, actions[..|actions| - 1]), actions[|actions| - 1]);
    }
  }

  lemma ReachableInvariant(p: Pipe)
    requires Reachable(p)
    ensures Invariant(p)
  {
    var q: Pipe, loaded, now, actions :| Initial(q, loaded, now) && ValidTrace(q, actions) && p == After(q, actions);
    InitialInvariant(q, loaded, now);
    InvariantAfter(q, actions);
  }
}
