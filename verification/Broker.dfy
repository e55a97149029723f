/** The broker: accepts picks from publishers, gives each a received time, persists it, and hands it to the store
    from which the subscribers are served. */
module Brokers {
  import opened Wrappers
  import opened Picks
  import opened TimeOrder
  import opened NormalForm
  import opened Databases
  import opened StoreModel
  import opened PickStores
  import opened Pipeline
  import opened PipelineInvariants

  /** What one turn of the processor's loop meets: the keep-running flag, the two clock readings and whether the
      database fails. */
  datatype Attempt = Attempt(keepRunning: bool, stamp: int, fails: bool, cleaning: int)

  /** What one turn of the cleaner's loop meets: the keep-running flag, the clock, and whether the database accepts
      and carries out the deletion. */
  datatype Tick = Tick(keepRunning: bool, now: int, prepares: bool, completes: bool)

  /** The purges of the cleaner's loop: one for each tick whose deletion is carried out, until the flag is down or a
      deletion is refused. */
  function PurgesOf(ticks: seq<Tick>): seq<Action> {
    if ticks == [] || !ticks[0].keepRunning || !ticks[0].prepares then []
    else TickActions(ticks[0]) + PurgesOf(ticks[1..])
  }

  function TickActions(tick: Tick): seq<Action> {
    if tick.completes then [Purge(tick.now)] else []
  }

  /** Every tick before this one kept running and had its deletion accepted. */
  predicate Reached(ticks: seq<Tick>, i: nat)
    requires i <= |ticks|
  {
    forall j :: 0 <= j < i ==> ticks[j].keepRunning && ticks[j].prepares
  }

  predicate CarriedOut(ticks: seq<Tick>, i: nat)
    requires i < |ticks|
  {
    Reached(ticks, i) && ticks[i].keepRunning && ticks[i].prepares && ticks[i].completes
  }

  /** The loop meets a refused deletion before it sees the flag down. */
  predicate Refuses(ticks: seq<Tick>) {
    ticks != [] && ticks[0].keepRunning && (ticks[0].prepares ==> Refuses(ticks[1..]))
  }

  /** Which options of the services are set, and which of those have the options of their server set. */
  datatype Settings = Settings(publish: bool, publishGrpc: bool, subscribe: bool, subscribeGrpc: bool)

  class Broker {
    const options: Options
    const database: Database
    const store: PickStore
    var inputQueue: seq<Pick>
    var picksReceived: nat
    var overflowPicks: nat
    var duplicatePicks: nat
    ghost var accepted: seq<Pick>
    ghost var taken: seq<Pick>
    ghost var failures: nat
    ghost var inserted: seq<Entry>
    ghost var log: seq<Record>
    ghost var clock: int

    /** The broker between two turns of its loops. */
    ghost function Snapshot(): Pipe
      reads this, database, store
    {
      Pipe(options, inputQueue, Idle, database.rows, store.Snapshot(),
           picksReceived, overflowPicks, duplicatePicks, accepted, taken, failures, inserted, log, clock)
    }

    ghost predicate Valid()
      reads this, database, store
    {
      database.isOpen && WellFormed(Snapshot())
    }

    /** A broker that has just been constructed over its database, its store rebuilt from the rows loaded. */
    ghost predicate JustStarted(loadedPicks: seq<Entry>, now: int)
      reads this, database, store
    {
      exists loaded :: IsSorting(loadedPicks, loaded)
                       && Snapshot() == Started(options, database.rows, loaded, now, Logged(loaded), now)
    }

    /** Rebuilds the store from what was loaded from the database; when that is all of it, the broker is in an
        initial state. */
    constructor (options: Options, database: Database, loadedPicks: seq<Entry>, now: int)
      requires database.Valid() && database.isOpen && forall e :: e in loadedPicks ==> e in database.rows
      requires forall e :: e in database.rows ==> InRange(e)
      ensures Valid() && this.database == database && this.options == options && fresh(store)
      ensures JustStarted(loadedPicks, now)
      ensures store.maxHistory == options.storeRetention && store.maxQueueCapacity == options.storeCapacity
      ensures inputQueue == [] && store.cursorMap == map[]
      ensures exists loaded :: IsSorting(loadedPicks, loaded)
                               && store.deque ==
                                  Cleaned(loaded, options.storeCapacity, now - options.storeRetention)
      ensures IsSorting(database.rows, loadedPicks) ==> exists loaded :: Initial(Snapshot(), loaded, now)
    {
      var pickStore := new PickStore(options.storeRetention, options.storeCapacity, loadedPicks, now);
      ghost var loaded :| IsSorting(loadedPicks, loaded)
                          && pickStore.deque == Cleaned(loaded, options.storeCapacity, now - options.storeRetention);
      this.options := options;
      this.database := database;
      store := pickStore;
      inputQueue := [];
      picksReceived, overflowPicks, duplicatePicks := 0, 0, 0;
      accepted, taken, failures, inserted := [], [], 0, [];
      log, clock := Logged(loaded), now;
      new;
      assert Snapshot() == Started(options, database.rows, loaded, now, Logged(loaded), now);
      assert IsSorting(database.rows, loadedPicks) ==> Initial(Snapshot(), loaded, now);
    }

    /** Constructs a broker over a database.  `settings` says which options are set; `prepares`, `steps` and
        `corrupt` are what loading meets, and `yielded` the rows it got to see. */
    static method Create(options: Options, database: Database?, settings: Settings, now: int,
                         prepares: bool, steps: nat, corrupt: set<Pick>)
      returns (r: Result<Broker, Error>, ghost yielded: seq<Entry>)
      requires database != null ==> database.Valid() && forall e :: e in database.rows ==> InRange(e)
      ensures var reached := database != null && database.isOpen && settings.publish && settings.subscribe
                             && settings.publishGrpc;
              && (reached && prepares ==> Yields(database.rows, steps, yielded))
              && (r.Success? <==> reached && prepares && Readable(yielded, corrupt) && settings.subscribeGrpc)
              && (r.Failure? ==>
                  if reached && !(prepares && Readable(yielded, corrupt)) then r.error.RuntimeError?
                  else r.error.InvalidArgument?)
      ensures r.Success? ==>
                && fresh(r.value) && fresh(r.value.store) && r.value.Valid()
                && r.value.database == database && r.value.options == options
                && r.value.JustStarted(yielded, now)
                && (steps >= |database.rows| ==> exists loaded :: Initial(r.value.Snapshot(), loaded, now))
    {
      yielded := [];
      if database == null {
        return Failure(InvalidArgument("Database is null")), yielded;
      }
      if !database.isOpen {
        return Failure(InvalidArgument("Database is not open")), yielded;
      }
      if !settings.publish {
        return Failure(InvalidArgument("Publish service options not set on broker")), yielded;
      }
      if !settings.subscribe {
        return Failure(InvalidArgument("Subscribe service options not set on broker")), yielded;
      }
      if !settings.publishGrpc {
        return Failure(InvalidArgument("GRPC server options not set")), yielded;
      }
      var loadedPicks;
      loadedPicks, yielded := database.Load(prepares, steps, corrupt);
      if loadedPicks.Failure? {
        return Failure(loadedPicks.error), yielded;
      }
      YieldedRows(database.rows, steps, yielded);
      var broker := new Broker(options, database, loadedPicks.value, now);
      if !settings.subscribeGrpc {
        return Failure(InvalidArgument("GRPC server options not set")), yielded;
      }
      return Success(broker), yielded;
    }

    /** The publishers' callback. */
    method AddPickCallback(pickIn: Pick, now: int) returns (r: Result<(), Error>)
      requires Valid()
      modifies this
      ensures Valid()
      ensures r.Failure? <==> Submission(pickIn, now).Failure?
      ensures r.Failure? ==> r.error == Submission(pickIn, now).error && Snapshot() == old(Snapshot())
      ensures r.Success? ==>
                && Possible(old(Snapshot()), Accept(pickIn, now))
                && Snapshot() == Perform(old(Snapshot()), Accept(pickIn, now))
      ensures r.Success? <==>
              && pickIn.streamIdentifier.Some? && pickIn.time.Some? && pickIn.algorithm.Some?
              && Filled(pickIn.streamIdentifier.value.network)
              && Filled(pickIn.streamIdentifier.value.station)
              && Filled(pickIn.streamIdentifier.value.channel)
              && pickIn.algorithm.value.version.Some?
              && pickIn.time.value <= now
      ensures pickIn.streamIdentifier.None? ==> r == Failure(InvalidArgument("Stream identifier not set"))
      ensures pickIn.streamIdentifier.Some? && pickIn.time.None? ==> r == Failure(InvalidArgument("Pick time not set"))
      ensures pickIn.streamIdentifier.Some? && pickIn.time.Some? && pickIn.algorithm.None? ==>
                r == Failure(InvalidArgument("Algorithm not set"))
      ensures Normalize(pickIn).Success? && pickIn.time.value > now ==>
                r == Failure(InvalidArgument("Pick cannot be from future"))
      ensures r.Success? ==>
                && inputQueue ==
                   old(inputQueue)[|old(inputQueue)| - Min(|old(inputQueue)|, options.queueCapacity - 1)..]
                   + [Normalize(pickIn).value]
                && picksReceived == old(picksReceived) + 1
                && overflowPicks == old(overflowPicks) + (|old(inputQueue)| + 1 - |inputQueue|)
                && duplicatePicks == old(duplicatePicks)
    {
      SubmissionExactly(pickIn, now);
      AcceptedExactly(pickIn);
      var pick := pickIn;
      if pick.streamIdentifier.None? {
        return Failure(InvalidArgument("Stream identifier not set"));
      }
      if pick.time.None? {
        return Failure(InvalidArgument("Pick time not set"));
      }
      if pick.algorithm.None? {
        return Failure(InvalidArgument("Algorithm not set"));
      }
      var newIdentifier := CheckAndFixStreamIdentifier(pick.streamIdentifier.value);
      if newIdentifier.Failure? {
        return Failure(newIdentifier.error);
      }
      pick := pick.(streamIdentifier := Some(newIdentifier.value));
      var newAlgorithm := CheckAndFixAlgorithm(pick.algorithm.value);
      if newAlgorithm.Failure? {
        return Failure(newAlgorithm.error);
      }
      pick := pick.(algorithm := Some(newAlgorithm.value));
      if pick.time.value > now {
        return Failure(InvalidArgument("Pick cannot be from future"));
      }
      assert Submission(pickIn, now) == Success(pick);
      MadeRoomIsSuffix(inputQueue, options.queueCapacity);
      Push(pick);
      accepted := accepted + [pick];
      clock := Max(clock, now);
      picksReceived := picksReceived + 1;
      return Success(());
    }

    /** Pushes a pick, popping the oldest ones first while the queue is full. */
    method Push(pick: Pick)
      modifies this`inputQueue, this`overflowPicks
      ensures inputQueue == MadeRoom(old(inputQueue), options.queueCapacity) + [pick]
      ensures inputQueue ==
              old(inputQueue)[|old(inputQueue)| - Min(|old(inputQueue)|, options.queueCapacity - 1)..] + [pick]
      ensures overflowPicks == old(overflowPicks) + (|old(inputQueue)| + 1 - |inputQueue|)
    {
      while |inputQueue| >= options.queueCapacity
        invariant MadeRoom(inputQueue, options.queueCapacity) == MadeRoom(old(inputQueue), options.queueCapacity)
        invariant |inputQueue| <= |old(inputQueue)|
        invariant overflowPicks == old(overflowPicks) + (|old(inputQueue)| - |inputQueue|)
        decreases |inputQueue|
      {
        overflowPicks := overflowPicks + 1;
        inputQueue := inputQueue[1..];
      }
      inputQueue := inputQueue + [pick];
      MadeRoomIsSuffix(old(inputQueue), options.queueCapacity);
    }

    /** The first half of a turn: take the front of the queue, stamp it and try to persist it. */
    method TakeAndPersist(attempt: Attempt) returns (pick: Pick, enqueuePick: bool, ghost fails: bool)
      requires Valid() && attempt.stamp < MAX_TIME - 1 && inputQueue != []
      modifies this, database
      ensures pick == old(inputQueue[0])
      ensures fails <==> !Complete(pick) || attempt.fails
      ensures enqueuePick <==> !fails && !HasKey(old(database.rows), pick)
      ensures database.isOpen
      ensures inputQueue == old(inputQueue)[1..]
      ensures database.rows ==
              if enqueuePick then old(database.rows) + [Entry(attempt.stamp, pick)] else old(database.rows)
      ensures duplicatePicks ==
              old(duplicatePicks) + if !fails && HasKey(old(database.rows), pick) then 1 else 0
      ensures picksReceived == old(picksReceived) && overflowPicks == old(overflowPicks)
      ensures var p := Perform(Perform(Perform(old(Snapshot()), TakePick), Stamp(attempt.stamp)), AddToTable(fails));
              Snapshot() == p.(processor := Idle)
    {
      pick := inputQueue[0];
      inputQueue := inputQueue[1..];
      taken := taken + [pick];
      var receivedTime := attempt.stamp;
      clock := Max(clock, attempt.stamp);
      enqueuePick := true;
      var added := database.Add(receivedTime, pick, attempt.fails);
      if added == Failure(DuplicatePick) {
        duplicatePicks := duplicatePicks + 1;
        enqueuePick := false;
      } else if added.Failure? {
        failures := failures + 1;
        enqueuePick := false;
      } else {
        log := log + [Added(Entry(receivedTime, pick))];
      }
      fails := added.Failure? && added.error != DuplicatePick;
    }

    /** The second half of a turn: hand a pick that was new to the store.  `p` is the state the first half left. */
    method EnqueuePick(receivedTime: int, pick: Pick, now: int, ghost p: Pipe)
      requires p.processor == Persisted(Entry(receivedTime, pick)) && Snapshot() == p.(processor := Idle)
      requires WellFormed(p) && database.isOpen
      modifies this`inserted, this`clock, store
      ensures var actions := [CleanStore(now), InsertIntoStore(store.deque)];
              Valid() && ValidTrace(p, actions) && Snapshot() == After(p, actions)
      ensures Inserted(Cleaned(old(store.deque), options.storeCapacity, now - options.storeRetention),
                       Entry(receivedTime, pick), store.deque)
    {
      StoreFits(p);
      assert store.Snapshot() == p.store;
      hide Inserted, Cleaned, Run, ValidRun, After, ValidTrace, WellFormed, Sound, Sorted;
      store.Enqueue(receivedTime, pick, now);
      clock := Max(clock, now);
      inserted := inserted + [Entry(receivedTime, pick)];
      EnqueueIsTwoActions(p, now, store.deque, store.Snapshot());
    }

    /** One turn of the processor's loop. */
    method ProcessNext(attempt: Attempt) returns (ghost actions: seq<Action>)
      requires Valid() && attempt.stamp < MAX_TIME - 1
      modifies this, database, store
      ensures Valid()
      ensures actions == TurnOf(old(Snapshot()), attempt, store.deque)
      ensures ValidTrace(old(Snapshot()), actions) && Snapshot() == After(old(Snapshot()), actions)
      ensures old(inputQueue) == [] ==> Snapshot() == old(Snapshot())
      ensures old(inputQueue) != [] ==>
                var pick := old(inputQueue)[0];
                && inputQueue == old(inputQueue)[1..]
                && if Complete(pick) && !attempt.fails && !HasKey(old(database.rows), pick)
                   then
                     && database.rows == old(database.rows) + [Entry(attempt.stamp, pick)]
                     && Inserted(Cleaned(old(store.deque), options.storeCapacity,
                                         attempt.cleaning - options.storeRetention),
                                 Entry(attempt.stamp, pick), store.deque)
                   else database.rows == old(database.rows) && store.Snapshot() == old(store.Snapshot())
    {
      hide MadeRoom, Submission, From, Sound, Inserted, Cleaned, HasKey, UniqueKeys, Complete;
      ghost var before := Snapshot();
      actions := [];
      if inputQueue != [] {
        ghost var fails: bool;
        var pick, enqueuePick;
        pick, enqueuePick, fails := TakeAndPersist(attempt);
        ghost var p := FirstHalf(before, attempt.stamp, fails);
        actions := [TakePick, Stamp(attempt.stamp), AddToTable(fails)];
        if enqueuePick {
          EnqueuePick(attempt.stamp, pick, attempt.cleaning, p);
          ghost var enqueue := [CleanStore(attempt.cleaning), InsertIntoStore(store.deque)];
          AfterAppend(before, actions, enqueue);
          actions := actions + enqueue;
        }
      }
    }

    /** The processor's loop. */
    method ProcessPick(attempts: seq<Attempt>) returns (ghost actions: seq<Action>)
      requires Valid() && forall a :: a in attempts ==> a.stamp < MAX_TIME - 1
      modifies this, database, store
      ensures Valid()
      ensures ValidTrace(old(Snapshot()), actions) && Snapshot() == After(old(Snapshot()), actions)
      ensures |taken| - |old(taken)| == Min(|old(inputQueue)|, Running(attempts))
      ensures inputQueue == old(inputQueue)[|taken| - |old(taken)|..]
    {
      hide Perform, WellFormed, TurnOf, Running;
      ghost var before := Snapshot();
      actions := [];
      assert After(before, []) == before && ValidTrace(before, []);
      hide After, ValidTrace;
      var i := 0;
      while i < |attempts| && attempts[i].keepRunning
        invariant 0 <= i <= |attempts| && Valid()
        invariant forall j :: 0 <= j < i ==> attempts[j].keepRunning
        invariant ValidTrace(before, actions) && Snapshot() == After(before, actions)
        invariant |taken| - |old(taken)| == Min(|old(inputQueue)|, i)
        invariant inputQueue == old(inputQueue)[|taken| - |old(taken)|..]
      {
        ghost var mid := Snapshot();
        ghost var turn := ProcessNext(attempts[i]);
        TurnTakesOne(mid, attempts[i], store.deque);
        AfterAppend(before, actions, turn);
        actions := actions + turn;
        i := i + 1;
      }
      RunningIs(attempts, i);
    }

    /** One deletion of the cleaner. */
    method PurgeOnce(tick: Tick) returns (r: Result<(), Error>)
      requires Valid()
      modifies this`log, this`clock, database`rows
      ensures Valid() && (r.Failure? <==> !tick.prepares)
      ensures Snapshot() ==
              if tick.prepares && tick.completes then Perform(old(Snapshot()), Purge(tick.now)) else old(Snapshot())
      ensures tick.prepares && tick.completes ==>
                forall e :: e in database.rows <==>
                            e in old(database.rows) && e.time >= tick.now - options.dbRetention
    {
      PurgeExactly(Snapshot(), tick.now);
      WellFormedStep(Snapshot(), Purge(tick.now));
      var oldestLoadTime := tick.now - options.dbRetention;
      var nDeleted := database.DeletePicksBefore(oldestLoadTime, tick.prepares, tick.completes, 0);
      if nDeleted.Failure? {
        return Failure(nDeleted.error);
      }
      if tick.completes {
        log := log + [Purged(oldestLoadTime)];
        clock := Max(clock, tick.now);
      }
      return Success(());
    }

    /** The cleaner's loop; the exception of a refused deletion ends it. */
    method CleanDatabase(ticks: seq<Tick>) returns (r: Result<(), Error>, ghost actions: seq<Action>)
      requires Valid()
      modifies this`log, this`clock, database`rows
      ensures Valid() && (r.Failure? <==> Refuses(ticks))
      ensures actions == PurgesOf(ticks)
      ensures r.Failure? <==>
              exists i :: 0 <= i < |ticks| && RefusedAt(ticks, i)
      ensures forall e :: e in database.rows <==>
                          e in old(database.rows) && Spared(ticks, e, options.dbRetention)
      ensures ValidTrace(old(Snapshot()), actions) && Snapshot() == After(old(Snapshot()), actions)
    {
      assert After(Snapshot(), []) == Snapshot() && ValidTrace(Snapshot(), []);
      hide Perform, Possible, WellFormed, PurgesOf, Refuses, After, ValidTrace, Spared, RefusedAt;
      RefusesExactly(ticks);
      PurgesLeave(Snapshot(), ticks);
      ghost var before := Snapshot();
      actions := [];
      var i := 0;
      assert ticks[0..] == ticks;
      while i < |ticks| && ticks[i].keepRunning
        invariant 0 <= i <= |ticks| && Valid()
        invariant actions + PurgesOf(ticks[i..]) == PurgesOf(ticks)
        invariant Refuses(ticks[i..]) <==> Refuses(ticks)
        invariant ValidTrace(before, actions) && Snapshot() == After(before, actions)
      {
        TicksAt(ticks, i);
        if database.isOpen {
          var purged := PurgeOnce(ticks[i]);
          if purged.Failure? {
            return Failure(purged.error), actions;
          }
          PurgeAdds(before, actions, ticks[i]);
          Regrouped(actions, TickActions(ticks[i]), PurgesOf(ticks[i + 1..]));
          actions := actions + TickActions(ticks[i]);
        }
        i := i + 1;
      }
      TicksAt(ticks, i);
      r := Success(());
    }
  }

  lemma PurgeAdds(p: Pipe, actions: seq<Action>, tick: Tick)
    requires ValidTrace(p, actions)
    ensures ValidTrace(p, actions + TickActions(tick))
    ensures var q := After(p, actions);
            After(p, actions + TickActions(tick)) == if tick.completes then Perform(q, Purge(tick.now)) else q
  {
    hide Perform;
    if tick.completes {
      assert (actions + [Purge(tick.now)])[..|actions|] == actions;
    } else {
      assert actions + [] == actions;
    }
  }

  lemma Regrouped(a: seq<Action>, b: seq<Action>, c: seq<Action>)
    ensures (a + b) + c == a + (b + c)
  {
  }

  lemma TicksAt(ticks: seq<Tick>, i: nat)
    requires i <= |ticks|
    ensures i == |ticks| || !ticks[i].keepRunning ==> PurgesOf(ticks[i..]) == [] && !Refuses(ticks[i..])
    ensures i < |ticks| && ticks[i].keepRunning ==>
              if !ticks[i].prepares then PurgesOf(ticks[i..]) == [] && Refuses(ticks[i..])
              else
                && PurgesOf(ticks[i..]) == TickActions(ticks[i]) + PurgesOf(ticks[i + 1..])
                && Refuses(ticks[i..]) == Refuses(ticks[i + 1..])
  {
    if i < |ticks| {
      assert ticks[i..][1..] == ticks[i + 1..];
    }
  }

  lemma ReachedShifts(ticks: seq<Tick>, i: nat)
    requires 0 < i <= |ticks|
    ensures Reached(ticks, i) <==> ticks[0].keepRunning && ticks[0].prepares && Reached(ticks[1..], i - 1)
  {
    if Reached(ticks[1..], i - 1) {
      forall j | 0 < j < i ensures ticks[j].keepRunning && ticks[j].prepares {
        assert ticks[1..][j - 1] == ticks[j];
      }
    }
  }

  /** A tick that keeps running, whose deletion is refused, and before which every other kept running with its own
      accepted. */
  predicate RefusedAt(ticks: seq<Tick>, i: nat)
    requires i < |ticks|
  {
    Reached(ticks, i) && ticks[i].keepRunning && !ticks[i].prepares
  }

  lemma {:induction false} RefusesExactly(ticks: seq<Tick>)
    ensures Refuses(ticks) <==> exists i :: 0 <= i < |ticks| && RefusedAt(ticks, i)
  {
    if ticks == [] {
    } else {
      var rest := ticks[1..];
      RefusesExactly(rest);
      forall i | 0 < i < |ticks|
        ensures RefusedAt(ticks, i) <==> ticks[0].keepRunning && ticks[0].prepares && RefusedAt(rest, i - 1)
      {
        ReachedShifts(ticks, i);
      }
      if Refuses(ticks) && ticks[0].prepares {
        var i :| 0 <= i < |rest| && RefusedAt(rest, i);
        assert RefusedAt(ticks, i + 1);
      } else if Refuses(ticks) {
        assert RefusedAt(ticks, 0);
      }
    }
  }

  /** The row is recent enough for every deletion the loop carries out. */
  ghost predicate Spared(ticks: seq<Tick>, e: Entry, retention: int) {
    forall i :: 0 <= i < |ticks| && CarriedOut(ticks, i) ==> e.time >= ticks[i].now - retention
  }

  lemma SparedShifts(ticks: seq<Tick>, e: Entry, retention: int)
    requires ticks != []
    ensures Spared(ticks, e, retention) <==>
            !ticks[0].keepRunning || !ticks[0].prepares
            || ((ticks[0].completes ==> e.time >= ticks[0].now - retention) && Spared(ticks[1..], e, retention))
  {
    var rest := ticks[1..];
    forall i | 0 < i < |ticks|
      ensures CarriedOut(ticks, i) <==> ticks[0].keepRunning && ticks[0].prepares && CarriedOut(rest, i - 1)
    {
      ReachedShifts(ticks, i);
    }
    if Spared(ticks, e, retention) && ticks[0].keepRunning && ticks[0].prepares {
      assert ticks[0].completes ==> CarriedOut(ticks, 0);
      forall i | 0 <= i < |rest| && CarriedOut(rest, i) ensures e.time >= rest[i].now - retention {
        assert CarriedOut(ticks, i + 1) && ticks[i + 1] == rest[i];
      }
    }
  }

  /** The cleaner leaves exactly the rows that every deletion it carries out spares. */
  lemma {:induction false} PurgesLeave(p: Pipe, ticks: seq<Tick>)
    ensures After(p, PurgesOf(ticks)).options == p.options
    ensures forall e :: e in After(p, PurgesOf(ticks)).table <==>
                        e in p.table && Spared(ticks, e, p.options.dbRetention)
    decreases ticks
  {
    hide After, Perform, Spared;
    if ticks == [] {
      AfterNothing(p);
      forall e: Entry ensures Spared(ticks, e, p.options.dbRetention) {
        SparedByNone(e, p.options.dbRetention);
      }
    } else if !ticks[0].keepRunning || !ticks[0].prepares {
      AfterNothing(p);
      forall e: Entry ensures Spared(ticks, e, p.options.dbRetention) {
        SparedShifts(ticks, e, p.options.dbRetention);
      }
    } else {
      var q := After(p, TickActions(ticks[0]));
      AfterTick(p, ticks[0]);
      AfterAppend(p, TickActions(ticks[0]), PurgesOf(ticks[1..]));
      PurgesLeave(q, ticks[1..]);
      hide PurgesOf, TickActions;
      forall e: Entry
        ensures Spared(ticks, e, p.options.dbRetention) <==>
                (ticks[0].completes ==> e.time >= ticks[0].now - p.options.dbRetention)
                && Spared(ticks[1..], e, p.options.dbRetention)
      {
        SparedShifts(ticks, e, p.options.dbRetention);
      }
    }
  }

  lemma SparedByNone(e: Entry, retention: int)
    ensures Spared([], e, retention)
  {
  }

  lemma AfterNothing(p: Pipe)
    ensures After(p, []) == p
  {
  }

  lemma AfterTick(p: Pipe, tick: Tick)
    ensures var q := After(p, TickActions(tick));
            && q.options == p.options
            && forall e :: e in q.table <==>
                           e in p.table && (tick.completes ==> e.time >= tick.now - p.options.dbRetention)
  {
    AfterNothing(p);
    if tick.completes {
      PurgeExactly(p, tick.now);
      assert [Purge(tick.now)][..0] == [];
      hide Perform;
    }
  }

  lemma StoreFits(p: Pipe)
    requires WellFormed(p)
    ensures Sound(p.store) && Sorted(p.store.deque)
    ensures p.store.capacity == p.options.storeCapacity && p.store.retention == p.options.storeRetention
    ensures p.processor.Persisted? ==> InRange(p.processor.entry)
  {
  }

  predicate Complete(pick: Pick) {
    pick.streamIdentifier.Some? && pick.time.Some? && pick.algorithm.Some?
  }

  /** How many turns the loop makes before it sees the flag down. */
  function Running(attempts: seq<Attempt>): nat {
    if attempts == [] || !attempts[0].keepRunning then 0 else 1 + Running(attempts[1..])
  }

  lemma {:induction false} RunningIs(attempts: seq<Attempt>, i: nat)
    requires i <= |attempts| && forall j :: 0 <= j < i ==> attempts[j].keepRunning
    requires i < |attempts| ==> !attempts[i].keepRunning
    ensures Running(attempts) == i
  {
    if i == 0 {
    } else {
      RunningIs(attempts[1..], i - 1);
    }
  }

  /** The state after a taken pick has been stamped and the table has answered. */
  ghost function FirstHalf(p: Pipe, stamp: int, fails: bool): (q: Pipe)
    requires WellFormed(p) && p.processor.Idle? && p.queue != [] && stamp < MAX_TIME - 1
    ensures var actions := [TakePick, Stamp(stamp), AddToTable(fails)];
            ValidTrace(p, actions) && q == After(p, actions) && WellFormed(q)
    ensures q == Perform(Perform(Perform(p, TakePick), Stamp(stamp)), AddToTable(fails))
  {
    var p1 := Perform(p, TakePick);
    var p2 := Perform(p1, Stamp(stamp));
    WellFormedStep(p, TakePick);
    WellFormedStep(p1, Stamp(stamp));
    WellFormedStep(p2, AddToTable(fails));
    TraceOfThree(p, TakePick, Stamp(stamp), AddToTable(fails));
    Perform(p2, AddToTable(fails))
  }

  /** A turn of the processor takes exactly one pick off the queue, if there is one. */
  lemma TurnTakesOne(p: Pipe, attempt: Attempt, after: seq<Entry>)
    requires WellFormed(p) && p.processor.Idle? && attempt.stamp < MAX_TIME - 1
    requires ValidTrace(p, TurnOf(p, attempt, after))
    ensures var q := After(p, TurnOf(p, attempt, after));
            if p.queue == [] then q == p else q.queue == p.queue[1..] && q.taken == p.taken + [p.queue[0]]
  {
    hide MadeRoom, Submission, From, Sound;
    if p.queue != [] {
      var fails := !Complete(p.queue[0]) || attempt.fails;
      var half := FirstHalf(p, attempt.stamp, fails);
      var first := [TakePick, Stamp(attempt.stamp), AddToTable(fails)];
      if fails || HasKey(p.table, p.queue[0]) {
        assert TurnOf(p, attempt, after) == first;
      } else {
        AfterAppend(p, first, [CleanStore(attempt.cleaning), InsertIntoStore(after)]);
        KeepsQueue(half, attempt.cleaning, after);
      }
    }
  }

  lemma KeepsQueue(p: Pipe, now: int, after: seq<Entry>)
    ensures var q := After(p, [CleanStore(now), InsertIntoStore(after)]); q.queue == p.queue && q.taken == p.taken
  {
    assert [CleanStore(now), InsertIntoStore(after)][..1] == [CleanStore(now)];
    assert [CleanStore(now)][..0] == [];
    assert After(p, [CleanStore(now)]) == Perform(p, CleanStore(now));
  }

  /** The actions of one turn of the processor, given the deque the insertion leaves: nothing if the queue is
      empty, else take, stamp and add, and clean and insert only if the pick was new. */
  ghost function TurnOf(p: Pipe, attempt: Attempt, after: seq<Entry>): seq<Action> {
    if p.queue == [] then []
    else
      var pick := p.queue[0];
      var fails := !Complete(pick) || attempt.fails;
      [TakePick, Stamp(attempt.stamp), AddToTable(fails)] +
      if fails || HasKey(p.table, pick) then []
      else [CleanStore(attempt.cleaning), InsertIntoStore(after)]
  }

  lemma TraceOfThree(p: Pipe, a: Action, b: Action, c: Action)
    requires Possible(p, a) && Possible(Perform(p, a), b) && Possible(Perform(Perform(p, a), b), c)
    ensures ValidTrace(p, [a, b, c]) && After(p, [a, b, c]) == Perform(Perform(Perform(p, a), b), c)
  {
    hide Perform, Possible;
    TraceOfTwo(p, a, b);
    assert [a, b, c][..2] == [a, b];
  }

  lemma TraceOfTwo(p: Pipe, a: Action, b: Action)
    requires Possible(p, a) && Possible(Perform(p, a), b)
    ensures ValidTrace(p, [a, b]) && After(p, [a, b]) == Perform(Perform(p, a), b)
  {
    hide Perform, Possible;
    assert [a][..0] == [];
    assert After(p, [a]) == Perform(p, a) && ValidTrace(p, [a]);
    assert [a, b][..1] == [a];
  }

  /** Enqueueing a persisted pick is the processor's last two actions. */
  lemma EnqueueIsTwoActions(p: Pipe, now: int, after: seq<Entry>, store: Store)
    requires WellFormed(p) && p.processor.Persisted?
    requires var events := [Clean(now - p.options.storeRetention), Insert(p.processor.entry, after)];
             ValidRun(p.store, events) && store == Run(p.store, events)
    ensures var q := After(p, [CleanStore(now), InsertIntoStore(after)]);
            && ValidTrace(p, [CleanStore(now), InsertIntoStore(after)])
            && q == p.(processor := Idle, store := store, clock := Max(p.clock, now),
                       inserted := p.inserted + [p.processor.entry])
            && WellFormed(q)
  {
    hide Cleaned, Sound, From;
    var clean, insert := Clean(now - p.options.storeRetention), Insert(p.processor.entry, after);
    assert [clean, insert][..1] == [clean] && [clean][..0] == [];
    assert Run(p.store, [clean]) == Apply(p.store, clean);
    WellFormedStep(p, CleanStore(now));
    WellFormedStep(Perform(p, CleanStore(now)), InsertIntoStore(after));
    TraceOfTwo(p, CleanStore(now), InsertIntoStore(after));
  }
}
