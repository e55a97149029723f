/** The broker as a transition system.  Each action is one critical section, or one reading of the clock, of the
    publisher callbacks, the pick processor, the database cleaner and the subscribers; they interleave freely.
    Clock readings come with the actions and need not be monotone. */
module Pipeline {
  import opened Wrappers
  import opened Picks
  import opened TimeOrder
  import opened NormalForm
  import opened Databases
  import opened StoreModel

  /** Where the processor is with the pick it has taken off the queue. */
  datatype Processor =
    | Idle
    | Taken(pick: Pick)
    | Stamped(entry: Entry)
    | Persisted(entry: Entry)
    | CleanedFor(entry: Entry)

  /** What has happened to the table, oldest first. */
  datatype Record = Added(entry: Entry) | Purged(cutoff: int)

  datatype Options = Options(
    queueCapacity: Positive, dbRetention: Positive, storeCapacity: Positive, storeRetention: Positive)

  datatype Pipe = Pipe(
    options: Options,
    queue: seq<Pick>,
    processor: Processor,
    table: seq<Entry>,
    store: Store,
    // The broker's counters, since it was started.
    received: nat, overflowed: nat, duplicates: nat,
    // History, since it was started: picks accepted, picks taken by the processor, database failures, entries
    // inserted into the store.
    accepted: seq<Pick>, taken: seq<Pick>, failures: nat, inserted: seq<Entry>,
    // History of the table and the latest clock reading, across restarts.
    log: seq<Record>, clock: int)

  datatype Action =
    | Accept(pick: Pick, now: int)
    | TakePick
    | Stamp(now: int)
    | AddToTable(fails: bool)
    | CleanStore(now: int)
    | InsertIntoStore(after: seq<Entry>)
    | Purge(now: int)
    | Client(ev: Event)
    | Restart(now: int, loaded: seq<Entry>)

  // ---- The input queue ------------------------------------------------------------------------------------

  /** Pops the oldest picks until there is room for one more. */
  function MadeRoom(queue: seq<Pick>, capacity: Positive): seq<Pick> {
    if |queue| < capacity then queue else MadeRoom(queue[1..], capacity)
  }

  lemma {:induction false} MadeRoomIsSuffix(queue: seq<Pick>, capacity: Positive)
    ensures |MadeRoom(queue, capacity)| == Min(|queue|, capacity - 1)
    ensures MadeRoom(queue, capacity) == queue[|queue| - |MadeRoom(queue, capacity)|..]
    decreases |queue|
  {
    if |queue| >= capacity {
      MadeRoomIsSuffix(queue[1..], capacity);
    }
  }

  /** What submitting a pick at a clock reading gives: its normal form, or the exception it raises. */
  function Submission(pick: Pick, now: int): Result<Pick, Error> {
    var fixed := Normalize(pick);
    if fixed.Failure? then fixed
    else if fixed.value.time.value > now then Failure(InvalidArgument("Pick cannot be from future"))
    else fixed
  }

  /** A submission is accepted exactly when its parts are complete and its pick is not in the future; it is then
      queued in its normal form, and a complete one from the future is refused as such. */
  lemma SubmissionExactly(pick: Pick, now: int)
    ensures Submission(pick, now).Success? <==>
            && Normalize(pick).Success?
            && pick.time.value <= now
    ensures Submission(pick, now).Success? ==> Submission(pick, now) == Normalize(pick)
    ensures Normalize(pick).Failure? ==> Submission(pick, now) == Normalize(pick)
    ensures Normalize(pick).Success? && pick.time.value > now ==>
              Submission(pick, now) == Failure(InvalidArgument("Pick cannot be from future"))
  {
    AcceptedExactly(pick);
  }

  // ---- Actions --------------------------------------------------------------------------------------------

  /** The entry that is in the table but has not reached the store. */
  function InFlight(p: Pipe): multiset<Entry> {
    if p.processor.Persisted? || p.processor.CleanedFor? then multiset{p.processor.entry} else multiset{}
  }

  function RebuiltStore(options: Options, loaded: seq<Entry>, now: int): Store {
    Store(Cleaned(loaded, options.storeCapacity, now - options.storeRetention), map[],
          options.storeCapacity, options.storeRetention)
  }

  /** A broker that has just been constructed over a table. */
  function Started(options: Options, table: seq<Entry>, loaded: seq<Entry>, now: int,
                   log: seq<Record>, clock: int): Pipe {
    Pipe(options, [], Idle, table, RebuiltStore(options, loaded, now), 0, 0, 0, [], [], 0, [], log, clock)
  }

  ghost predicate Possible(p: Pipe, a: Action) {
    match a
    case Accept(pick, now) => Submission(pick, now).Success?
    case TakePick => p.processor.Idle? && p.queue != []
    case Stamp(now) => p.processor.Taken? && InRange(Entry(now, p.processor.pick))
    case AddToTable(_) => p.processor.Stamped?
    case CleanStore(_) => p.processor.Persisted?
    case InsertIntoStore(after) => p.processor.CleanedFor? && Inserted(p.store.deque, p.processor.entry, after)
    case Purge(_) => true
    case Client(ev) => !ev.Clean? && !ev.Insert? && Enabled(p.store, ev)
    case Restart(_, loaded) => IsSorting(p.table, loaded)
  }

  function Perform(p: Pipe, a: Action): Pipe {
    match a
    case Accept(pick, now) =>
      var submission := Submission(pick, now);
      if submission.Failure? then p
      else
        var room := MadeRoom(p.queue, p.options.queueCapacity);
        p.(queue := room + [submission.value],
           overflowed := p.overflowed + if |p.queue| >= |room| then |p.queue| - |room| else 0,
           received := p.received + 1,
           accepted := p.accepted + [submission.value],
           clock := Max(p.clock, now))
    case TakePick =>
      if p.queue == [] then p
      else p.(queue := p.queue[1..], processor := Taken(p.queue[0]), taken := p.taken + [p.queue[0]])
    case Stamp(now) =>
      if !p.processor.Taken? then p
      else p.(processor := Stamped(Entry(now, p.processor.pick)), clock := Max(p.clock, now))
    case AddToTable(fails) =>
      if !p.processor.Stamped? then p
      else
        var e := p.processor.entry;
        if fails then p.(processor := Idle, failures := p.failures + 1)
        else if HasKey(p.table, e.pick) then p.(processor := Idle, duplicates := p.duplicates + 1)
        else p.(processor := Persisted(e), table := p.table + [e], log := p.log + [Added(e)])
    case CleanStore(now) =>
      if !p.processor.Persisted? then p
      else p.(processor := CleanedFor(p.processor.entry),
              store := Apply(p.store, Clean(now - p.options.storeRetention)), clock := Max(p.clock, now))
    case InsertIntoStore(after) =>
      if !p.processor.CleanedFor? then p
      else p.(processor := Idle, store := Apply(p.store, Insert(p.processor.entry, after)),
              inserted := p.inserted + [p.processor.entry])
    case Purge(now) =>
      var cutoff := now - p.options.dbRetention;
      p.(table := DeletedBefore(p.table, cutoff), log := p.log + [Purged(cutoff)], clock := Max(p.clock, now))
    case Client(ev) => p.(store := Apply(p.store, ev))
    case Restart(now, loaded) => Started(p.options, p.table, loaded, now, p.log, Max(p.clock, now))
  }

  /** The store event an action amounts to. */
  function StoreEvents(p: Pipe, a: Action): seq<Event> {
    match a
    case CleanStore(now) => [Clean(now - p.options.storeRetention)]
    case InsertIntoStore(after) => if p.processor.CleanedFor? then [Insert(p.processor.entry, after)] else []
    case Client(ev) => [ev]
    case _ => []
  }

  // ---- Runs -----------------------------------------------------------------------------------------------

  function Logged(rows: seq<Entry>): seq<Record> {
    seq(|rows|, i requires 0 <= i < |rows| => Added(rows[i]))
  }

  /** A broker first constructed over a table whose rows count as added in the order they are loaded. */
  ghost predicate Initial(p: Pipe, loaded: seq<Entry>, now: int) {
    && UniqueKeys(p.table)
    && (forall e :: e in p.table ==> InRange(e))
    && IsSorting(p.table, loaded)
    && p == Started(p.options, p.table, loaded, now, Logged(loaded), now)
  }

  function After(p: Pipe, actions: seq<Action>): Pipe {
    if actions == [] then p else Perform(After(p, actions[..|actions| - 1]), actions[|actions| - 1])
  }

  ghost predicate ValidTrace(p: Pipe, actions: seq<Action>) {
    actions != [] ==>
      && ValidTrace(p, actions[..|actions| - 1])
      && Possible(After(p, actions[..|actions| - 1]), actions[|actions| - 1])
  }

  /** Every state a broker can reach. */
  ghost predicate Reachable(p: Pipe) {
    exists q: Pipe, loaded, now, actions ::
      Initial(q, loaded, now) && ValidTrace(q, actions) && p == After(q, actions)
  }

  lemma {:induction false} AfterAppend(p: Pipe, a: seq<Action>, b: seq<Action>)
    ensures After(p, a + b) == After(After(p, a), b)
    ensures ValidTrace(p, a + b) <==> ValidTrace(p, a) && ValidTrace(After(p, a), b)
  {
    if b == [] {
      assert a + b == a;
    } else {
      assert (a + b)[..|a + b| - 1] == a + b[..|b| - 1];
      AfterAppend(p, a, b[..|b| - 1]);
    }
  }
}
