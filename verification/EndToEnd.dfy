/** One subscriber from end to end: the broker, its store, the subscriber's account and its writer, all
    interleaving.  Everything here is from the subscription to the end of the RPC. */
module EndToEnd {
  import opened Picks
  import opened TimeOrder
  import opened StoreModel
  import opened StoreProperties
  import opened Sessions
  import opened Guarantees
  import opened Pipeline
  import opened PipelineInvariants
  import opened PipelineTheorems
  import W = Writers

  /** `ledger` is history: it says what has become of the entries the subscription asked for. */
  datatype System = System(pipe: Pipe, ledger: Ledger, writer: W.Writer)

  datatype Happening =
    | Elsewhere(action: Action)
    | Turn(poll: W.Poll)
    | Completion(ok: bool, keepRunning: bool, cancelled: bool)
    | ClientCancels

  /** The subscription has just been made and its writer is about to poll for the first time. */
  ghost predicate Begins(sys: System, id: nat) {
    && Reachable(sys.pipe)
    && id in sys.pipe.store.cursors
    && sys.ledger == Open(sys.pipe.store, id)
    && sys.writer == W.FRESH
  }

  /** What the rest of the broker does: anything but a restart, and nothing in this subscriber's name. */
  predicate NotOurs(a: Action, id: nat) {
    !a.Restart? && (a.Client? ==> Continues(a.ev, id) && !(a.ev.Read? && a.ev.id == id))
  }

  ghost predicate CanHappen(sys: System, h: Happening, id: nat) {
    match h
    case Elsewhere(a) => Possible(sys.pipe, a) && NotOurs(a, id)
    case Turn(_) => sys.writer.phase.Polling?
    case Completion(_, _, _) => sys.writer.phase.AwaitingWrite?
    case ClientCancels => true
  }

  function Booked(l: Ledger, p: Pipe, a: Action, id: nat): Ledger {
    var evs := StoreEvents(p, a);
    if evs == [] then l else Account(l, p.store, evs[0], id)
  }

  const FETCH := W.MAXIMUM_QUEUE_SIZE

  function Happens(sys: System, h: Happening, id: nat): System {
    match h
    case Elsewhere(a) => System(Perform(sys.pipe, a), Booked(sys.ledger, sys.pipe, a, id), sys.writer)
    case Turn(poll) =>
      if W.Fetches(sys.writer, poll) then
        var read := Client(Read(id, FETCH));
        System(Perform(sys.pipe, read), Booked(sys.ledger, sys.pipe, read, id),
               W.Polls(sys.writer, poll, PicksOf(Chunk(sys.pipe.store, id, FETCH))))
      else sys.(writer := W.Polls(sys.writer, poll, []))
    case Completion(ok, keepRunning, cancelled) =>
      sys.(writer := W.Completes(sys.writer, ok, keepRunning, cancelled))
    case ClientCancels =>
      System(if sys.writer.registered then Perform(sys.pipe, Client(Unsubscribe(id))) else sys.pipe,
             sys.ledger, W.Move(sys.writer, W.CancelSeen))
  }

  function Later(sys: System, hs: seq<Happening>, id: nat): System {
    if hs == [] then sys else Happens(Later(sys, hs[..|hs| - 1], id), hs[|hs| - 1], id)
  }

  ghost predicate ValidHistory(sys: System, hs: seq<Happening>, id: nat) {
    hs != [] ==>
      && ValidHistory(sys, hs[..|hs| - 1], id)
      && CanHappen(Later(sys, hs[..|hs| - 1], id), hs[|hs| - 1], id)
  }

  // ---- What every happening keeps -------------------------------------------------------------------------

  /** What arrived for the subscription, and the pick in flight, were added to the table, copies counted. */
  ghost predicate ArrivedWereAdded(l: Ledger, p: Pipe) {
    multiset(l.arrived) + InFlight(p) <= multiset(AddedEntries(p.log))
  }

  /** Nothing was delivered that was not added to the table, nor more copies of it. */
  ghost predicate DeliveredWereAdded(l: Ledger, p: Pipe) {
    multiset(l.delivered) <= multiset(AddedEntries(p.log))
  }

  ghost predicate Kept(sys: System, id: nat) {
    && Invariant(sys.pipe)
    && Sorted(sys.ledger.delivered)
    && (id in sys.pipe.store.cursors ==> Sessions.Kept(sys.ledger, sys.pipe.store, id))
    && (id in sys.pipe.store.cursors ==> ArrivedWereAdded(sys.ledger, sys.pipe))
    && DeliveredWereAdded(sys.ledger, sys.pipe)
    && W.Orderly(sys.writer)
    && sys.writer.fetched == PicksOf(sys.ledger.delivered)
  }

  lemma BeginsKept(sys: System, id: nat)
    requires Begins(sys, id)
    ensures Kept(sys, id)
  {
    hide AddedEntries, From, CacheAgrees, RowsRemain, NoDoubleAdd, RowsLogged, BoundedFifo, Conserved, Sessions.Kept;
    ReachableInvariant(sys.pipe);
    OpenKept(sys.pipe.store, id);
    FewerFrom(sys.pipe.store.deque, sys.pipe.store.cursors[id]);
    assert multiset(sys.ledger.arrived) <= multiset(sys.pipe.store.deque);
    FreshOrderly();
  }

  lemma FreshOrderly()
    ensures W.Orderly(W.FRESH)
  {
  }

  lemma LogGrows(p: Pipe, a: Action)
    ensures multiset(AddedEntries(p.log)) <= multiset(AddedEntries(Perform(p, a).log))
  {
    hide Submission, MadeRoom, AddedEntries, From;
    var q := Perform(p, a);
    if q.log != p.log {
      var r := q.log[|p.log|];
      assert q.log == p.log + [r];
      AddedEntriesSnoc(p.log, r);
    }
  }

  lemma DeliveredStays(l: Ledger, p: Pipe, a: Action, id: nat)
    requires DeliveredWereAdded(l, p) && NotOurs(a, id)
    ensures Booked(l, p, a, id).delivered == l.delivered
    ensures DeliveredWereAdded(Booked(l, p, a, id), Perform(p, a))
  {
    LogGrows(p, a);
    hide Perform, AddedEntries, From, Below;
  }

  lemma AddArrived(l: Ledger, p: Pipe, fails: bool, id: nat)
    requires p.processor.Stamped? && ArrivedWereAdded(l, p)
    ensures ArrivedWereAdded(Booked(l, p, AddToTable(fails), id), Perform(p, AddToTable(fails)))
  {
    hide AddedEntries;
    MoreAdded(multiset(l.arrived), p.log, Added(p.processor.entry));
  }

  lemma PurgeArrived(l: Ledger, p: Pipe, now: int, id: nat)
    requires ArrivedWereAdded(l, p)
    ensures ArrivedWereAdded(Booked(l, p, Purge(now), id), Perform(p, Purge(now)))
  {
    hide AddedEntries, From;
    MoreAdded(multiset(l.arrived) + InFlight(p), p.log, Purged(now - p.options.dbRetention));
  }

  /** An insertion brings at most the pick in flight; a subscriber it wakes starts with part of the deque. */
  lemma InsertBrings(l: Ledger, s: Store, e: Entry, after: seq<Entry>, id: nat)
    requires after != []
    ensures var k := Account(l, s, Insert(e, after), id);
            || multiset(k.arrived) <= multiset(l.arrived) + multiset{e}
            || multiset(k.arrived) <= multiset(after)
  {
    hide From;
    FewerFrom(after, Last(after).time);
    assert multiset(l.arrived + [e]) == multiset(l.arrived) + multiset{e};
  }

  lemma InsertArrived(l: Ledger, p: Pipe, after: seq<Entry>, id: nat)
    requires WellFormed(p) && OnlyAdded(p) && ArrivedWereAdded(l, p) && Possible(p, InsertIntoStore(after))
    ensures ArrivedWereAdded(Booked(l, p, InsertIntoStore(after), id), Perform(p, InsertIntoStore(after)))
  {
    hide AddedEntries, From, Account, WellFormed, Perform, Possible, InFlight, Booked;
    InsertFacts(l, p, after, id);
    InsertMoves(p, after);
    InsertBrings(l, p.store, p.processor.entry, after, id);
  }

  lemma InsertFacts(l: Ledger, p: Pipe, after: seq<Entry>, id: nat)
    requires WellFormed(p) && Possible(p, InsertIntoStore(after))
    ensures p.processor.CleanedFor?
    ensures var e, q := p.processor.entry, Perform(p, InsertIntoStore(after));
            && after != [] && q.store.deque == after
            && InFlight(q) == multiset{} && InFlight(p) == multiset{e}
            && Booked(l, p, InsertIntoStore(after), id) == Account(l, p.store, Insert(e, after), id)
  {
    InsertedIsSorting(p.store.deque, p.processor.entry, after);
    hide Inserted, Account, Woken, Sorted;
  }

  predicate Quiet(a: Action) {
    Bystander(a) || a.CleanStore?
  }

  lemma QuietArrived(l: Ledger, p: Pipe, a: Action, id: nat)
    requires WellFormed(p) && Possible(p, a) && NotOurs(a, id) && Quiet(a)
    ensures Booked(l, p, a, id).arrived == l.arrived
    ensures InFlight(Perform(p, a)) == InFlight(p) && Perform(p, a).log == p.log
  {
    if Bystander(a) {
      BystanderStep(p, a);
      hide Perform, InFlight, Possible, WellFormed, From, Below;
    } else {
      hide Cleaned, From, Below, Sound;
    }
  }

  lemma ArrivedStays(l: Ledger, p: Pipe, a: Action, id: nat)
    requires WellFormed(p) && OnlyAdded(p) && ArrivedWereAdded(l, p) && Possible(p, a) && NotOurs(a, id)
    ensures ArrivedWereAdded(Booked(l, p, a, id), Perform(p, a))
  {
    if Quiet(a) {
      QuietArrived(l, p, a, id);
      hide Perform, Booked, AddedEntries, WellFormed, OnlyAdded, Possible;
    } else {
      hide Perform, Booked, AddedEntries, WellFormed, OnlyAdded, Possible, ArrivedWereAdded;
      match a {
        case AddToTable(fails) =>
          StampedToAdd(p, fails);
          AddArrived(l, p, fails, id);
        case Purge(now) => PurgeArrived(l, p, now, id);
        case InsertIntoStore(after) => InsertArrived(l, p, after, id);
      }
    }
  }

  lemma StampedToAdd(p: Pipe, fails: bool)
    requires Possible(p, AddToTable(fails))
    ensures p.processor.Stamped?
  {
  }

  /** An action of the broker amounts to at most one event of the store. */
  lemma StoreFollows(p: Pipe, a: Action, id: nat)
    requires Possible(p, a) && NotOurs(a, id) && WellFormed(p)
    ensures var evs := StoreEvents(p, a);
            && |evs| <= 1
            && Perform(p, a).store == (if evs == [] then p.store else Apply(p.store, evs[0]))
            && (evs != [] ==> Enabled(p.store, evs[0]) && Continues(evs[0], id))
  {
    hide Submission, MadeRoom, Sound, From, Cleaned;
  }

  lemma ElsewhereBooks(l: Ledger, p: Pipe, a: Action, id: nat)
    requires WellFormed(p) && Possible(p, a) && NotOurs(a, id)
    requires id in p.store.cursors ==> Sessions.Kept(l, p.store, id)
    ensures id in Perform(p, a).store.cursors ==> id in p.store.cursors
    ensures id in p.store.cursors ==> Sessions.Kept(Booked(l, p, a, id), Perform(p, a).store, id)
  {
    StoreFollows(p, a, id);
    var evs := StoreEvents(p, a);
    hide Perform, StoreEvents, Sessions.Kept;
    if evs != [] {
      StaysOut(p.store, evs[0], id);
      if id in p.store.cursors {
        AccountKept(l, p.store, evs[0], id);
      }
    }
  }

  lemma StaysOut(s: Store, ev: Event, id: nat)
    requires Continues(ev, id)
    ensures id in Apply(s, ev).cursors ==> id in s.cursors
  {
  }

  lemma ElsewhereKept(sys: System, a: Action, id: nat)
    requires Kept(sys, id) && CanHappen(sys, Elsewhere(a), id)
    ensures Kept(Happens(sys, Elsewhere(a), id), id)
  {
    var l, p := sys.ledger, sys.pipe;
    InvariantStep(p, a);
    DeliveredStays(l, p, a, id);
    ElsewhereBooks(l, p, a, id);
    if id in p.store.cursors {
      ArrivedStays(l, p, a, id);
    }
    hide Invariant, Sessions.Kept, ArrivedWereAdded, DeliveredWereAdded, Perform, Booked, W.Orderly, Sorted;
  }

  // ---- The subscriber's own steps -------------------------------------------------------------------------

  lemma FetchBooks(sys: System, id: nat)
    requires Kept(sys, id)
    ensures var read, p := Client(Read(id, FETCH)), sys.pipe;
            var l := Booked(sys.ledger, p, read, id);
            && Invariant(Perform(p, read))
            && l.delivered == sys.ledger.delivered + Chunk(p.store, id, FETCH)
            && l.arrived == sys.ledger.arrived
            && (id in p.store.cursors <==> id in Perform(p, read).store.cursors)
            && (id in p.store.cursors ==> Sessions.Kept(l, Perform(p, read).store, id))
  {
    var p, l := sys.pipe, sys.ledger;
    hide Invariant, AddedEntries, From, W.Orderly, Sessions.Kept, Perform, ArrivedWereAdded, DeliveredWereAdded;
    InvariantStep(p, Client(Read(id, FETCH)));
    ClientStep(p, Read(id, FETCH));
    FetchAccounts(l, p.store, id);
    if id in p.store.cursors {
      InvariantSound(p);
      AccountKept(l, p.store, Read(id, FETCH), id);
    }
  }

  lemma FetchAccounts(l: Ledger, s: Store, id: nat)
    ensures var k := Account(l, s, Read(id, FETCH), id);
            k.delivered == l.delivered + Chunk(s, id, FETCH) && k.arrived == l.arrived
    ensures id in s.cursors <==> id in Apply(s, Read(id, FETCH)).cursors
  {
    hide From, Tied;
    if id !in s.cursors {
      assert l.delivered + [] == l.delivered;
    }
  }

  lemma InvariantSound(p: Pipe)
    requires Invariant(p)
    ensures Sound(p.store)
  {
  }

  lemma WithinAdded(l: Ledger, p: Pipe)
    requires ArrivedWereAdded(l, p) && multiset(l.delivered) <= multiset(l.arrived)
    ensures DeliveredWereAdded(l, p)
  {
    hide AddedEntries;
  }

  lemma ClientKeepsRows(p: Pipe, ev: Event)
    ensures Perform(p, Client(ev)).log == p.log && InFlight(Perform(p, Client(ev))) == InFlight(p)
  {
  }

  lemma FetchDelivered(sys: System, id: nat)
    requires Kept(sys, id)
    ensures var read, p := Client(Read(id, FETCH)), sys.pipe;
            var l := Booked(sys.ledger, p, read, id);
            && Sorted(l.delivered) && DeliveredWereAdded(l, Perform(p, read))
            && (id in p.store.cursors ==> ArrivedWereAdded(l, Perform(p, read)))
  {
    hide AddedEntries, Perform, Booked, From, Invariant, W.Orderly;
    FetchBooks(sys, id);
    var read, p := Client(Read(id, FETCH)), sys.pipe;
    var l, q := Booked(sys.ledger, p, read, id), Perform(p, read);
    ClientKeepsRows(p, Read(id, FETCH));
    if id in p.store.cursors {
      DeliveredWithinArrived(l, q.store, id);
      WithinAdded(l, q);
    } else {
      assert sys.ledger.delivered + [] == sys.ledger.delivered;
    }
  }

  lemma FetchTurn(w: W.Writer, poll: W.Poll, d: seq<Entry>, chunk: seq<Entry>)
    requires W.Orderly(w) && W.Fetches(w, poll) && w.fetched == PicksOf(d) && |chunk| <= FETCH
    ensures var v := W.Polls(w, poll, PicksOf(chunk)); W.Orderly(v) && v.fetched == PicksOf(d + chunk)
  {
    W.MoveOrderly(w, W.Polled(poll, PicksOf(chunk)));
    PicksOfAppend(d, chunk);
  }

  lemma OtherTurn(w: W.Writer, poll: W.Poll)
    requires W.Orderly(w) && w.phase.Polling? && !W.Fetches(w, poll)
    ensures var v := W.Polls(w, poll, []); W.Orderly(v) && v.fetched == w.fetched
  {
    W.MoveOrderly(w, W.Polled(poll, []));
  }

  lemma TurnKept(sys: System, poll: W.Poll, id: nat)
    requires Kept(sys, id) && CanHappen(sys, Turn(poll), id)
    ensures Kept(Happens(sys, Turn(poll), id), id)
  {
    hide Invariant, Sessions.Kept, ArrivedWereAdded, DeliveredWereAdded, Perform, Booked, W.Orderly, Sorted, Chunk,
         W.Polls;
    if W.Fetches(sys.writer, poll) {
      FetchBooks(sys, id);
      FetchDelivered(sys, id);
      ChunkSize(sys.pipe.store, id, FETCH);
      FetchTurn(sys.writer, poll, sys.ledger.delivered, Chunk(sys.pipe.store, id, FETCH));
    } else {
      OtherTurn(sys.writer, poll);
    }
  }

  lemma ChunkSize(s: Store, id: nat, max: nat)
    ensures |Chunk(s, id, max)| <= max
  {
  }

  lemma CancelKept(sys: System, id: nat)
    requires Kept(sys, id)
    ensures Kept(Happens(sys, ClientCancels, id), id)
  {
    hide Invariant, Sessions.Kept, Perform, W.Orderly, Sorted, AddedEntries, ArrivedWereAdded;
    W.MoveOrderly(sys.writer, W.CancelSeen);
    if sys.writer.registered {
      var a := Client(Unsubscribe(id));
      UnsubscribePossible(sys.pipe, id);
      InvariantStep(sys.pipe, a);
      LogGrows(sys.pipe, a);
    }
  }

  lemma UnsubscribePossible(p: Pipe, id: nat)
    ensures Possible(p, Client(Unsubscribe(id))) && id !in Perform(p, Client(Unsubscribe(id))).store.cursors
  {
  }

  lemma HappensKept(sys: System, h: Happening, id: nat)
    requires Kept(sys, id) && CanHappen(sys, h, id)
    ensures Kept(Happens(sys, h, id), id)
  {
    match h {
      case Elsewhere(a) => ElsewhereKept(sys, a, id);
      case Turn(poll) => TurnKept(sys, poll, id);
      case Completion(ok, keepRunning, cancelled) =>
        W.MoveOrderly(sys.writer, W.WriteDone(ok, keepRunning, cancelled));
      case ClientCancels => CancelKept(sys, id);
    }
  }

  lemma {:induction false} LaterKept(sys: System, hs: seq<Happening>, id: nat)
    requires Kept(sys, id) && ValidHistory(sys, hs, id)
    ensures Kept(Later(sys, hs, id), id)
  {
    if hs == [] {
    } else {
      LaterKept(sys, hs[..|hs| - 1], id);
      HappensKept(Later(sys, hs[..|hs| - 1], id), hs[|hs| - 1], id);
    }
  }

  // ---- After the client has cancelled ---------------------------------------------------------------------

  /** A writer that is no longer registered has no cursor. */
  ghost predicate Gone(sys: System, id: nat) {
    !sys.writer.registered && id !in sys.pipe.store.cursors
  }

  lemma CancelGone(sys: System, id: nat)
    requires sys.writer.registered || Gone(sys, id)
    ensures Gone(Happens(sys, ClientCancels, id), id)
  {
    hide AddedEntries, From;
  }

  lemma GoneStep(sys: System, h: Happening, id: nat)
    requires CanHappen(sys, h, id) && Gone(sys, id) && WellFormed(sys.pipe)
    ensures Gone(Happens(sys, h, id), id)
    ensures Happens(sys, h, id).writer.fetched == sys.writer.fetched
  {
    match h {
      case Elsewhere(a) =>
        StoreFollows(sys.pipe, a, id);
        hide Perform, Booked, WellFormed, StoreEvents;
        var evs := StoreEvents(sys.pipe, a);
        if evs != [] {
          StaysOut(sys.pipe.store, evs[0], id);
        }
      case Turn(poll) =>
        StaysOutClient(sys.pipe, Read(id, FETCH), id);
        hide Perform, Booked, WellFormed;
        assert PicksOf(Chunk(sys.pipe.store, id, FETCH)) == [];
      case Completion(_, _, _) => hide Perform, Booked, WellFormed;
      case ClientCancels => CancelGone(sys, id);
    }
  }

  lemma RegisteredOrGone(sys: System, h: Happening, id: nat)
    requires CanHappen(sys, h, id) && sys.writer.registered
    ensures h.ClientCancels? || Happens(sys, h, id).writer.registered
  {
    hide Perform, Booked;
  }

  lemma {:induction false} RegisteredUntilCancelled(sys: System, hs: seq<Happening>, id: nat)
    requires Begins(sys, id) && ValidHistory(sys, hs, id)
    ensures Later(sys, hs, id).writer.registered || Gone(Later(sys, hs, id), id)
  {
    if hs == [] {
    } else {
      hide Happens, CanHappen, Gone, Kept, Begins, Invariant;
      var init, h := hs[..|hs| - 1], hs[|hs| - 1];
      RegisteredUntilCancelled(sys, init, id);
      BeginsKept(sys, id);
      LaterKept(sys, init, id);
      KeptWellFormed(Later(sys, init, id), id);
      if Gone(Later(sys, init, id), id) {
        GoneStep(Later(sys, init, id), h, id);
      } else {
        RegisteredOrGone(Later(sys, init, id), h, id);
        if h.ClientCancels? {
          CancelGone(Later(sys, init, id), id);
        }
      }
    }
  }

  lemma KeptWellFormed(sys: System, id: nat)
    requires Kept(sys, id)
    ensures WellFormed(sys.pipe)
  {
    hide Sessions.Kept, W.Orderly;
  }

  /** Once the client has cancelled, nothing more is fetched for it, whatever happens next. */
  lemma {:induction false} CancelledFetchesNothing(sys: System, hs: seq<Happening>, more: seq<Happening>, id: nat)
    requires Begins(sys, id) && ValidHistory(sys, hs + [ClientCancels] + more, id)
    ensures var end := Later(sys, hs + [ClientCancels] + more, id);
            Gone(end, id) && end.writer.fetched == Later(sys, hs, id).writer.fetched
    decreases more
  {
    var before := hs + [ClientCancels];
    if more == [] {
      assert before + more == before;
      hide Happens, CanHappen, Gone, Begins;
      HistorySnoc(sys, hs, ClientCancels, id);
      RegisteredUntilCancelled(sys, hs, id);
      CancelGone(Later(sys, hs, id), id);
      CancelFetches(Later(sys, hs, id), id);
    } else {
      var init, h := more[..|more| - 1], more[|more| - 1];
      assert before + more == (before + init) + [h];
      hide Happens, CanHappen, Gone, Kept, Begins, Later, ValidHistory;
      HistorySnoc(sys, before + init, h, id);
      CancelledFetchesNothing(sys, hs, init, id);
      BeginsKept(sys, id);
      LaterKept(sys, before + init, id);
      KeptWellFormed(Later(sys, before + init, id), id);
      GoneStep(Later(sys, before + init, id), h, id);
    }
  }

  lemma CancelFetches(sys: System, id: nat)
    ensures Happens(sys, ClientCancels, id).writer.fetched == sys.writer.fetched
  {
    hide Perform;
  }

  // ---- No duplicate is sent -------------------------------------------------------------------------------

  /** The picks sent so far, in order. */
  function Sent(sys: System): seq<Pick> {
    W.StartedPicks(sys.writer.calls)
  }

  /** What has been sent, then what the writer holds, is what the store delivered. */
  lemma SentFromDelivered(sys: System, id: nat)
    requires Kept(sys, id)
    ensures Sent(sys) + W.Unstarted(sys.writer) == PicksOf(sys.ledger.delivered)
    ensures |Sent(sys)| <= |sys.ledger.delivered|
    ensures forall i :: 0 <= i < |Sent(sys)| ==> Sent(sys)[i] == sys.ledger.delivered[i].pick
  {
    var all := PicksOf(sys.ledger.delivered);
    assert Sent(sys) + W.Unstarted(sys.writer) == all;
    forall i | 0 <= i < |Sent(sys)| ensures Sent(sys)[i] == sys.ledger.delivered[i].pick {
      assert all[i] == (Sent(sys) + W.Unstarted(sys.writer))[i];
    }
  }

  lemma {:induction false} AddedAt(log: seq<Record>, k: nat) returns (i: nat)
    requires k < |AddedEntries(log)|
    ensures i < |log| && log[i] == Added(AddedEntries(log)[k])
    ensures |AddedEntries(log[..i])| == k
    decreases |log|
  {
    var init := log[..|log| - 1];
    if k < |AddedEntries(init)| {
      i := AddedAt(init, k);
      assert init[..i] == log[..i];
    } else {
      i := |init|;
    }
  }

  lemma TwoPlaces(d: seq<Entry>, all: seq<Entry>, p: nat, q: nat) returns (i: nat, j: nat)
    requires p < q < |d| && multiset(d) <= multiset(all)
    ensures i < |all| && j < |all| && i != j && all[i] == d[p] && all[j] == d[q]
  {
    assert d[p] in multiset(all) && d[q] in multiset(all);
    i :| 0 <= i < |all| && all[i] == d[p];
    if d[p] != d[q] {
      j :| 0 <= j < |all| && all[j] == d[q];
    } else {
      TwoCopies(d, p, q);
      SplitEntries(all, i);
      assert all[i..] == [all[i]] + all[i + 1..];
      if d[q] in all[..i] {
        j :| 0 <= j < i && all[..i][j] == d[q];
      } else {
        assert d[q] in multiset(all[i + 1..]);
        var k :| 0 <= k < |all[i + 1..]| && all[i + 1..][k] == d[q];
        j := i + 1 + k;
      }
    }
  }

  /** End to end, in every interleaving: if one subscription is sent the same pick twice, the table added it
      twice, as the two deliveries say, and a purge whose cutoff lies above the first copy's received time ran in
      between. */
  lemma SentTwiceOnlyAfterPurge(sys: System, hs: seq<Happening>, id: nat, p: nat, q: nat) returns (i: nat, j: nat)
    requires Begins(sys, id) && ValidHistory(sys, hs, id)
    requires p < q < |Sent(Later(sys, hs, id))| && Sent(Later(sys, hs, id))[p] == Sent(Later(sys, hs, id))[q]
    ensures var end := Later(sys, hs, id);
            var log := end.pipe.log;
            && q < |end.ledger.delivered|
            && i < j < |log| && log[i].Added? && log[j].Added?
            && log[i].entry.pick == log[j].entry.pick == Sent(end)[p]
            && multiset{log[i].entry, log[j].entry} ==
               multiset{end.ledger.delivered[p], end.ledger.delivered[q]}
            && PurgedBetween(log, i, j, log[i].entry.time)
  {
    hide Sessions.Kept, ArrivedWereAdded, W.Orderly, Happens, Begins, ValidHistory, Later, AddedEntries;
    BeginsKept(sys, id);
    LaterKept(sys, hs, id);
    var end := Later(sys, hs, id);
    SentFromDelivered(end, id);
    var d, log := end.ledger.delivered, end.pipe.log;
    var m, n := TwoPlaces(d, AddedEntries(log), p, q);
    var a := AddedAt(log, m);
    var b := AddedAt(log, n);
    assert a != b;
    i, j := if a < b then a else b, if a < b then b else a;
  }

  /** With the table's history in clock order the two copies were received more than the retention interval
      apart. */
  lemma SentTwiceFarApart(sys: System, hs: seq<Happening>, id: nat, p: nat, q: nat)
    requires Begins(sys, id) && ValidHistory(sys, hs, id) && Chronological(Later(sys, hs, id).pipe)
    requires p < q < |Sent(Later(sys, hs, id))| && Sent(Later(sys, hs, id))[p] == Sent(Later(sys, hs, id))[q]
    ensures var end := Later(sys, hs, id);
            && q < |end.ledger.delivered|
            && end.ledger.delivered[q].time - end.ledger.delivered[p].time > end.pipe.options.dbRetention
  {
    var i, j := SentTwiceOnlyAfterPurge(sys, hs, id, p, q);
    BeginsKept(sys, id);
    LaterKept(sys, hs, id);
    var end := Later(sys, hs, id);
    var log, d := end.pipe.log, end.ledger.delivered;
    var k :| i < k < j && 0 <= k < |log| && log[k].Purged? && log[k].cutoff > log[i].entry.time;
    assert log[k].cutoff + end.pipe.options.dbRetention <= log[j].entry.time;
    assert d[p].time <= d[q].time;
    PairOrder(log[i].entry, log[j].entry, d[p], d[q]);
  }

  lemma PairOrder(a: Entry, b: Entry, c: Entry, d: Entry)
    requires multiset{a, b} == multiset{c, d} && a.time < b.time && c.time <= d.time
    ensures a == c && b == d
  {
    assert a in multiset{c, d} && b in multiset{c, d} && c in multiset{a, b} && d in multiset{a, b};
  }

  // ---- The subscriber's view of the broker's run -----------------------------------------------------------

  /** What a happening does to the broker: at most one action. */
  function ActionsOf(sys: System, h: Happening, id: nat): seq<Action> {
    match h
    case Elsewhere(a) => [a]
    case Turn(poll) => if W.Fetches(sys.writer, poll) then [Client(Read(id, FETCH))] else []
    case Completion(_, _, _) => []
    case ClientCancels => if sys.writer.registered then [Client(Unsubscribe(id))] else []
  }

  function Actions(sys: System, hs: seq<Happening>, id: nat): seq<Action> {
    if hs == [] then []
    else Actions(sys, hs[..|hs| - 1], id) + ActionsOf(Later(sys, hs[..|hs| - 1], id), hs[|hs| - 1], id)
  }

  lemma ActionFollows(sys: System, h: Happening, id: nat)
    requires CanHappen(sys, h, id)
    ensures var actions := ActionsOf(sys, h, id);
            && |actions| <= 1
            && Happens(sys, h, id).pipe == (if actions == [] then sys.pipe else Perform(sys.pipe, actions[0]))
            && (actions != [] ==> Possible(sys.pipe, actions[0]) && !actions[0].Restart?)
  {
    hide Perform, From;
  }

  /** The broker, seen from this subscriber's history, is simply running. */
  lemma {:induction false} BrokerRuns(sys: System, hs: seq<Happening>, id: nat)
    requires ValidHistory(sys, hs, id)
    ensures ValidTrace(sys.pipe, Actions(sys, hs, id)) && NoRestart(Actions(sys, hs, id))
    ensures Later(sys, hs, id).pipe == After(sys.pipe, Actions(sys, hs, id))
  {
    if hs == [] {
    } else {
      hide Later, ValidHistory, Actions, After, ValidTrace, CanHappen, NoRestart;
      var init, h := hs[..|hs| - 1], hs[|hs| - 1];
      assert hs == init + [h];
      HistorySnoc(sys, init, h, id);
      BrokerRuns(sys, init, id);
      BrokerStep(sys, init, h, id);
    }
  }

  lemma BrokerStep(sys: System, init: seq<Happening>, h: Happening, id: nat)
    requires CanHappen(Later(sys, init, id), h, id)
    requires ValidTrace(sys.pipe, Actions(sys, init, id)) && NoRestart(Actions(sys, init, id))
    requires Later(sys, init, id).pipe == After(sys.pipe, Actions(sys, init, id))
    ensures var actions := Actions(sys, init + [h], id);
            && ValidTrace(sys.pipe, actions) && NoRestart(actions)
            && Happens(Later(sys, init, id), h, id).pipe == After(sys.pipe, actions)
  {
    hide Later, Actions, After, ValidTrace, Happens, CanHappen, Perform, Possible, ActionsOf, NoRestart;
    ActionsSnoc(sys, init, h, id);
    ActionFollows(Later(sys, init, id), h, id);
    TraceGrows(sys.pipe, Actions(sys, init, id), ActionsOf(Later(sys, init, id), h, id));
  }

  /** The two copies far apart once more, from hypotheses on the clock alone: received times never run behind
      an earlier reading, and no purge comes between the stamping of a pick and its insertion. */
  lemma SentTwiceFarApartByClock(sys: System, hs: seq<Happening>, id: nat, p: nat, q: nat)
    requires Begins(sys, id) && ValidHistory(sys, hs, id) && InClockOrder(sys.pipe)
    requires StampsForward(sys.pipe, Actions(sys, hs, id)) && PromptlyAdded(sys.pipe, Actions(sys, hs, id))
    requires p < q < |Sent(Later(sys, hs, id))| && Sent(Later(sys, hs, id))[p] == Sent(Later(sys, hs, id))[q]
    ensures var end := Later(sys, hs, id);
            && q < |end.ledger.delivered|
            && end.ledger.delivered[q].time - end.ledger.delivered[p].time > end.pipe.options.dbRetention
  {
    hide Later, ValidHistory, StampsForward, PromptlyAdded, Actions, Sent;
    ReachableInvariant(sys.pipe);
    BrokerRuns(sys, hs, id);
    ForwardIsChronological(sys.pipe, Actions(sys, hs, id));
    SentTwiceFarApart(sys, hs, id, p, q);
  }

  /** The events of the store during the subscription. */
  function Events(sys: System, hs: seq<Happening>, id: nat): seq<Event> {
    StoreTrace(sys.pipe, Actions(sys, hs, id))
  }

  function EventsOf(sys: System, h: Happening, id: nat): seq<Event> {
    var actions := ActionsOf(sys, h, id);
    if actions == [] then [] else StoreEvents(sys.pipe, actions[0])
  }

  /** One happening, as the store and the account see it. */
  ghost predicate Follows(l: Ledger, s: Store, evs: seq<Event>, id: nat, k: Ledger, t: Store) {
    && |evs| <= 1
    && (evs == [] ==> k == l && t == s)
    && (evs != [] ==>
        Enabled(s, evs[0]) && Continues(evs[0], id) && k == Account(l, s, evs[0], id) && t == Apply(s, evs[0]))
  }

  lemma TurnFollows(sys: System, poll: W.Poll, id: nat)
    ensures var next := Happens(sys, Turn(poll), id);
            Follows(sys.ledger, sys.pipe.store, EventsOf(sys, Turn(poll), id), id, next.ledger, next.pipe.store)
  {
    ClientStep(sys.pipe, Read(id, FETCH));
    hide Account, Apply, Perform, Chunk, From, W.Polls;
  }

  lemma EventFollows(sys: System, h: Happening, id: nat)
    requires Invariant(sys.pipe) && CanHappen(sys, h, id) && id in Happens(sys, h, id).pipe.store.cursors
    ensures var next := Happens(sys, h, id);
            Follows(sys.ledger, sys.pipe.store, EventsOf(sys, h, id), id, next.ledger, next.pipe.store)
  {
    match h {
      case Elsewhere(a) =>
        InvariantWellFormed(sys.pipe);
        StoreFollows(sys.pipe, a, id);
        hide Perform, Possible, Account, Apply, Invariant, WellFormed, StoreEvents;
      case Turn(poll) => TurnFollows(sys, poll, id);
      case Completion(_, _, _) => hide Account, Apply, Perform, From, W.Completes, Invariant;
      case ClientCancels =>
        ClientStep(sys.pipe, Unsubscribe(id));
        hide Account, Perform, From, Invariant, W.Move;
    }
  }

  lemma ClientStep(p: Pipe, ev: Event)
    ensures Perform(p, Client(ev)).store == Apply(p.store, ev)
  {
  }

  lemma {:induction false} StaysSubscribed(sys: System, hs: seq<Happening>, id: nat, k: nat)
    requires Kept(sys, id) && ValidHistory(sys, hs, id) && k <= |hs|
    requires id in Later(sys, hs, id).pipe.store.cursors
    ensures id in Later(sys, hs[..k], id).pipe.store.cursors
    decreases |hs|
  {
    hide Kept, Happens, CanHappen;
    if k == |hs| {
      assert hs[..k] == hs;
    } else {
      var init, h := hs[..|hs| - 1], hs[|hs| - 1];
      LaterKept(sys, init, id);
      SubscribedBefore(Later(sys, init, id), h, id);
      StaysSubscribed(sys, init, id, k);
      assert init[..k] == hs[..k];
    }
  }

  lemma SubscribedBefore(sys: System, h: Happening, id: nat)
    requires Kept(sys, id) && CanHappen(sys, h, id) && id in Happens(sys, h, id).pipe.store.cursors
    ensures id in sys.pipe.store.cursors
  {
    hide Perform, Sessions.Kept, From, W.Orderly, W.Polls, W.Move, W.Completes, Booked, AddedEntries;
    match h {
      case Elsewhere(a) => ElsewhereBooks(sys.ledger, sys.pipe, a, id);
      case Turn(_) => StaysOutClient(sys.pipe, Read(id, FETCH), id);
      case Completion(_, _, _) =>
      case ClientCancels => StaysOutClient(sys.pipe, Unsubscribe(id), id);
    }
  }

  lemma StaysOutClient(p: Pipe, ev: Event, id: nat)
    requires !ev.Subscribe?
    ensures id in Perform(p, Client(ev)).store.cursors ==> id in p.store.cursors
  {
  }

  /** While the subscription lasts, its account is the one the store's run alone determines. */
  lemma {:induction false} LedgerIsFates(sys: System, hs: seq<Happening>, id: nat)
    requires Begins(sys, id) && ValidHistory(sys, hs, id) && id in Later(sys, hs, id).pipe.store.cursors
    ensures Subscribed(sys.pipe.store, id, Events(sys, hs, id))
    ensures Later(sys, hs, id).pipe.store == Run(sys.pipe.store, Events(sys, hs, id))
    ensures Later(sys, hs, id).ledger == Fates(sys.pipe.store, id, Events(sys, hs, id))
    decreases |hs|
  {
    hide *;
    if hs == [] {
      LedgerAtFirst(sys, id);
    } else {
      var init, h := hs[..|hs| - 1], hs[|hs| - 1];
      assert hs == init + [h];
      LastStep(sys, init, h, id);
      LedgerIsFates(sys, init, id);
      LedgerStep(sys, init, h, id);
    }
  }

  lemma LastStep(sys: System, init: seq<Happening>, h: Happening, id: nat)
    requires Begins(sys, id) && ValidHistory(sys, init + [h], id)
    requires id in Later(sys, init + [h], id).pipe.store.cursors
    ensures Kept(sys, id) && ValidHistory(sys, init, id) && CanHappen(Later(sys, init, id), h, id)
    ensures id in Later(sys, init, id).pipe.store.cursors
    ensures Later(sys, init + [h], id) == Happens(Later(sys, init, id), h, id)
  {
    hide Later, ValidHistory, Happens, CanHappen, Kept, Begins;
    HistorySnoc(sys, init, h, id);
    BeginsKept(sys, id);
    StaysSubscribed(sys, init + [h], id, |init|);
    assert (init + [h])[..|init|] == init;
  }

  lemma LedgerAtFirst(sys: System, id: nat)
    requires Begins(sys, id)
    ensures Later(sys, [], id) == sys
    ensures Subscribed(sys.pipe.store, id, Events(sys, [], id))
    ensures sys.pipe.store == Run(sys.pipe.store, Events(sys, [], id))
    ensures sys.ledger == Fates(sys.pipe.store, id, Events(sys, [], id))
  {
    BeginsSound(sys, id);
    assert Events(sys, [], id) == [];
    hide Reachable, Sound, From;
  }

  lemma HistorySnoc(sys: System, hs: seq<Happening>, h: Happening, id: nat)
    ensures Later(sys, hs + [h], id) == Happens(Later(sys, hs, id), h, id)
    ensures ValidHistory(sys, hs + [h], id) <==> ValidHistory(sys, hs, id) && CanHappen(Later(sys, hs, id), h, id)
  {
    hide Happens, CanHappen;
    assert (hs + [h])[..|hs|] == hs;
  }

  lemma LedgerStep(sys: System, hs: seq<Happening>, h: Happening, id: nat)
    requires Kept(sys, id) && ValidHistory(sys, hs, id) && CanHappen(Later(sys, hs, id), h, id)
    requires id in Happens(Later(sys, hs, id), h, id).pipe.store.cursors
    requires Subscribed(sys.pipe.store, id, Events(sys, hs, id))
    requires Later(sys, hs, id).pipe.store == Run(sys.pipe.store, Events(sys, hs, id))
    requires Later(sys, hs, id).ledger == Fates(sys.pipe.store, id, Events(sys, hs, id))
    ensures var next := Happens(Later(sys, hs, id), h, id);
            && Subscribed(sys.pipe.store, id, Events(sys, hs + [h], id))
            && next.pipe.store == Run(sys.pipe.store, Events(sys, hs + [h], id))
            && next.ledger == Fates(sys.pipe.store, id, Events(sys, hs + [h], id))
  {
    LaterKept(sys, hs, id);
    BrokerRuns(sys, hs, id);
    EventsSnoc(sys, hs, h, id);
    var mid := Later(sys, hs, id);
    hide Later, ValidHistory, Happens, CanHappen, Events, EventsOf, Run, Fates, Follows, Sessions.Kept, W.Orderly,
         Invariant, Subscribed;
    EventFollows(mid, h, id);
    ExtendFates(sys.pipe.store, id, Events(sys, hs, id), EventsOf(mid, h, id),
                Happens(mid, h, id).ledger, Happens(mid, h, id).pipe.store);
  }

  lemma ExtendFates(s: Store, id: nat, evs: seq<Event>, more: seq<Event>, k: Ledger, t: Store)
    requires Subscribed(s, id, evs)
    requires Follows(Fates(s, id, evs), Run(s, evs), more, id, k, t)
    ensures Subscribed(s, id, evs + more) && t == Run(s, evs + more) && k == Fates(s, id, evs + more)
  {
    hide Account, Apply, Enabled, Run, Fates, ValidRun, Session, Sound, Continues;
    if more == [] {
      assert evs + more == evs;
    } else {
      assert more == [more[0]];
      SubscribedSnoc(s, id, evs, more[0]);
    }
  }

  lemma BeginsSound(sys: System, id: nat)
    requires Begins(sys, id)
    ensures Sound(sys.pipe.store)
  {
    ReachableInvariant(sys.pipe);
  }

  lemma EventsSnoc(sys: System, hs: seq<Happening>, h: Happening, id: nat)
    requires Later(sys, hs, id).pipe == After(sys.pipe, Actions(sys, hs, id))
    ensures Events(sys, hs + [h], id) == Events(sys, hs, id) + EventsOf(Later(sys, hs, id), h, id)
  {
    hide Actions, StoreTrace, StoreEvents, Later, After, ActionsOf;
    var mid, actions := Later(sys, hs, id), Actions(sys, hs, id);
    ActionsSnoc(sys, hs, h, id);
    AtMostOneAction(mid, h, id);
    if ActionsOf(mid, h, id) == [] {
      assert actions + [] == actions;
      assert Events(sys, hs, id) + [] == Events(sys, hs, id);
    } else {
      var a := ActionsOf(mid, h, id)[0];
      assert ActionsOf(mid, h, id) == [a];
      StoreTraceSnoc(sys.pipe, actions, a);
    }
  }

  lemma ActionsSnoc(sys: System, hs: seq<Happening>, h: Happening, id: nat)
    ensures Actions(sys, hs + [h], id) == Actions(sys, hs, id) + ActionsOf(Later(sys, hs, id), h, id)
  {
    hide Later, ActionsOf;
    assert (hs + [h])[..|hs|] == hs;
  }

  lemma AtMostOneAction(sys: System, h: Happening, id: nat)
    ensures |ActionsOf(sys, h, id)| <= 1
  {
  }

  lemma StoreTraceSnoc(p: Pipe, actions: seq<Action>, a: Action)
    ensures StoreTrace(p, actions + [a]) == StoreTrace(p, actions) + StoreEvents(After(p, actions), a)
  {
    hide StoreEvents, Perform;
    assert (actions + [a])[..|actions|] == actions;
  }

  // ---- Nothing is lost ------------------------------------------------------------------------------------

  lemma SentIsDelivered(sys: System, hs: seq<Happening>, id: nat)
    requires Begins(sys, id) && ValidHistory(sys, hs, id)
    ensures var end := Later(sys, hs, id);
            Sent(end) + W.Unstarted(end.writer) == PicksOf(end.ledger.delivered)
  {
    BeginsKept(sys, id);
    LaterKept(sys, hs, id);
    SentFromDelivered(Later(sys, hs, id), id);
  }

  /** What was sent, what the writer holds and what is pending in the store, in this order. */
  function Stream(sys: System, id: nat): seq<Pick> {
    Sent(sys) + W.Unstarted(sys.writer) + PicksOf(Pending(sys.pipe.store, id))
  }

  lemma StreamIs(sys: System, hs: seq<Happening>, id: nat)
    requires Begins(sys, id) && ValidHistory(sys, hs, id)
    ensures var end := Later(sys, hs, id);
            Stream(end, id) == PicksOf(end.ledger.delivered + Pending(end.pipe.store, id))
  {
    hide Later, ValidHistory, Sent, Begins, Pending;
    SentIsDelivered(sys, hs, id);
    PicksOfAppend(Later(sys, hs, id).ledger.delivered, Pending(Later(sys, hs, id).pipe.store, id));
  }

  /** End to end, for a subscription with an explicit start: as long as it lasts, if the received times of the
      entries at or above the start strictly increase and no clean passes an unread entry, then what was sent,
      what the writer holds and what is pending in the store are, in this order, exactly the picks at or above the
      start that the store held or received. */
  lemma LosslessEndToEnd(sys: System, hs: seq<Happening>, id: nat)
    requires Begins(sys, id) && ValidHistory(sys, hs, id)
    requires id in Later(sys, hs, id).pipe.store.cursors && sys.pipe.store.cursors[id] != MAX_TIME
    requires StrictlySorted(From(History(sys.pipe.store, Events(sys, hs, id)), sys.pipe.store.cursors[id]))
    requires Undisturbed(sys.pipe.store, id, Events(sys, hs, id))
    ensures var end := Later(sys, hs, id);
            var asked := From(History(sys.pipe.store, Events(sys, hs, id)), sys.pipe.store.cursors[id]);
            && end.ledger.delivered + Pending(end.pipe.store, id) == asked
            && Stream(end, id) == PicksOf(asked)
  {
    hide Events, Later, ValidHistory, From, Undisturbed, Run, Fates, Stream, Begins, Pending;
    StreamIs(sys, hs, id);
    LedgerIsFates(sys, hs, id);
    LosslessInOrder(sys.pipe.store, id, Events(sys, hs, id));
  }

  /** And exactly when nothing at all is missing from the stream, without any hypothesis on clocks, ties or cleans:
      no event of the store lost an entry to the subscription. */
  lemma CompleteEndToEnd(sys: System, hs: seq<Happening>, id: nat)
    requires Begins(sys, id) && ValidHistory(sys, hs, id)
    requires id in Later(sys, hs, id).pipe.store.cursors && sys.pipe.store.cursors[id] != MAX_TIME
    ensures var end, s, evs := Later(sys, hs, id), sys.pipe.store, Events(sys, hs, id);
            var streamed := end.ledger.delivered + Pending(end.pipe.store, id);
            && Stream(end, id) == PicksOf(streamed)
            && (multiset(streamed) == multiset(From(History(s, evs), s.cursors[id])) <==>
                forall k :: 0 <= k < |evs| ==> LosesNothing(Run(s, evs[..k]), evs[k], id, s.cursors[id]))
  {
    hide Events, Later, ValidHistory, From, Run, Fates, Stream, Begins, Pending, LosesNothing;
    StreamIs(sys, hs, id);
    LedgerIsFates(sys, hs, id);
    CompleteExactly(sys.pipe.store, id, Events(sys, hs, id));
  }

  /** The same against the table: what was sent, held, pending and the pick in flight are, in this order, the
      picks at or above the start that the store held or that were in flight at the subscription, and then the
      rows the table has accepted since.  With the start inside the window, these are exactly the rows that the
      table held at the subscription or has accepted since. */
  lemma RowsEndToEnd(sys: System, hs: seq<Happening>, id: nat)
    requires Begins(sys, id) && ValidHistory(sys, hs, id)
    requires id in Later(sys, hs, id).pipe.store.cursors && sys.pipe.store.cursors[id] != MAX_TIME
    requires StrictlySorted(From(History(sys.pipe.store, Events(sys, hs, id)), sys.pipe.store.cursors[id]))
    requires Undisturbed(sys.pipe.store, id, Events(sys, hs, id))
    ensures var end, p, start := Later(sys, hs, id), sys.pipe, sys.pipe.store.cursors[id];
            var rows := AddedSince(p, end.pipe);
            && Stream(end, id) + PicksOf(From(Flying(end.pipe), start)) ==
               PicksOf(From(p.store.deque + Flying(p) + rows, start))
            && (start >= Window(p) ==>
                multiset(end.ledger.delivered + Pending(end.pipe.store, id) + From(Flying(end.pipe), start)) ==
                multiset(From(p.table, start)) + multiset(From(rows, start)))
  {
    hide Later, ValidHistory, From, Undisturbed, Run, Fates, Stream, Pending, Flying, AddedSince, Actions;
    var end, p, start := Later(sys, hs, id), sys.pipe, sys.pipe.store.cursors[id];
    var rows, came := AddedSince(p, end.pipe), Arrivals(Events(sys, hs, id));
    BrokerRuns(sys, hs, id);
    StoredAreAdded(p, Actions(sys, hs, id));
    LosslessEndToEnd(sys, hs, id);
    hide Events, Begins, Reachable, Arrivals;
    AskedRows(p.store.deque, came, Flying(end.pipe), Flying(p), rows, start);
    PicksOfAppend(From(p.store.deque + came, start), From(Flying(end.pipe), start));
    if start >= Window(p) {
      TableAndFlying(p, start);
      FromAppend(p.store.deque + Flying(p), rows, start);
    }
  }

  lemma AskedRows(d: seq<Entry>, came: seq<Entry>, last: seq<Entry>, first: seq<Entry>, rows: seq<Entry>, t: int)
    requires first + rows == came + last
    ensures From(d + came, t) + From(last, t) == From(d + first + rows, t)
  {
    Associative(d, came, last);
    Associative(d, first, rows);
    FromAppend(d + came, last, t);
  }

  lemma TableAndFlying(p: Pipe, t: int)
    requires Reachable(p) && t >= Window(p)
    ensures multiset(From(p.store.deque + Flying(p), t)) == multiset(From(p.table, t))
  {
    hide Reachable, Window;
    CacheMatchesTable(p, t);
    FromAppend(p.store.deque, Flying(p), t);
    assert From(Flying(p), t) == if Flying(p) != [] && p.processor.entry.time >= t then Flying(p) else [];
  }

  /** End to end for a subscription that waits for the next pick: if each insertion is later than the back of the
      deque and no clean passes an unread entry, the entries delivered and pending are exactly those the store
      received after the subscription, in order, if and only if their times strictly increase; then what was sent,
      held, pending and the pick in flight are the pick in flight at the subscription and the rows the table has
      accepted since. */
  lemma NewPicksEndToEnd(sys: System, hs: seq<Happening>, id: nat)
    requires Begins(sys, id) && ValidHistory(sys, hs, id)
    requires id in Later(sys, hs, id).pipe.store.cursors && sys.pipe.store.cursors[id] == MAX_TIME
    requires LaterThanBack(sys.pipe.store, Events(sys, hs, id))
    requires Undisturbed(sys.pipe.store, id, Events(sys, hs, id))
    ensures var end, p := Later(sys, hs, id), sys.pipe;
            var came := Arrivals(Events(sys, hs, id));
            && (end.ledger.delivered + Pending(end.pipe.store, id) == came <==> StrictlySorted(came))
            && (StrictlySorted(came) ==>
                && Stream(end, id) == PicksOf(came)
                && Stream(end, id) + PicksOf(Flying(end.pipe)) == PicksOf(Flying(p) + AddedSince(p, end.pipe)))
  {
    hide Later, ValidHistory, From, Undisturbed, LaterThanBack, Run, Fates, Stream, Begins, Pending, Flying,
         AddedSince, Actions;
    BrokerRuns(sys, hs, id);
    StoredAreAdded(sys.pipe, Actions(sys, hs, id));
    hide Arrivals, StrictlySorted;
    StreamIs(sys, hs, id);
    LedgerIsFates(sys, hs, id);
    NewPicksOnly(sys.pipe.store, id, Events(sys, hs, id));
    PicksOfAppend(Arrivals(Events(sys, hs, id)), Flying(Later(sys, hs, id).pipe));
  }
}
