/** One subscription followed over a run of the store: what becomes of every entry it asked for. */
module Sessions {
  import opened Picks
  import opened TimeOrder
  import opened StoreModel
  import opened StoreProperties

  /** The account of one subscription.  `arrived` are the entries at or above `start` that were there when the
      subscription took effect or came later; the others say what has become of them. */
  datatype Ledger = Ledger(
    start: int,
    arrived: seq<Entry>,
    delivered: seq<Entry>,
    evicted: multiset<Entry>,
    late: multiset<Entry>,
    tied: multiset<Entry>)

  function Open(s: Store, id: nat): Ledger
    requires id in s.cursors
  {
    Ledger(s.cursors[id], Pending(s, id), [], multiset{}, multiset{}, multiset{})
  }

  /** The pending entries an effective clean takes away before they were read. */
  function EvictedUnread(s: Store, id: nat, cutoff: int): seq<Entry> {
    if |s.deque| < s.capacity / 2 then [] else Below(Pending(s, id), cutoff)
  }

  /** The pending entries that a full chunk leaves behind because they share the time of its last entry. */
  function TiedWithChunk(s: Store, id: nat, max: nat): seq<Entry>
    requires max >= 1
  {
    Tied(Pending(s, id), max)
  }

  function Tied(p: seq<Entry>, n: nat): seq<Entry>
    requires n >= 1
  {
    if |p| <= n then [] else At(p[n..], p[n - 1].time)
  }

  /** Books one event: `s` is the store just before it. */
  function Account(l: Ledger, s: Store, ev: Event, id: nat): Ledger {
    if id !in s.cursors then l
    else
      var cursor := s.cursors[id];
      match ev
      case Clean(cutoff) => l.(evicted := l.evicted + multiset(EvictedUnread(s, id, cutoff)))
      case Insert(e, after) =>
        if cursor == MAX_TIME && after != [] then
          l.(start := Last(after).time, arrived := From(after, Last(after).time))
        else if e.time < l.start then l
        else l.(arrived := l.arrived + [e], late := l.late + multiset(if e.time < cursor then [e] else []))
      case Read(reader, max) =>
        if reader == id && max >= 1 then
          l.(delivered := l.delivered + Chunk(s, id, max), tied := l.tied + multiset(TiedWithChunk(s, id, max)))
        else l
      case Subscribe(_, _) => l
      case Unsubscribe(_) => l
  }

  /** The subscription neither ends nor starts afresh. */
  predicate Continues(ev: Event, id: nat) {
    ev != Unsubscribe(id) && !(ev.Subscribe? && ev.id == id)
  }

  predicate Session(evs: seq<Event>, id: nat) {
    forall k :: 0 <= k < |evs| ==> Continues(evs[k], id)
  }

  function Fates(s: Store, id: nat, evs: seq<Event>): Ledger
    requires id in s.cursors
  {
    if evs == [] then Open(s, id)
    else
      var init := evs[..|evs| - 1];
      Account(Fates(s, id, init), Run(s, init), evs[|evs| - 1], id)
  }

  // ---- The partition --------------------------------------------------------------------------------------

  /** Every entry that arrived is in exactly one class: delivered, pending, evicted unread, late or tied. */
  ghost predicate Partitioned(l: Ledger, s: Store, id: nat) {
    multiset(l.arrived) ==
    multiset(l.delivered) + multiset(Pending(s, id)) + l.evicted + l.late + l.tied
  }

  /** The delivered stream is in time order and below the cursor, which stands just past its last entry. */
  ghost predicate InOrder(l: Ledger, cursor: int) {
    && Sorted(l.delivered)
    && (forall e :: e in l.delivered ==> e.time < cursor)
    && (cursor == l.start || (l.delivered != [] && cursor == Last(l.delivered).time + 1))
    && l.start <= cursor
    && (forall e :: e in l.late ==> e.time >= l.start)
  }

  const WAITING := Ledger(MAX_TIME, [], [], multiset{}, multiset{}, multiset{})

  ghost predicate Kept(l: Ledger, s: Store, id: nat) {
    && id in s.cursors
    && Partitioned(l, s, id)
    && InOrder(l, s.cursors[id])
    && (s.cursors[id] == MAX_TIME ==> l == WAITING)
  }

  lemma OpenKept(s: Store, id: nat)
    requires Sound(s) && id in s.cursors
    ensures Kept(Open(s, id), s, id)
  {
    if s.cursors[id] == MAX_TIME {
      WaitingReadsNothing(s, id, |s.deque|);
    }
  }

  lemma CleanPending(s: Store, id: nat, cutoff: int)
    requires Sound(s) && id in s.cursors
    ensures multiset(Pending(s, id)) ==
            multiset(Pending(Apply(s, Clean(cutoff)), id)) + multiset(EvictedUnread(s, id, cutoff))
  {
    if |s.deque| >= s.capacity / 2 {
      var c := s.cursors[id];
      CleanAllOrNothing(s.deque, s.capacity, cutoff);
      FromFrom(s.deque, cutoff, c);
      FromFrom(s.deque, c, cutoff);
      SplitAtTime(Pending(s, id), cutoff);
    }
  }

  lemma InsertPending(s: Store, id: nat, e: Entry, after: seq<Entry>)
    requires Sound(s) && id in s.cursors && s.cursors[id] != MAX_TIME && Enabled(s, Insert(e, after))
    ensures multiset(Pending(Apply(s, Insert(e, after)), id)) ==
            multiset(Pending(s, id)) + multiset(if e.time >= s.cursors[id] then [e] else [])
  {
    InsertedIsSorting(s.deque, e, after);
    FromSameEntries(after, s.deque + [e], s.cursors[id]);
    FromAppend(s.deque, [e], s.cursors[id]);
    assert From([e], s.cursors[id]) == if e.time >= s.cursors[id] then [e] else [];
  }

  lemma ReadPending(s: Store, id: nat, max: nat)
    requires Sound(s) && id in s.cursors && max >= 1
    ensures multiset(Pending(s, id)) ==
            multiset(Chunk(s, id, max)) + multiset(TiedWithChunk(s, id, max))
            + multiset(Pending(Apply(s, Read(id, max)), id))
  {
    PendingAfterRead(s, id, max);
    FromSorted(s.deque, s.cursors[id]);
    ChunkSplits(Pending(s, id), max);
  }

  lemma ChunkSplits(p: seq<Entry>, n: nat)
    requires Sorted(p) && n >= 1
    ensures multiset(p) == multiset(Take(p, n)) + multiset(Tied(p, n)) + multiset(Rest(p, n))
  {
    hide From, Below;
    if |p| > n {
      SplitEntries(p, n);
      TiedAndLater(p[n..], p[n - 1].time, Tied(p, n), Rest(p, n));
    }
  }

  lemma TiedAndLater(rest: seq<Entry>, t: int, tied: seq<Entry>, later: seq<Entry>)
    requires forall i :: 0 <= i < |rest| ==> rest[i].time >= t
    requires tied == At(rest, t) && later == From(rest, t + 1)
    ensures multiset(rest) == multiset(tied) + multiset(later)
  {
    FromAll(rest, t);
    SplitAtTime(rest, t + 1);
  }

  lemma CleanKept(l: Ledger, s: Store, id: nat, cutoff: int)
    requires Sound(s) && Kept(l, s, id)
    ensures Kept(Account(l, s, Clean(cutoff), id), Apply(s, Clean(cutoff)), id)
  {
    CleanPending(s, id, cutoff);
    if s.cursors[id] == MAX_TIME {
      WaitingReadsNothing(s, id, |s.deque|);
      assert Pending(s, id) == [];
    }
  }

  lemma InsertKept(l: Ledger, s: Store, id: nat, e: Entry, after: seq<Entry>)
    requires Sound(s) && Kept(l, s, id) && Enabled(s, Insert(e, after))
    ensures Kept(Account(l, s, Insert(e, after), id), Apply(s, Insert(e, after)), id)
  {
    InsertedIsSorting(s.deque, e, after);
    if s.cursors[id] == MAX_TIME {
      WakeKept(l, s, id, e, after);
    } else {
      InsertPartition(l, s, id, e, after);
    }
  }

  lemma WakeKept(l: Ledger, s: Store, id: nat, e: Entry, after: seq<Entry>)
    requires Sound(s) && Kept(l, s, id) && Enabled(s, Insert(e, after)) && s.cursors[id] == MAX_TIME && after != []
    ensures Kept(Account(l, s, Insert(e, after), id), Apply(s, Insert(e, after)), id)
  {
    var next := Apply(s, Insert(e, after));
    ApplySound(s, Insert(e, after));
    assert Account(l, s, Insert(e, after), id) == Open(next, id);
    OpenKept(next, id);
  }

  lemma InsertPartition(l: Ledger, s: Store, id: nat, e: Entry, after: seq<Entry>)
    requires Sound(s) && id in s.cursors && Enabled(s, Insert(e, after)) && s.cursors[id] != MAX_TIME
    requires l.start <= s.cursors[id] && Partitioned(l, s, id)
    ensures Partitioned(Account(l, s, Insert(e, after), id), Apply(s, Insert(e, after)), id)
  {
    InsertPending(s, id, e, after);
    hide From, Pending, Sound, Inserted, Woken;
    if e.time >= l.start {
      assert multiset(l.arrived + [e]) == multiset(l.arrived) + multiset{e};
      var pending, next := multiset(Pending(s, id)), multiset(Pending(Apply(s, Insert(e, after)), id));
      if e.time < s.cursors[id] {
        assert next == pending;
      } else {
        assert next == pending + multiset{e};
      }
    }
  }

  lemma ReadKept(l: Ledger, s: Store, id: nat, max: nat)
    requires Sound(s) && Kept(l, s, id) && max >= 1
    ensures Kept(Account(l, s, Read(id, max), id), Apply(s, Read(id, max)), id)
  {
    hide From, Below, Partitioned, Sorted, InOrder;
    if s.cursors[id] == MAX_TIME {
      WaitingReadsNothing(s, id, max);
      WaitingReadsNothing(s, id, |s.deque|);
      assert Pending(s, id) == [];
      assert Account(l, s, Read(id, max), id) == l by {
        assert l.delivered + [] == l.delivered;
        assert TiedWithChunk(s, id, max) == [];
      }
    } else {
      ReadPartition(l, s, id, max);
      ReadCursor(l, s, id, max);
    }
  }

  lemma ReadCursor(l: Ledger, s: Store, id: nat, max: nat)
    requires Sound(s) && id in s.cursors && s.cursors[id] != MAX_TIME && InOrder(l, s.cursors[id])
    ensures var cursor := Apply(s, Read(id, max)).cursors[id];
            cursor != MAX_TIME && InOrder(Account(l, s, Read(id, max), id), cursor)
  {
    hide From;
    var chunk := Chunk(s, id, max);
    if chunk != [] {
      CursorGrows(s, id, max);
      FromSorted(s.deque, s.cursors[id]);
      ReadInOrder(l, chunk, s.cursors[id]);
    } else {
      assert l.delivered + [] == l.delivered;
    }
  }

  lemma ReadInOrder(l: Ledger, chunk: seq<Entry>, cursor: int)
    requires InOrder(l, cursor) && Sorted(chunk) && chunk != []
    requires forall e :: e in chunk ==> cursor <= e.time < Last(chunk).time + 1
    ensures InOrder(l.(delivered := l.delivered + chunk), Last(chunk).time + 1)
  {
    AppendSorted(l.delivered, chunk, cursor);
    assert Last(chunk) in chunk;
    assert Last(l.delivered + chunk) == Last(chunk);
  }

  lemma ReadPartition(l: Ledger, s: Store, id: nat, max: nat)
    requires Sound(s) && id in s.cursors && max >= 1 && Partitioned(l, s, id)
    ensures Partitioned(Account(l, s, Read(id, max), id), Apply(s, Read(id, max)), id)
  {
    ReadPending(s, id, max);
    assert multiset(l.delivered + Chunk(s, id, max)) == multiset(l.delivered) + multiset(Chunk(s, id, max));
  }

  lemma AppendSorted(a: seq<Entry>, b: seq<Entry>, t: int)
    requires Sorted(a) && Sorted(b)
    requires forall e :: e in a ==> e.time < t
    requires forall e :: e in b ==> e.time >= t
    ensures Sorted(a + b)
  {
  }

  /** Every event keeps the books of a subscription that goes on. */
  lemma AccountKept(l: Ledger, s: Store, ev: Event, id: nat)
    requires Sound(s) && Enabled(s, ev) && Continues(ev, id) && Kept(l, s, id)
    ensures Kept(Account(l, s, ev, id), Apply(s, ev), id)
  {
    match ev {
      case Clean(cutoff) => CleanKept(l, s, id, cutoff);
      case Insert(e, after) => InsertKept(l, s, id, e, after);
      case Read(reader, max) =>
        if reader == id {
          ReadKept(l, s, id, max);
        }
      case Subscribe(_, _) =>
      case Unsubscribe(_) =>
    }
  }

  lemma {:induction false} FatesKept(s: Store, id: nat, evs: seq<Event>)
    requires Sound(s) && ValidRun(s, evs) && id in s.cursors && Session(evs, id)
    ensures Kept(Fates(s, id, evs), Run(s, evs), id)
  {
    if evs == [] {
      OpenKept(s, id);
    } else {
      var init := evs[..|evs| - 1];
      FatesKept(s, id, init);
      RunSound(s, init);
      AccountKept(Fates(s, id, init), Run(s, init), evs[|evs| - 1], id);
    }
  }

  /** No entry is delivered more often than it arrived. */
  lemma DeliveredWithinArrived(l: Ledger, s: Store, id: nat)
    requires Kept(l, s, id)
    ensures multiset(l.delivered) <= multiset(l.arrived)
  {
    assert multiset(l.arrived) ==
           multiset(l.delivered) + (multiset(Pending(s, id)) + l.evicted + l.late + l.tied);
  }

  /** Without losses, and with distinct times, the stream and what is pending are what arrived, in order. */
  lemma CompleteWithoutLosses(l: Ledger, s: Store, id: nat)
    requires Sound(s) && Kept(l, s, id) && StrictlySorted(l.arrived)
    requires l.evicted == l.late == l.tied == multiset{}
    ensures l.delivered + Pending(s, id) == l.arrived
  {
    hide From;
    FromSorted(s.deque, s.cursors[id]);
    FromMembers(s.deque, s.cursors[id]);
    AppendSorted(l.delivered, Pending(s, id), s.cursors[id]);
    assert multiset(l.delivered + Pending(s, id)) == multiset(l.arrived);
    SortingUnique(l.arrived, l.delivered + Pending(s, id));
  }
}
