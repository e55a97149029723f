/** What the store promises about retention, about its size, and about reading in chunks. */
module StoreProperties {
  import opened Picks
  import opened TimeOrder
  import opened StoreModel

  // ---- Retention ------------------------------------------------------------------------------------------

  /** The entries a clean takes away: nothing while the deque is below half its capacity. */
  function Expired(d: seq<Entry>, capacity: nat, cutoff: int): seq<Entry> {
    if |d| < capacity / 2 then [] else Below(d, cutoff)
  }

  /** A clean removes either nothing or exactly the entries older than its cutoff. */
  lemma CleanAllOrNothing(d: seq<Entry>, capacity: nat, cutoff: int)
    requires Sorted(d)
    ensures Cleaned(d, capacity, cutoff) == if |d| < capacity / 2 then d else From(d, cutoff)
    ensures multiset(d) == multiset(Cleaned(d, capacity, cutoff)) + multiset(Expired(d, capacity, cutoff))
  {
    DropOlderIsFrom(d, cutoff);
    SplitAtTime(d, cutoff);
  }

  /** The entries inserted by a run, in order. */
  function Arrivals(evs: seq<Event>): seq<Entry> {
    if evs == [] then []
    else Arrivals(evs[..|evs| - 1]) + Arriving(evs[|evs| - 1])
  }

  /** The entries removed by the cleans of a run. */
  function Removed(s: Store, evs: seq<Event>): multiset<Entry> {
    if evs == [] then multiset{}
    else
      var init := evs[..|evs| - 1];
      Removed(s, init) + multiset(Leaving(Run(s, init), evs[|evs| - 1]))
  }

  lemma {:induction false} RunOptions(s: Store, evs: seq<Event>)
    ensures Run(s, evs).capacity == s.capacity && Run(s, evs).retention == s.retention
  {
    if evs == [] {
    } else {
      RunOptions(s, evs[..|evs| - 1]);
    }
  }

  /** The entry an event brings, and the entries it takes away. */
  function Arriving(ev: Event): seq<Entry> {
    if ev.Insert? then [ev.entry] else []
  }

  function Leaving(s: Store, ev: Event): seq<Entry> {
    if ev.Clean? then Expired(s.deque, s.capacity, ev.cutoff) else []
  }

  lemma {:induction false} ArrivalsAppend(a: seq<Event>, b: seq<Event>)
    ensures Arrivals(a + b) == Arrivals(a) + Arrivals(b)
  {
    if b == [] {
      assert a + b == a;
      assert Arrivals(a) + [] == Arrivals(a);
    } else {
      assert (a + b)[..|a + b| - 1] == a + b[..|b| - 1];
      ArrivalsAppend(a, b[..|b| - 1]);
      Associative(Arrivals(a), Arrivals(b[..|b| - 1]), Arriving(b[|b| - 1]));
    }
  }

  lemma StepConserves(s: Store, ev: Event)
    requires Sound(s) && Enabled(s, ev)
    ensures multiset(s.deque) + multiset(Arriving(ev)) == multiset(Apply(s, ev).deque) + multiset(Leaving(s, ev))
  {
    match ev {
      case Clean(cutoff) =>
        CleanAllOrNothing(s.deque, s.capacity, cutoff);
      case Insert(e, after) =>
        InsertedIsSorting(s.deque, e, after);
      case Subscribe(_, _) =>
      case Unsubscribe(_) =>
      case Read(_, _) =>
    }
  }

  lemma Balance(start: multiset<Entry>, came: multiset<Entry>, comes: multiset<Entry>, mid: multiset<Entry>,
                went: multiset<Entry>, end: multiset<Entry>, goes: multiset<Entry>)
    requires start + came == mid + went && mid + comes == end + goes
    ensures start + (came + comes) == end + (went + goes)
  {
    assert start + (came + comes) == (start + came) + comes;
    assert (mid + went) + comes == (mid + comes) + went;
    assert (end + goes) + went == end + (went + goes);
  }

  /** Over any run, whatever the arrival order: the deque stays sorted, and what was there or arrived is either
      still there or was removed by a clean. */
  lemma {:induction false} DequeConserved(s: Store, evs: seq<Event>)
    requires Sound(s) && ValidRun(s, evs)
    ensures Sorted(Run(s, evs).deque)
    ensures multiset(s.deque) + multiset(Arrivals(evs)) == multiset(Run(s, evs).deque) + Removed(s, evs)
  {
    if evs == [] {
    } else {
      var init, ev := evs[..|evs| - 1], evs[|evs| - 1];
      DequeConserved(s, init);
      RunSound(s, init);
      RunSound(s, evs);
      RunOptions(s, init);
      StepConserves(Run(s, init), ev);
      assert multiset(Arrivals(evs)) == multiset(Arrivals(init)) + multiset(Arriving(ev));
      Balance(multiset(s.deque), multiset(Arrivals(init)), multiset(Arriving(ev)), multiset(Run(s, init).deque),
              Removed(s, init), multiset(Run(s, evs).deque), multiset(Leaving(Run(s, init), ev)));
    }
  }

  ghost predicate CleanedPast(evs: seq<Event>, t: int) {
    exists k :: 0 <= k < |evs| && evs[k].Clean? && evs[k].cutoff > t
  }

  lemma {:induction false} RemovedWasExpired(s: Store, evs: seq<Event>, e: Entry)
    requires e in Removed(s, evs)
    ensures CleanedPast(evs, e.time)
  {
    var init, ev := evs[..|evs| - 1], evs[|evs| - 1];
    if e in Removed(s, init) {
      RemovedWasExpired(s, init, e);
      var k :| 0 <= k < |init| && init[k].Clean? && init[k].cutoff > e.time;
      assert evs[k] == init[k];
    } else {
      BelowCount(Run(s, init).deque, ev.cutoff, e);
      assert evs[|evs| - 1].cutoff > e.time;
    }
  }

  /** No entry at or above every cutoff used so far has been lost, whatever the capacity. */
  lemma UnexpiredKept(s: Store, evs: seq<Event>, e: Entry)
    requires Sound(s) && ValidRun(s, evs)
    requires !CleanedPast(evs, e.time)
    ensures multiset(Run(s, evs).deque)[e] == multiset(s.deque)[e] + multiset(Arrivals(evs))[e]
  {
    DequeConserved(s, evs);
    if e in Removed(s, evs) {
      RemovedWasExpired(s, evs, e);
    }
    assert (multiset(s.deque) + multiset(Arrivals(evs)))[e] == (multiset(Run(s, evs).deque) + Removed(s, evs))[e];
  }

  /** A clean followed by an insertion leaves at most half the capacity, or the unexpired entries and the new
      one, whichever is more. */
  lemma EnqueueSizeBound(d: seq<Entry>, capacity: nat, cutoff: int, e: Entry, after: seq<Entry>)
    requires Sorted(d) && Inserted(Cleaned(d, capacity, cutoff), e, after)
    ensures |after| == |Cleaned(d, capacity, cutoff)| + 1
    ensures |after| <= Max(capacity / 2, |From(d, cutoff)| + 1)
  {
    hide From, DropOlder, Below;
    var kept := Cleaned(d, capacity, cutoff);
    CleanAllOrNothing(d, capacity, cutoff);
    assert |after| == |multiset(after)| == |multiset(kept + [e])| == |kept| + 1;
  }

  /** The capacity is no bound: an enqueue exceeds it exactly when, before its clean, the deque was at least half
      full and as many entries as the capacity were unexpired. */
  lemma OverCapacityExactly(d: seq<Entry>, capacity: Positive, cutoff: int, e: Entry, after: seq<Entry>)
    requires Sorted(d) && Inserted(Cleaned(d, capacity, cutoff), e, after)
    ensures |after| > capacity <==> |d| >= capacity / 2 && |From(d, cutoff)| >= capacity
  {
    hide From, DropOlder, Below;
    CleanAllOrNothing(d, capacity, cutoff);
    EnqueueSizeBound(d, capacity, cutoff, e, after);
  }

  /** An enqueue as two events, repeated. */
  function Filling(n: nat, p: Pick): seq<Event> {
    if n == 0 then []
    else Filling(n - 1, p) + [Clean(5), Insert(Entry(5, p), seq(n, _ => Entry(5, p)))]
  }

  /** No bound at all: whatever the capacity, enqueues whose entries never expire fill the deque to any size. */
  lemma {:induction false} AnySizeReached(n: nat, p: Pick, capacity: Positive, retention: Positive)
    ensures var empty := Store([], map[], capacity, retention);
            && ValidRun(empty, Filling(n, p))
            && Run(empty, Filling(n, p)) == Store(seq(n, _ => Entry(5, p)), map[], capacity, retention)
  {
    if n == 0 {
    } else {
      hide Run, ValidRun;
      var empty, before := Store([], map[], capacity, retention), Filling(n - 1, p);
      var clean, insert := Clean(5), Insert(Entry(5, p), seq(n, _ => Entry(5, p)));
      AnySizeReached(n - 1, p, capacity, retention);
      RunSnoc(empty, before, clean);
      RunSnoc(empty, before + [clean], insert);
      assert before + [clean, insert] == before + [clean] + [insert];
      FillStep(n, p, capacity, retention);
    }
  }

  lemma FillStep(n: nat, p: Pick, capacity: Positive, retention: Positive)
    requires n > 0
    ensures var s := Store(seq(n - 1, _ => Entry(5, p)), map[], capacity, retention);
            var insert := Insert(Entry(5, p), seq(n, _ => Entry(5, p)));
            && Apply(s, Clean(5)) == s && Enabled(s, insert)
            && Apply(s, insert) == Store(seq(n, _ => Entry(5, p)), map[], capacity, retention)
  {
    var before, all := seq(n - 1, _ => Entry(5, p)), seq(n, _ => Entry(5, p));
    assert all == before + [Entry(5, p)];
    assert Woken(map[], 5) == map[];
  }

  // ---- Reading in chunks ----------------------------------------------------------------------------------

  /** A chunk is a contiguous slice of the deque: it starts at the first entry at or above the cursor, and it
      is as long as was asked for unless the deque ends first. */
  lemma ChunkIsSlice(s: Store, id: nat, max: nat) returns (k: nat)
    requires Sound(s) && id in s.cursors
    ensures k <= |s.deque| && Chunk(s, id, max) == s.deque[k..][..Min(max, |s.deque| - k)]
    ensures forall i :: 0 <= i < k ==> s.deque[i].time < s.cursors[id]
    ensures forall i :: k <= i < |s.deque| ==> s.deque[i].time >= s.cursors[id]
  {
    k := FromIsSuffix(s.deque, s.cursors[id]);
  }

  /** A read that returns something moves the cursor strictly forward, past everything it returned and not onto
      the sentinel. */
  lemma CursorGrows(s: Store, id: nat, max: nat)
    requires Sound(s) && id in s.cursors && Chunk(s, id, max) != []
    ensures s.cursors[id] < Apply(s, Read(id, max)).cursors[id] < MAX_TIME
    ensures forall e :: e in Chunk(s, id, max) ==> s.cursors[id] <= e.time < Apply(s, Read(id, max)).cursors[id]
  {
    var chunk := Chunk(s, id, max);
    ChunkPending(s, id, max);
    FromSorted(s.deque, s.cursors[id]);
    assert Last(chunk) in chunk;
    forall e | e in chunk ensures e.time <= Last(chunk).time {
      var i :| 0 <= i < |chunk| && chunk[i] == e;
    }
  }

  /** The debug assertion that a non-empty read ends above the cursor fails exactly when, before the read, either
      nothing in the deque is above the cursor or as many entries as are asked for lie at the cursor itself. */
  lemma DebugAssertionExactly(s: Store, id: nat, max: nat)
    requires Sound(s) && id in s.cursors && max >= 1 && Chunk(s, id, max) != []
    ensures s.deque != []
    ensures !(Last(Chunk(s, id, max)).time > s.cursors[id]) <==>
            Last(s.deque).time == s.cursors[id] || |At(s.deque, s.cursors[id])| >= max
  {
    hide From, Below, Sorted;
    PendingEnds(s.deque, s.cursors[id]);
    ChunkEndsAt(Pending(s, id), max, s.cursors[id]);
  }

  lemma PendingEnds(d: seq<Entry>, t: int)
    requires Sorted(d) && From(d, t) != []
    ensures d != [] && Last(From(d, t)) == Last(d)
    ensures Sorted(From(d, t)) && forall i :: 0 <= i < |From(d, t)| ==> From(d, t)[i].time >= t
  {
    var k := FromIsSuffix(d, t);
  }

  lemma ChunkEndsAt(p: seq<Entry>, max: nat, c: int)
    requires Sorted(p) && p != [] && max >= 1 && forall i :: 0 <= i < |p| ==> p[i].time >= c
    ensures !(Last(Take(p, max)).time > c) <==> Last(p).time == c || |Below(p, c + 1)| >= max
  {
    BelowIsPrefix(p, c + 1);
    hide Below;
    if |p| > max {
      assert Last(Take(p, max)) == p[max - 1];
    }
  }

  /** In a sorted sequence the entries below a time are a prefix. */
  lemma {:induction false} BelowIsPrefix(d: seq<Entry>, t: int)
    requires Sorted(d)
    ensures |Below(d, t)| <= |d| && Below(d, t) == d[..|Below(d, t)|]
    ensures forall i :: 0 <= i < |d| ==> (i < |Below(d, t)| <==> d[i].time < t)
  {
    if d == [] {
    } else {
      BelowIsPrefix(d[1..], t);
      var n := |Below(d[1..], t)|;
      if d[0].time < t {
        assert d[..n + 1] == [d[0]] + d[1..][..n];
      }
      assert forall i :: 1 <= i < |d| ==> d[i] == d[1..][i - 1];
    }
  }

  /** It does fail: on the first read of a subscriber that waited for the next pick, when that pick arrives in
      order and is read before another comes. */
  lemma DebugAssertionFailsAfterWaking(s: Store, id: nat, e: Entry, after: seq<Entry>, max: nat)
    requires Sound(s) && id in s.cursors && s.cursors[id] == MAX_TIME && max >= 1
    requires Enabled(s, Insert(e, after)) && (s.deque == [] || Last(s.deque).time < e.time)
    ensures var woken := Apply(s, Insert(e, after));
            Chunk(woken, id, max) == [e] && Last(Chunk(woken, id, max)).time == woken.cursors[id]
  {
    WakingUp(s, id, e, after);
  }

  /** The entry after the first `n` has the same time as the last of them. */
  predicate TieAt(d: seq<Entry>, n: nat) {
    0 < n < |d| && d[n - 1].time == d[n].time
  }

  /** What is still pending after the first `n` of the pending entries have been read. */
  function Rest(p: seq<Entry>, n: nat): seq<Entry>
    requires n >= 1
  {
    if |p| <= n then [] else From(p[n..], p[n - 1].time + 1)
  }

  /** What stays pending after a read: the rest, without the entries tied with the last one returned. */
  lemma PendingAfterRead(s: Store, id: nat, max: nat)
    requires Sorted(s.deque) && id in s.cursors && max >= 1
    ensures var p := Pending(s, id);
            Pending(Apply(s, Read(id, max)), id) == Rest(p, max)
  {
    hide From, Rest, Sorted, Advanced;
    LeftByRead(s.deque, s.cursors[id], max);
  }

  lemma LeftByRead(d: seq<Entry>, c: int, max: nat)
    requires Sorted(d) && max >= 1
    ensures From(d, Advanced(c, Take(From(d, c), max))) == Rest(From(d, c), max)
  {
    hide From, Sorted;
    var p := From(d, c);
    if p == [] {
    } else {
      PendingEnds(d, c);
      FromFrom(d, c, Last(Take(p, max)).time + 1);
      RestIsLater(p, max);
    }
  }

  lemma RestIsLater(p: seq<Entry>, n: nat)
    requires Sorted(p) && p != [] && n >= 1
    ensures From(p, Last(Take(p, n)).time + 1) == Rest(p, n)
  {
    FromSkips(p, |Take(p, n)|, Last(Take(p, n)).time + 1);
    if |p| <= n {
      assert p[|p|..] == [];
    }
  }

  /** Reading `a` and then `b` picks gives the same picks as reading `a + b` at once exactly when no tie
      straddles the boundary; the two ways then also leave the same cursor.  A tie at the boundary is lost. */
  lemma ReadsCompose(s: Store, id: nat, a: nat, b: nat)
    requires Sound(s) && id in s.cursors && a >= 1 && b >= 1
    ensures var mid := Apply(s, Read(id, a));
            && (Chunk(s, id, a) + Chunk(mid, id, b) == Chunk(s, id, a + b) <==> !TieAt(Pending(s, id), a))
            && (!TieAt(Pending(s, id), a) ==> Apply(mid, Read(id, b)) == Apply(s, Read(id, a + b)))
  {
    PendingAfterRead(s, id, a);
    FromSorted(s.deque, s.cursors[id]);
    PiecesCompose(Pending(s, id), s.cursors[id], a, b);
  }

  lemma PiecesCompose(p: seq<Entry>, cursor: int, a: nat, b: nat)
    requires Sorted(p) && a >= 1 && b >= 1
    ensures Take(p, a) + Take(Rest(p, a), b) == Take(p, a + b) <==> !TieAt(p, a)
    ensures !TieAt(p, a) ==>
              Advanced(Advanced(cursor, Take(p, a)), Take(Rest(p, a), b)) == Advanced(cursor, Take(p, a + b))
  {
    if |p| <= a {
      assert p + [] == p;
    } else if TieAt(p, a) {
      FromMembers(p[a..], p[a - 1].time + 1);
      TieLost(p, a, b, Take(Rest(p, a), b));
    } else {
      FromAll(p[a..], p[a - 1].time + 1);
      TakeSplit(p, a, b);
    }
  }

  lemma TakeSplit(p: seq<Entry>, a: nat, b: nat)
    requires 1 <= a < |p| && b >= 1
    ensures p[..a] + Take(p[a..], b) == Take(p, a + b)
    ensures Last(Take(p[a..], b)) == Last(Take(p, a + b))
  {
  }

  lemma TieLost(p: seq<Entry>, a: nat, b: nat, next: seq<Entry>)
    requires TieAt(p, a) && b >= 1
    requires forall e :: e in next ==> e.time > p[a - 1].time
    ensures p[..a] + next != Take(p, a + b)
  {
    assert Take(p, a + b)[a] == p[a];
    if next != [] {
      assert (p[..a] + next)[a] == next[0] && next[0] in next;
    }
  }

  /** The loss is real: two picks received at the same nanosecond, read one at a time. */
  lemma TieLostExample(p: Pick, q: Pick)
    ensures var s := Store([Entry(5, p), Entry(5, q)], map[0 := 5], 2, 1);
            && Sound(s)
            && Chunk(s, 0, 2) == [Entry(5, p), Entry(5, q)]
            && Chunk(s, 0, 1) == [Entry(5, p)]
            && Chunk(Apply(s, Read(0, 1)), 0, 1) == []
  {
    var d := [Entry(5, p), Entry(5, q)];
    var s := Store(d, map[0 := 5], 2, 1);
    FromAll(d, 5);
    FromNone(d, 6);
    assert Pending(s, 0) == d;
    assert Chunk(s, 0, 1) == d[..1] == [Entry(5, p)];
    assert Apply(s, Read(0, 1)).cursors[0] == 6;
  }

  // ---- Subscribing and unsubscribing ----------------------------------------------------------------------

  /** A subscription, a first one or one anew, is offered what the deque holds at or above its start, whatever was
      read before; no other subscriber and nothing in the deque changes. */
  lemma SubscribeExactly(s: Store, id: nat, start: int, other: nat)
    requires other != id
    ensures var t := Apply(s, Subscribe(id, start));
            && t.deque == s.deque && Pending(t, id) == From(s.deque, start)
            && (other in t.cursors <==> other in s.cursors)
            && (other in s.cursors ==> t.cursors[other] == s.cursors[other])
  {
  }

  /** After unsubscribing a subscriber reads nothing, and no other subscriber and nothing in the deque changes. */
  lemma UnsubscribeExactly(s: Store, id: nat, max: nat, other: nat)
    requires other != id
    ensures var t := Apply(s, Unsubscribe(id));
            && t.deque == s.deque && id !in t.cursors
            && Chunk(t, id, max) == [] && Apply(t, Read(id, max)) == t
            && (other in t.cursors <==> other in s.cursors)
            && (other in s.cursors ==> t.cursors[other] == s.cursors[other])
  {
  }

  // ---- Waiting for the next pick --------------------------------------------------------------------------

  /** A subscriber waiting for the next pick has nothing to read, however often it asks. */
  lemma WaitingReadsNothing(s: Store, id: nat, max: nat)
    requires Sound(s) && id in s.cursors && s.cursors[id] == MAX_TIME
    ensures Chunk(s, id, max) == [] && Apply(s, Read(id, max)) == s
  {
    forall i | 0 <= i < |s.deque| ensures s.deque[i].time < MAX_TIME {
      assert InRange(s.deque[i]);
    }
    FromNone(s.deque, MAX_TIME);
    assert s.cursors[id := MAX_TIME] == s.cursors;
  }

  /** Waking up: the next insertion replaces the sentinel by a real time for good, and what is then pending is
      the new pick alone exactly when it arrived later than the back of the deque. */
  lemma WakingUp(s: Store, id: nat, e: Entry, after: seq<Entry>)
    requires Sound(s) && id in s.cursors && s.cursors[id] == MAX_TIME
    requires Enabled(s, Insert(e, after))
    ensures var woken := Apply(s, Insert(e, after));
            && woken.cursors[id] < MAX_TIME
            && (Pending(woken, id) == [e] <==> s.deque == [] || Last(s.deque).time < e.time)
  {
    InsertedIsSorting(s.deque, e, after);
    assert Last(after) in after;
    if s.deque == [] || Last(s.deque).time < e.time {
      FromNone(s.deque, e.time);
      FromAppend(s.deque, [e], e.time);
      assert From([e], e.time) == [e];
    } else {
      WokenByLatePick(s.deque, e, after);
    }
  }

  /** Woken by a pick that is not later than the back: the back as it was is pending too. */
  lemma WokenByLatePick(d: seq<Entry>, e: Entry, after: seq<Entry>)
    requires Sorted(d) && d != [] && Last(d).time >= e.time && Inserted(d, e, after)
    ensures after != [] && From(after, Last(after).time) != [e]
  {
    hide From;
    InsertedIsSorting(d, e, after);
    var back := Last(after).time;
    FromMembers(after, back);
    if Last(d).time > e.time {
      var i :| 0 <= i < |after| && after[i] == Last(d);
      assert e !in From(after, back);
      assert e in [e];
    } else {
      FromCount(after, back, Last(d));
      FromCount(after, back, e);
      assert multiset(after) == multiset(d) + multiset{e};
      assert Last(d) in multiset(d);
      if Last(d) == e {
        assert multiset(From(after, back))[e] >= 2;
        assert multiset([e])[e] == 1;
      } else {
        assert multiset(From(after, back))[Last(d)] >= 1;
        assert multiset([e])[Last(d)] == 0;
      }
    }
  }
}
