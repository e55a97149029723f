/** What a subscriber may count on, over every run of the store. */
module Guarantees {
  import opened Picks
  import opened TimeOrder
  import opened StoreModel
  import opened StoreProperties
  import opened Sessions

  /** A run of a sound store during which the subscription goes on. */
  ghost predicate Subscribed(s: Store, id: nat, evs: seq<Event>) {
    Sound(s) && id in s.cursors && ValidRun(s, evs) && Session(evs, id)
  }

  lemma SubscribedPrefix(s: Store, id: nat, evs: seq<Event>, k: nat)
    requires Subscribed(s, id, evs) && k <= |evs|
    ensures Subscribed(s, id, evs[..k])
    ensures Sound(Run(s, evs[..k])) && id in Run(s, evs[..k]).cursors
    ensures k < |evs| ==> Continues(evs[k], id) && Enabled(Run(s, evs[..k]), evs[k])
  {
    RunPrefix(s, evs, k);
    RunSound(s, evs[..k]);
    FatesKept(s, id, evs[..k]);
  }

  lemma SubscribedSnoc(s: Store, id: nat, evs: seq<Event>, ev: Event)
    requires Subscribed(s, id, evs) && Enabled(Run(s, evs), ev) && Continues(ev, id)
    ensures Subscribed(s, id, evs + [ev])
    ensures Run(s, evs + [ev]) == Apply(Run(s, evs), ev)
    ensures Fates(s, id, evs + [ev]) == Account(Fates(s, id, evs), Run(s, evs), ev, id)
  {
    assert (evs + [ev])[..|evs|] == evs;
  }

  // ---- Every entry has exactly one fate -------------------------------------------------------------------

  /** The entries at or above the start that were there or came later are exactly the delivered, the pending,
      the evicted, the late and the tied ones, copies counted.  Nothing is missing from the stream and the
      pending entries exactly when no event of the run loses anything. */
  lemma FatePartition(s: Store, id: nat, evs: seq<Event>)
    requires Subscribed(s, id, evs)
    ensures var l, end := Fates(s, id, evs), Run(s, evs);
            && id in end.cursors
            && multiset(l.arrived) ==
               multiset(l.delivered) + multiset(Pending(end, id)) + l.evicted + l.late + l.tied
            && (multiset(l.arrived) == multiset(l.delivered + Pending(end, id)) <==> NoEventLoses(s, id, evs))
  {
    FatesKept(s, id, evs);
    LosslessExactly(s, id, evs);
    var l, end := Fates(s, id, evs), Run(s, evs);
    hide Run, Fates, NoEventLoses, From;
    NoLoss(multiset(l.delivered) + multiset(Pending(end, id)), l.evicted, l.late, l.tied);
  }

  /** For a subscription with an explicit start, on the run alone: the chunks read so far and what is pending hold
      every entry at or above the start that was there or came later, if and only if no effective clean found one
      unread below its cutoff, none was inserted below the cursor, and no full chunk ended on the time of an entry
      still unread. */
  lemma CompleteExactly(s: Store, id: nat, evs: seq<Event>)
    requires Subscribed(s, id, evs) && s.cursors[id] != MAX_TIME
    ensures id in Run(s, evs).cursors
    ensures multiset(Fates(s, id, evs).delivered + Pending(Run(s, evs), id)) ==
            multiset(From(History(s, evs), s.cursors[id])) <==>
            forall k :: 0 <= k < |evs| ==> LosesNothing(Run(s, evs[..k]), evs[k], id, s.cursors[id])
  {
    FatePartition(s, id, evs);
    ArrivedFromStart(s, id, evs);
    FromAppend(s.deque, Arrivals(evs), s.cursors[id]);
    StartStays(s, id, evs);
    hide Run, Fates, From, LosesNothing, Pending, Arrivals, Sound, ValidRun, Session;
  }

  lemma StartStays(s: Store, id: nat, evs: seq<Event>)
    requires Subscribed(s, id, evs) && s.cursors[id] != MAX_TIME
    ensures NoEventLoses(s, id, evs) <==>
            forall k :: 0 <= k < |evs| ==> LosesNothing(Run(s, evs[..k]), evs[k], id, s.cursors[id])
  {
    hide Run, Fates, LosesNothing, From, Arrivals, Pending, Sound, ValidRun, Session;
    forall k | 0 <= k < |evs| ensures Fates(s, id, evs[..k]).start == s.cursors[id] {
      SubscribedPrefix(s, id, evs, k);
      ArrivedFromStart(s, id, evs[..k]);
    }
  }

  lemma NoLoss(a: multiset<Entry>, x: multiset<Entry>, y: multiset<Entry>, z: multiset<Entry>)
    ensures a + x + y + z == a <==> x == multiset{} && y == multiset{} && z == multiset{}
  {
    assert |a + x + y + z| == |a| + |x| + |y| + |z|;
  }

  /** What arrived, read off the run alone: for a subscription with an explicit start, the entries at or above
      the start that the deque held and, in arrival order, those inserted afterwards. */
  lemma {:induction false} ArrivedFromStart(s: Store, id: nat, evs: seq<Event>)
    requires Subscribed(s, id, evs) && s.cursors[id] != MAX_TIME
    ensures id in Run(s, evs).cursors && Run(s, evs).cursors[id] != MAX_TIME
    ensures Fates(s, id, evs).start == s.cursors[id]
    ensures Fates(s, id, evs).arrived == From(s.deque, s.cursors[id]) + From(Arrivals(evs), s.cursors[id])
  {
    var start := s.cursors[id];
    if evs == [] {
      assert From(s.deque, start) + [] == From(s.deque, start);
    } else {
      hide From;
      var init, ev := evs[..|evs| - 1], evs[|evs| - 1];
      SubscribedPrefix(s, id, evs, |init|);
      ArrivedFromStart(s, id, init);
      AwakeStaysAwake(Run(s, init), ev, id);
      ArrivedStep(Fates(s, id, init), Run(s, init), ev, id);
      FromAppend(Arrivals(init), Arriving(ev), start);
      Associative(From(s.deque, start), From(Arrivals(init), start), From(Arriving(ev), start));
    }
  }

  lemma ArrivedStep(l: Ledger, s: Store, ev: Event, id: nat)
    requires id in s.cursors && s.cursors[id] != MAX_TIME && Continues(ev, id)
    ensures Account(l, s, ev, id).start == l.start
    ensures Account(l, s, ev, id).arrived == l.arrived + From(Arriving(ev), l.start)
  {
    assert l.arrived + [] == l.arrived;
    assert ev.Insert? ==> From([ev.entry], l.start) == if ev.entry.time >= l.start then [ev.entry] else [];
  }

  /** A cursor that is a real time never becomes the sentinel again, and never moves back. */
  lemma AwakeStaysAwake(s: Store, ev: Event, id: nat)
    requires Sound(s) && Enabled(s, ev) && id in s.cursors && s.cursors[id] != MAX_TIME && Continues(ev, id)
    ensures id in Apply(s, ev).cursors
    ensures s.cursors[id] <= Apply(s, ev).cursors[id] < MAX_TIME
  {
    if ev.Read? && ev.id == id && Chunk(s, id, ev.max) != [] {
      CursorGrows(s, id, ev.max);
    }
  }

  // ---- Why an entry was lost ------------------------------------------------------------------------------

  /** A clean found it unread, below its cutoff, with the deque at least half full. */
  ghost predicate EvictedBy(s: Store, ev: Event, id: nat, e: Entry) {
    && ev.Clean? && |s.deque| >= s.capacity / 2
    && e in Pending(s, id) && e.time < ev.cutoff
  }

  /** It was inserted when the cursor had already passed its time. */
  ghost predicate LateBy(s: Store, ev: Event, id: nat, e: Entry) {
    && ev.Insert? && ev.entry == e
    && id in s.cursors && e.time < s.cursors[id] < MAX_TIME
  }

  /** A full chunk ended with another entry of the same time. */
  ghost predicate TiedBy(s: Store, ev: Event, id: nat, e: Entry) {
    && ev.Read? && ev.id == id && ev.max >= 1
    && var p := Pending(s, id);
       && ev.max < |p|
       && e in p[ev.max..] && e.time == p[ev.max - 1].time
  }

  lemma EvictedStep(l: Ledger, s: Store, ev: Event, id: nat, e: Entry)
    requires e in Account(l, s, ev, id).evicted && e !in l.evicted
    ensures EvictedBy(s, ev, id, e)
  {
    hide From, Below;
    if ev.Clean? {
      assert e in multiset(EvictedUnread(s, id, ev.cutoff));
      BelowCount(Pending(s, id), ev.cutoff, e);
      assert e in multiset(Pending(s, id));
    }
  }

  lemma EvictedReason(s: Store, id: nat, evs: seq<Event>, e: Entry) returns (k: nat)
    requires Subscribed(s, id, evs) && e in Fates(s, id, evs).evicted
    ensures k < |evs| && EvictedBy(Run(s, evs[..k]), evs[k], id, e)
    decreases |evs|
  {
    hide Account, Apply, Sound, Enabled, EvictedBy, Pending;
    var init, ev := evs[..|evs| - 1], evs[|evs| - 1];
    SubscribedPrefix(s, id, evs, |init|);
    if e in Fates(s, id, init).evicted {
      k := EvictedReason(s, id, init, e);
      assert init[..k] == evs[..k];
    } else {
      k := |init|;
      EvictedStep(Fates(s, id, init), Run(s, init), ev, id, e);
    }
  }

  lemma LateStep(l: Ledger, s: Store, ev: Event, id: nat, e: Entry)
    requires Enabled(s, ev) && Sound(s) && e in Account(l, s, ev, id).late && e !in l.late
    ensures LateBy(s, ev, id, e)
  {
    hide From, Below;
    if ev.Insert? {
      InsertedIsSorting(s.deque, ev.entry, ev.after);
    }
  }

  lemma LateReason(s: Store, id: nat, evs: seq<Event>, e: Entry) returns (k: nat)
    requires Subscribed(s, id, evs) && e in Fates(s, id, evs).late
    ensures k < |evs| && LateBy(Run(s, evs[..k]), evs[k], id, e)
    decreases |evs|
  {
    hide Account, Apply, Sound, Enabled, LateBy, Pending;
    var init, ev := evs[..|evs| - 1], evs[|evs| - 1];
    SubscribedPrefix(s, id, evs, |init|);
    if e in Fates(s, id, init).late {
      k := LateReason(s, id, init, e);
      assert init[..k] == evs[..k];
    } else {
      k := |init|;
      LateStep(Fates(s, id, init), Run(s, init), ev, id, e);
    }
  }

  lemma TiedStep(l: Ledger, s: Store, ev: Event, id: nat, e: Entry)
    requires e in Account(l, s, ev, id).tied && e !in l.tied
    ensures TiedBy(s, ev, id, e)
  {
    hide From, Below;
    if ev.Read? {
      var p := Pending(s, id);
      assert e in multiset(Tied(p, ev.max));
      AtCount(p[ev.max..], p[ev.max - 1].time, e);
      assert e in multiset(p[ev.max..]);
    }
  }

  lemma TiedReason(s: Store, id: nat, evs: seq<Event>, e: Entry) returns (k: nat)
    requires Subscribed(s, id, evs) && e in Fates(s, id, evs).tied
    ensures k < |evs| && TiedBy(Run(s, evs[..k]), evs[k], id, e)
    decreases |evs|
  {
    hide Account, Apply, Sound, Enabled, TiedBy, Pending;
    var init, ev := evs[..|evs| - 1], evs[|evs| - 1];
    SubscribedPrefix(s, id, evs, |init|);
    if e in Fates(s, id, init).tied {
      k := TiedReason(s, id, init, e);
      assert init[..k] == evs[..k];
    } else {
      k := |init|;
      TiedStep(Fates(s, id, init), Run(s, init), ev, id, e);
    }
  }

  /** An event loses an entry to a subscription with this start. */
  ghost predicate LostBy(s: Store, ev: Event, id: nat, start: int, e: Entry) {
    EvictedBy(s, ev, id, e) || (LateBy(s, ev, id, e) && e.time >= start) || TiedBy(s, ev, id, e)
  }

  ghost predicate LosesNothing(s: Store, ev: Event, id: nat, start: int) {
    forall e :: !LostBy(s, ev, id, start, e)
  }

  ghost predicate NoEventLoses(s: Store, id: nat, evs: seq<Event>)
    requires id in s.cursors
  {
    forall k :: 0 <= k < |evs| ==> LosesNothing(Run(s, evs[..k]), evs[k], id, Fates(s, id, evs[..k]).start)
  }

  lemma EvictedCounts(l: Ledger, s: Store, ev: Event, id: nat, e: Entry)
    requires EvictedBy(s, ev, id, e)
    ensures e in Account(l, s, ev, id).evicted
  {
    hide From, Below;
    BelowCount(Pending(s, id), ev.cutoff, e);
    assert e in multiset(Pending(s, id));
  }

  lemma LateCounts(l: Ledger, s: Store, ev: Event, id: nat, e: Entry)
    requires LateBy(s, ev, id, e) && e.time >= l.start
    ensures e in Account(l, s, ev, id).late
  {
    hide From, Below;
    assert e in multiset([e]);
  }

  lemma TiedCounts(l: Ledger, s: Store, ev: Event, id: nat, e: Entry)
    requires TiedBy(s, ev, id, e)
    ensures e in Account(l, s, ev, id).tied
  {
    hide From, Below;
    var p := Pending(s, id);
    AtCount(p[ev.max..], p[ev.max - 1].time, e);
    assert e in multiset(p[ev.max..]);
  }

  lemma LateFromStart(l: Ledger, s: Store, ev: Event, id: nat, e: Entry)
    requires Enabled(s, ev) && Sound(s) && e in Account(l, s, ev, id).late && e !in l.late
    ensures e.time >= l.start
  {
    hide From, Below;
    if ev.Insert? {
      InsertedIsSorting(s.deque, ev.entry, ev.after);
    }
  }

  /** While nothing has been lost, the next event keeps it so exactly when it loses nothing. */
  lemma LossesExactly(l: Ledger, s: Store, ev: Event, id: nat)
    requires Sound(s) && Enabled(s, ev) && Lossless(l)
    ensures Lossless(Account(l, s, ev, id)) <==> LosesNothing(s, ev, id, l.start)
  {
    hide Account, EvictedBy, LateBy, TiedBy, Sound, Enabled;
    var k := Account(l, s, ev, id);
    forall e | LostBy(s, ev, id, l.start, e) ensures !Lossless(k) {
      if EvictedBy(s, ev, id, e) {
        EvictedCounts(l, s, ev, id, e);
      } else if TiedBy(s, ev, id, e) {
        TiedCounts(l, s, ev, id, e);
      } else {
        LateCounts(l, s, ev, id, e);
      }
    }
    if !Lossless(k) {
      var e := SomeLoss(k);
      if e in k.evicted {
        EvictedStep(l, s, ev, id, e);
      } else if e in k.late {
        LateStep(l, s, ev, id, e);
        LateFromStart(l, s, ev, id, e);
      } else {
        TiedStep(l, s, ev, id, e);
      }
      assert LostBy(s, ev, id, l.start, e);
    }
  }

  lemma SomeLoss(l: Ledger) returns (e: Entry)
    requires !Lossless(l)
    ensures e in l.evicted || e in l.late || e in l.tied
  {
    if l.evicted != multiset{} {
      e :| e in l.evicted;
    } else if l.late != multiset{} {
      e :| e in l.late;
    } else {
      e :| e in l.tied;
    }
  }

  lemma LossesStay(l: Ledger, s: Store, ev: Event, id: nat)
    requires Lossless(Account(l, s, ev, id))
    ensures Lossless(l)
  {
    hide From, Below, Chunk, Tied;
  }

  /** Nothing has been lost exactly when no event of the run loses anything. */
  lemma {:induction false} LosslessExactly(s: Store, id: nat, evs: seq<Event>)
    requires Subscribed(s, id, evs)
    ensures Lossless(Fates(s, id, evs)) <==> NoEventLoses(s, id, evs)
  {
    if evs == [] {
    } else {
      hide Account, Run, Enabled, Sound, ValidRun, Session, LosesNothing, Lossless, NoEventLoses, Pending, Continues;
      var init, ev := evs[..|evs| - 1], evs[|evs| - 1];
      assert evs == init + [ev];
      SubscribedPrefix(s, id, evs, |init|);
      LosslessExactly(s, id, init);
      NoEventLosesSnoc(s, id, init, ev);
      if Lossless(Fates(s, id, init)) {
        LossesExactly(Fates(s, id, init), Run(s, init), ev, id);
      } else if Lossless(Fates(s, id, evs)) {
        LossesStay(Fates(s, id, init), Run(s, init), ev, id);
      }
    }
  }

  lemma NoEventLosesSnoc(s: Store, id: nat, init: seq<Event>, ev: Event)
    requires id in s.cursors
    ensures NoEventLoses(s, id, init + [ev]) <==>
            NoEventLoses(s, id, init) && LosesNothing(Run(s, init), ev, id, Fates(s, id, init).start)
  {
    hide Run, Fates, LosesNothing;
    var evs := init + [ev];
    assert evs[..|init|] == init && evs[|init|] == ev;
    assert forall k :: 0 <= k < |init| ==> evs[..k] == init[..k] && evs[k] == init[k];
    if NoEventLoses(s, id, evs) {
      forall k | 0 <= k < |init|
        ensures LosesNothing(Run(s, init[..k]), init[k], id, Fates(s, id, init[..k]).start)
      {
        assert evs[k] == init[k];
      }
    }
  }

  // ---- At most once, in order -----------------------------------------------------------------------------

  /** Everything the deque ever held, in the order it arrived. */
  function History(s: Store, evs: seq<Event>): seq<Entry> {
    s.deque + Arrivals(evs)
  }

  /** Whatever arrived for a subscription, waiting or not, was in the deque when it began or inserted afterwards,
      copies counted. */
  lemma {:induction false} ArrivedWithinHistory(s: Store, id: nat, evs: seq<Event>)
    requires Subscribed(s, id, evs)
    ensures multiset(Fates(s, id, evs).arrived) <= multiset(History(s, evs))
  {
    if evs == [] {
      FewerFrom(s.deque, s.cursors[id]);
      assert History(s, evs) == s.deque;
    } else {
      hide Run, Arrivals, Session, ValidRun, Sound, Enabled, Continues, Account, From, Pending, History;
      var init, ev := evs[..|evs| - 1], evs[|evs| - 1];
      assert evs == init + [ev];
      SubscribedPrefix(s, id, evs, |init|);
      ArrivedWithinHistory(s, id, init);
      HistorySnoc(s, init, ev);
      HistoryHoldsDeque(s, init);
      ArrivedWithinStep(Fates(s, id, init), Run(s, init), ev, id, multiset(History(s, init)));
      assert multiset(History(s, evs)) == multiset(History(s, init)) + multiset(Arriving(ev));
    }
  }

  lemma HistoryHoldsDeque(s: Store, evs: seq<Event>)
    requires Sound(s) && ValidRun(s, evs)
    ensures multiset(Run(s, evs).deque) <= multiset(History(s, evs))
  {
    hide Run, Arrivals, ValidRun, Sound, Removed;
    DequeConserved(s, evs);
  }

  lemma HistorySnoc(s: Store, init: seq<Event>, ev: Event)
    ensures History(s, init + [ev]) == History(s, init) + Arriving(ev)
  {
    assert (init + [ev])[..|init|] == init;
    Associative(s.deque, Arrivals(init), Arriving(ev));
  }

  lemma ArrivedWithinStep(l: Ledger, s: Store, ev: Event, id: nat, h: multiset<Entry>)
    requires Sound(s) && Enabled(s, ev) && multiset(l.arrived) <= h && multiset(s.deque) <= h
    ensures multiset(Account(l, s, ev, id).arrived) <= h + multiset(Arriving(ev))
  {
    hide From, Below, Chunk;
    if ev.Insert? {
      InsertedIsSorting(s.deque, ev.entry, ev.after);
      FewerFrom(ev.after, Last(ev.after).time);
      assert multiset(ev.after) == multiset(s.deque) + multiset{ev.entry};
      assert multiset(l.arrived + [ev.entry]) == multiset(l.arrived) + multiset{ev.entry};
    }
  }

  /** No clock hypothesis, and whether the subscriber waits or has a start: the stream is in time order, and no
      entry is delivered more often than the store ever held it, even with ties, late arrivals and re-sorts. */
  lemma AtMostOnce(s: Store, id: nat, evs: seq<Event>)
    requires Subscribed(s, id, evs)
    ensures Sorted(Fates(s, id, evs).delivered)
    ensures multiset(Fates(s, id, evs).delivered) <= multiset(History(s, evs))
  {
    hide Run, Fates, From, Arrivals, Sound, ValidRun, Session, Partitioned;
    FatesKept(s, id, evs);
    DeliveredWithinArrived(Fates(s, id, evs), Run(s, evs), id);
    ArrivedWithinHistory(s, id, evs);
  }

  lemma CursorInRange(s: Store, id: nat, evs: seq<Event>, k: nat)
    requires Subscribed(s, id, evs) && k <= |evs|
    ensures id in Run(s, evs[..k]).cursors && Run(s, evs[..k]).cursors[id] <= MAX_TIME
  {
    SubscribedPrefix(s, id, evs, k);
  }

  lemma CursorStep(s: Store, id: nat, evs: seq<Event>, k: nat)
    requires Subscribed(s, id, evs) && k < |evs|
    requires id in Run(s, evs[..k]).cursors && Run(s, evs[..k]).cursors[id] != MAX_TIME
    ensures id in Run(s, evs[..k + 1]).cursors
    ensures Run(s, evs[..k]).cursors[id] <= Run(s, evs[..k + 1]).cursors[id] < MAX_TIME
  {
    hide Run, Apply;
    SubscribedPrefix(s, id, evs, k);
    RunPrefix(s, evs, k);
    AwakeStaysAwake(Run(s, evs[..k]), evs[k], id);
  }

  lemma {:induction false} CursorNeverBack(s: Store, id: nat, evs: seq<Event>, j: nat, k: nat)
    requires Subscribed(s, id, evs) && j <= k <= |evs|
    requires id in Run(s, evs[..j]).cursors && Run(s, evs[..j]).cursors[id] != MAX_TIME
    ensures id in Run(s, evs[..k]).cursors
    ensures Run(s, evs[..j]).cursors[id] <= Run(s, evs[..k]).cursors[id] < MAX_TIME
    decreases k
  {
    hide Run, Subscribed;
    if j < k {
      CursorNeverBack(s, id, evs, j, k - 1);
      CursorStep(s, id, evs, k - 1);
    } else {
      CursorInRange(s, id, evs, k);
    }
  }

  /** Received times strictly increase from any chunk to any later one. */
  lemma ChunksIncrease(s: Store, id: nat, evs: seq<Event>, j: nat, k: nat, x: Entry, y: Entry)
    requires Subscribed(s, id, evs) && j < k < |evs|
    requires evs[j].Read? && evs[j].id == id && x in Chunk(Run(s, evs[..j]), id, evs[j].max)
    requires evs[k].Read? && evs[k].id == id && y in Chunk(Run(s, evs[..k]), id, evs[k].max)
    ensures x.time < y.time
  {
    SubscribedPrefix(s, id, evs, j);
    RunPrefix(s, evs, j);
    CursorGrows(Run(s, evs[..j]), id, evs[j].max);
    CursorNeverBack(s, id, evs, j + 1, k);
    ChunkPending(Run(s, evs[..k]), id, evs[k].max);
  }

  /** Every read of the subscriber so far found nothing pending. */
  ghost predicate FoundNothing(s: Store, id: nat, evs: seq<Event>) {
    forall k :: 0 <= k < |evs| && evs[k].Read? && evs[k].id == id ==> Pending(Run(s, evs[..k]), id) == []
  }

  /** A subscriber has received nothing exactly when every read of it found nothing pending. */
  lemma {:induction false} NothingReceivedExactly(s: Store, id: nat, evs: seq<Event>)
    requires Subscribed(s, id, evs)
    ensures Fates(s, id, evs).delivered == [] <==> FoundNothing(s, id, evs)
  {
    if evs == [] {
    } else {
      hide Account, Run, Sound, ValidRun, Session, Pending, Continues, FoundNothing;
      var init, ev := evs[..|evs| - 1], evs[|evs| - 1];
      assert evs == init + [ev];
      SubscribedPrefix(s, id, evs, |init|);
      NothingReceivedExactly(s, id, init);
      FoundNothingSnoc(s, id, init, ev);
      ReceivesStep(Fates(s, id, init), Run(s, init), ev, id);
    }
  }

  lemma FoundNothingSnoc(s: Store, id: nat, init: seq<Event>, ev: Event)
    ensures FoundNothing(s, id, init + [ev]) <==>
            && FoundNothing(s, id, init)
            && (ev.Read? && ev.id == id ==> Pending(Run(s, init), id) == [])
  {
    hide Run, Pending;
    var evs := init + [ev];
    assert evs[..|init|] == init && evs[|init|] == ev;
    assert forall k :: 0 <= k < |init| ==> evs[..k] == init[..k] && evs[k] == init[k];
    if FoundNothing(s, id, evs) {
      forall k | 0 <= k < |init| && init[k].Read? && init[k].id == id
        ensures Pending(Run(s, init[..k]), id) == []
      {
        assert evs[k] == init[k];
      }
    }
  }

  lemma ReceivesStep(l: Ledger, s: Store, ev: Event, id: nat)
    requires Enabled(s, ev) && id in s.cursors
    ensures Account(l, s, ev, id).delivered == [] <==>
            l.delivered == [] && (ev.Read? && ev.id == id ==> Pending(s, id) == [])
  {
    hide From, Below, Tied;
  }

  // ---- Nothing lost ---------------------------------------------------------------------------------------

  /** Whenever a clean takes effect, everything the subscriber has yet to read is at or above its cutoff. */
  ghost predicate Undisturbed(s: Store, id: nat, evs: seq<Event>) {
    forall k, e {:trigger e in Pending(Run(s, evs[..k]), id)} ::
      0 <= k < |evs| && evs[k].Clean? && |Run(s, evs[..k]).deque| >= s.capacity / 2 ==>
        e in Pending(Run(s, evs[..k]), id) ==> e.time >= evs[k].cutoff
  }

  lemma UndisturbedSnoc(s: Store, id: nat, init: seq<Event>, ev: Event)
    requires Undisturbed(s, id, init + [ev])
    ensures Undisturbed(s, id, init)
    ensures ev.Clean? && |Run(s, init).deque| >= Run(s, init).capacity / 2 ==>
              forall e :: e in Pending(Run(s, init), id) ==> e.time >= ev.cutoff
  {
    hide Pending, Run;
    var evs := init + [ev];
    RunOptions(s, init);
    assert evs[..|init|] == init;
    forall k, e {:trigger e in Pending(Run(s, init[..k]), id)} |
      0 <= k < |init| && init[k].Clean? && |Run(s, init[..k]).deque| >= s.capacity / 2
      && e in Pending(Run(s, init[..k]), id)
      ensures e.time >= init[k].cutoff
    {
      assert init[..k] == evs[..k];
    }
  }

  ghost predicate Lossless(l: Ledger) {
    l.evicted == l.late == l.tied == multiset{}
  }

  /** What arrived only grows. */
  lemma ArrivedGrows(l: Ledger, s: Store, ev: Event, id: nat)
    requires Kept(l, s, id)
    ensures l.arrived <= Account(l, s, ev, id).arrived
  {
    hide Partitioned, InOrder, From, Below;
  }

  /** An arrival that comes after everything that arrived before finds the cursor at or below it. */
  lemma NeverLate(l: Ledger, s: Store, id: nat, e: Entry)
    requires Kept(l, s, id) && e.time >= l.start && StrictlySorted(l.arrived + [e])
    ensures s.cursors[id] <= e.time
  {
    hide From, Pending;
    if s.cursors[id] != l.start {
      DeliveredWithinArrived(l, s, id);
      var x := Last(l.delivered);
      assert x in multiset(l.delivered);
      assert x in l.arrived;
      LastIsLatest(l.arrived + [e], l.arrived, e, x);
    }
  }

  lemma LastIsLatest(all: seq<Entry>, h: seq<Entry>, e: Entry, x: Entry)
    requires StrictlySorted(all) && h + [e] <= all && x in h
    ensures x.time < e.time
  {
    var i :| 0 <= i < |h| && h[i] == x;
    assert all[i] == (h + [e])[i] && all[|h|] == (h + [e])[|h|];
  }

  lemma PendingStrict(l: Ledger, s: Store, id: nat)
    requires Sound(s) && Kept(l, s, id) && StrictlySorted(l.arrived)
    ensures StrictlySorted(Pending(s, id))
  {
    FromSorted(s.deque, s.cursors[id]);
    hide From;
    assert multiset(Pending(s, id)) <= multiset(l.arrived);
    ChoiceStrict(Pending(s, id), l.arrived);
  }

  lemma NothingTied(p: seq<Entry>, n: nat)
    requires StrictlySorted(p) && n >= 1
    ensures Tied(p, n) == []
  {
    if |p| > n {
      RestIsLaterStill(p, n);
      hide From, Below, StrictlySorted;
      NothingAt(p[n..], p[n - 1].time);
    }
  }

  lemma RestIsLaterStill(p: seq<Entry>, n: nat)
    requires StrictlySorted(p) && 1 <= n < |p|
    ensures forall i :: 0 <= i < |p[n..]| ==> p[n..][i].time > p[n - 1].time
  {
  }

  lemma NothingAt(rest: seq<Entry>, t: int)
    requires forall i :: 0 <= i < |rest| ==> rest[i].time > t
    ensures At(rest, t) == []
  {
    FromAll(rest, t);
    hide From, Below;
    NothingBelow(rest, t + 1);
    assert |Below(rest, t + 1)| == |multiset(Below(rest, t + 1))|;
  }

  lemma NothingBelow(p: seq<Entry>, t: int)
    requires forall e :: e in p ==> e.time >= t
    ensures multiset(Below(p, t)) == multiset{}
  {
    forall e: Entry ensures multiset(Below(p, t))[e] == 0 {
      BelowCount(p, t, e);
    }
  }

  /** As long as times of what arrives strictly increase and no clean passes an unread entry, no event loses
      anything. */
  lemma LosslessStep(l: Ledger, s: Store, ev: Event, id: nat)
    requires Sound(s) && Enabled(s, ev) && Continues(ev, id) && Kept(l, s, id) && Lossless(l)
    requires StrictlySorted(l.arrived) && StrictlySorted(Account(l, s, ev, id).arrived)
    requires ev.Clean? && |s.deque| >= s.capacity / 2 ==> forall e :: e in Pending(s, id) ==> e.time >= ev.cutoff
    ensures Lossless(Account(l, s, ev, id))
  {
    match ev {
      case Clean(cutoff) =>
        hide From, Below;
        if |s.deque| >= s.capacity / 2 {
          NothingBelow(Pending(s, id), cutoff);
        }
      case Insert(e, after) => LosslessInsert(l, s, e, after, id);
      case Read(_, max) => LosslessRead(l, s, ev, id);
      case Subscribe(_, _) =>
      case Unsubscribe(_) =>
    }
  }

  lemma LosslessInsert(l: Ledger, s: Store, e: Entry, after: seq<Entry>, id: nat)
    requires Kept(l, s, id) && Lossless(l) && StrictlySorted(Account(l, s, Insert(e, after), id).arrived)
    ensures Lossless(Account(l, s, Insert(e, after), id))
  {
    hide From, Partitioned, InOrder, StrictlySorted;
    if s.cursors[id] != MAX_TIME && e.time >= l.start {
      NeverLate(l, s, id, e);
    }
  }

  lemma LosslessRead(l: Ledger, s: Store, ev: Event, id: nat)
    requires ev.Read? && ev.max >= 1 && Sound(s) && Kept(l, s, id) && Lossless(l) && StrictlySorted(l.arrived)
    ensures Lossless(Account(l, s, ev, id))
  {
    PendingStrict(l, s, id);
    NothingTied(Pending(s, id), ev.max);
    hide From, Partitioned, InOrder, StrictlySorted, Tied;
  }

  /** If the times of what arrived strictly increase and no clean passes an unread entry, then what was delivered
      followed by what is pending is what arrived. */
  lemma NothingLost(s: Store, id: nat, evs: seq<Event>)
    requires Subscribed(s, id, evs) && Undisturbed(s, id, evs) && StrictlySorted(Fates(s, id, evs).arrived)
    ensures id in Run(s, evs).cursors
    ensures Fates(s, id, evs).delivered + Pending(Run(s, evs), id) == Fates(s, id, evs).arrived
  {
    LosslessAlways(s, id, evs);
    FatesKept(s, id, evs);
    RunSound(s, evs);
    CompleteWithoutLosses(Fates(s, id, evs), Run(s, evs), id);
  }

  lemma {:induction false} LosslessAlways(s: Store, id: nat, evs: seq<Event>)
    requires Subscribed(s, id, evs) && Undisturbed(s, id, evs) && StrictlySorted(Fates(s, id, evs).arrived)
    ensures Lossless(Fates(s, id, evs))
  {
    if evs == [] {
    } else {
      hide Account, Undisturbed, Pending, Run, Kept, Enabled, Sound, ValidRun, Session, StrictlySorted;
      var init, ev := evs[..|evs| - 1], evs[|evs| - 1];
      assert evs == init + [ev];
      SubscribedPrefix(s, id, evs, |init|);
      UndisturbedSnoc(s, id, init, ev);
      FatesKept(s, id, init);
      ArrivedGrows(Fates(s, id, init), Run(s, init), ev, id);
      StrictPrefix(Fates(s, id, evs).arrived, Fates(s, id, init).arrived);
      LosslessAlways(s, id, init);
      LosslessStep(Fates(s, id, init), Run(s, init), ev, id);
    }
  }

  /** Lossless and in order: if the received times of the entries at or above the start strictly increase and no
      clean passes an unread entry, then the chunks read so far followed by what is pending are exactly those
      entries, in arrival order, whatever the chunk sizes and however reads, insertions and cleans interleave. */
  lemma LosslessInOrder(s: Store, id: nat, evs: seq<Event>)
    requires Subscribed(s, id, evs) && s.cursors[id] != MAX_TIME
    requires StrictlySorted(From(History(s, evs), s.cursors[id])) && Undisturbed(s, id, evs)
    ensures Fates(s, id, evs).delivered + Pending(Run(s, evs), id) == From(History(s, evs), s.cursors[id])
  {
    hide Run, Fates, Pending, From, Undisturbed, Arrivals;
    ArrivedFromStart(s, id, evs);
    FromAppend(s.deque, Arrivals(evs), s.cursors[id]);
    NothingLost(s, id, evs);
  }

  // ---- The deque is the latest part of the history --------------------------------------------------------

  /** As far as the entries at or above a time have strictly increasing times, the deque holds the latest part of
      them: insertions append and cleans drop from the front. */
  lemma {:induction false} RecentFrom(s: Store, evs: seq<Event>, t: int) returns (n: nat)
    requires Sound(s) && ValidRun(s, evs) && StrictlySorted(From(History(s, evs), t))
    ensures n <= |From(History(s, evs), t)| && From(Run(s, evs).deque, t) == From(History(s, evs), t)[n..]
    decreases |evs|
  {
    if evs == [] {
      n := 0;
      assert s.deque + [] == s.deque;
    } else {
      hide From, Enabled, Apply, Sound, StrictlySorted, Arrivals;
      var init, ev := evs[..|evs| - 1], evs[|evs| - 1];
      assert evs == init + [ev];
      HistoryFrom(s, init, ev, t);
      StrictPrefix(From(History(s, evs), t), From(History(s, init), t));
      n := RecentFrom(s, init, t);
      RunSound(s, init);
      n := RecentStep(Run(s, init), ev, From(History(s, init), t), n, t);
    }
  }

  lemma RecentStep(s: Store, ev: Event, before: seq<Entry>, n: nat, t: int) returns (m: nat)
    requires Sound(s) && Enabled(s, ev) && StrictlySorted(before + From(Arriving(ev), t))
    requires n <= |before| && From(s.deque, t) == before[n..]
    ensures m <= |before + From(Arriving(ev), t)|
    ensures From(Apply(s, ev).deque, t) == (before + From(Arriving(ev), t))[m..]
  {
    if ev.Insert? {
      m := n;
      RecentInsert(s, ev.entry, ev.after, before, n, t);
    } else {
      hide Sound;
      assert From([], t) == [] && before + [] == before;
      m := n;
      if ev.Clean? {
        m := RecentClean(s, ev.cutoff, before, n, t);
      }
    }
  }

  lemma RecentInsert(s: Store, e: Entry, after: seq<Entry>, before: seq<Entry>, n: nat, t: int)
    requires Sorted(s.deque) && Inserted(s.deque, e, after) && StrictlySorted(before + From([e], t))
    requires n <= |before| && From(s.deque, t) == before[n..]
    ensures From(after, t) == (before + From([e], t))[n..]
  {
    var come, d := From([e], t), From(s.deque, t);
    InsertedIsSorting(s.deque, e, after);
    FromSameEntries(after, s.deque + [e], t);
    FromAppend(s.deque, [e], t);
    FromSorted(after, t);
    hide From, Inserted;
    StrictTail(before, n, come);
    SortingUnique(d + come, From(after, t));
  }

  lemma StrictTail(before: seq<Entry>, n: nat, come: seq<Entry>)
    requires n <= |before| && StrictlySorted(before + come)
    ensures (before + come)[n..] == before[n..] + come && StrictlySorted(before[n..] + come)
  {
    assert before + come == before[..n] + (before[n..] + come);
    StrictSuffix(before[..n], before[n..] + come);
  }

  lemma RecentClean(s: Store, cutoff: int, before: seq<Entry>, n: nat, t: int) returns (m: nat)
    requires Sorted(s.deque) && n <= |before| && From(s.deque, t) == before[n..]
    ensures m <= |before| && From(Cleaned(s.deque, s.capacity, cutoff), t) == before[m..]
  {
    hide From, DropOlder;
    m := n;
    CleanAllOrNothing(s.deque, s.capacity, cutoff);
    if |s.deque| >= s.capacity / 2 {
      FromFrom(s.deque, cutoff, t);
      FromFrom(s.deque, t, cutoff);
      FromSorted(s.deque, t);
      var k := FromIsSuffix(From(s.deque, t), cutoff);
      m := n + k;
    }
  }

  /** With strictly increasing received times throughout the whole deque is the latest part of what arrived. */
  lemma DequeIsRecent(s: Store, evs: seq<Event>) returns (n: nat)
    requires Sound(s) && ValidRun(s, evs) && StrictlySorted(History(s, evs))
    ensures n <= |History(s, evs)| && Run(s, evs).deque == History(s, evs)[n..]
  {
    hide From, Run, ValidRun, Sound;
    var h, d := History(s, evs), Run(s, evs).deque;
    var t := if h == [] then 0 else h[0].time;
    FromAll(h, t);
    n := RecentFrom(s, evs, t);
    DequeFromHistory(s, evs, d);
    FromAll(d, t);
  }

  lemma DequeFromHistory(s: Store, evs: seq<Event>, d: seq<Entry>)
    requires Sound(s) && ValidRun(s, evs) && d == Run(s, evs).deque
    ensures forall i :: 0 <= i < |d| ==> d[i] in History(s, evs)
  {
    hide Run, ValidRun, Sound, Arrivals, Removed;
    DequeConserved(s, evs);
    forall i | 0 <= i < |d| ensures d[i] in History(s, evs) {
      assert d[i] in multiset(d);
      assert d[i] in multiset(s.deque) + multiset(Arrivals(evs));
    }
  }

  // ---- New picks only -------------------------------------------------------------------------------------

  /** Every insertion finds the deque empty or its back strictly earlier. */
  ghost predicate LaterThanBack(s: Store, evs: seq<Event>) {
    forall k :: 0 <= k < |evs| && evs[k].Insert? ==> FoundEarlier(Run(s, evs[..k]), evs[k].entry)
  }

  predicate FoundEarlier(s: Store, e: Entry) {
    s.deque == [] || Last(s.deque).time < e.time
  }

  lemma LaterThanBackSnoc(s: Store, init: seq<Event>, ev: Event)
    requires LaterThanBack(s, init + [ev])
    ensures LaterThanBack(s, init)
    ensures ev.Insert? ==> FoundEarlier(Run(s, init), ev.entry)
  {
    hide Run, FoundEarlier;
    var evs := init + [ev];
    assert evs[..|init|] == init && evs[|init|] == ev;
    forall k | 0 <= k < |init| && init[k].Insert? ensures FoundEarlier(Run(s, init[..k]), init[k].entry) {
      assert init[..k] == evs[..k] && init[k] == evs[k];
    }
  }

  /** A waiting subscriber goes on waiting exactly until the first insertion. */
  lemma {:induction false} WokenByFirst(s: Store, id: nat, evs: seq<Event>)
    requires Subscribed(s, id, evs) && s.cursors[id] == MAX_TIME
    ensures id in Run(s, evs).cursors
    ensures Run(s, evs).cursors[id] == MAX_TIME <==> Arrivals(evs) == []
  {
    if evs == [] {
    } else {
      hide Apply, Enabled, Sound, Session, ValidRun;
      var init, ev := evs[..|evs| - 1], evs[|evs| - 1];
      SubscribedPrefix(s, id, evs, |init|);
      WokenByFirst(s, id, init);
      WokenStep(Run(s, init), ev, id);
    }
  }

  lemma WokenStep(s: Store, ev: Event, id: nat)
    requires Sound(s) && Enabled(s, ev) && Continues(ev, id) && id in s.cursors
    ensures id in Apply(s, ev).cursors
    ensures Apply(s, ev).cursors[id] == MAX_TIME <==> s.cursors[id] == MAX_TIME && !ev.Insert?
  {
    if s.cursors[id] != MAX_TIME {
      AwakeStaysAwake(s, ev, id);
    } else if ev.Insert? {
      WakingUp(s, id, ev.entry, ev.after);
    } else if ev.Read? && ev.id == id {
      WaitingReadsNothing(s, id, ev.max);
    }
  }

  /** Event `k` of the run is the insertion that wakes the waiting subscriber, and what has arrived since is what
      the deque held at or above its back just after it, and what was inserted later at or above that. */
  ghost predicate WokenAt(s: Store, id: nat, evs: seq<Event>, k: nat)
    requires id in s.cursors && k < |evs|
  {
    var woken := Run(s, evs[..k + 1]);
    && evs[k].Insert? && Arrivals(evs[..k]) == []
    && woken.deque != [] && id in woken.cursors && woken.cursors[id] == Last(woken.deque).time
    && Fates(s, id, evs).start == woken.cursors[id]
    && Fates(s, id, evs).arrived == From(History(woken, evs[k + 1..]), woken.cursors[id])
  }

  /** What arrived for a subscriber that waited, read off the run alone. */
  lemma {:induction false} ArrivedSinceWoken(s: Store, id: nat, evs: seq<Event>) returns (k: nat)
    requires Subscribed(s, id, evs) && s.cursors[id] == MAX_TIME && Arrivals(evs) != []
    ensures k < |evs| && WokenAt(s, id, evs, k)
    decreases |evs|
  {
    hide Run, Fates, WokenAt, Sound, Session, ValidRun;
    var init, ev := evs[..|evs| - 1], evs[|evs| - 1];
    SubscribedPrefix(s, id, evs, |init|);
    assert evs == init + [ev];
    if Arrivals(init) == [] {
      k := |init|;
      WokenNow(s, id, init, ev);
    } else {
      k := ArrivedSinceWoken(s, id, init);
      WokenBefore(s, id, init, ev, k);
    }
  }

  lemma WokenNow(s: Store, id: nat, init: seq<Event>, ev: Event)
    requires Subscribed(s, id, init) && Sound(Run(s, init)) && Enabled(Run(s, init), ev)
    requires s.cursors[id] == MAX_TIME && Arrivals(init) == [] && ev.Insert?
    ensures WokenAt(s, id, init + [ev], |init|)
  {
    hide Run, Account, Apply, From, Enabled, Sound, Session, ValidRun, Pending, Kept, History;
    var evs := init + [ev];
    assert evs[..|init|] == init && evs[..|init| + 1] == evs && evs[|init| + 1..] == [];
    FatesKept(s, id, init);
    WokenByFirst(s, id, init);
    WakingArrives(Fates(s, id, init), Run(s, init), ev, id);
    RunSnoc(s, init, ev);
    HistoryNone(Run(s, evs));
  }

  lemma WokenBefore(s: Store, id: nat, init: seq<Event>, ev: Event, k: nat)
    requires Subscribed(s, id, init) && s.cursors[id] == MAX_TIME && Continues(ev, id)
    requires k < |init| && WokenAt(s, id, init, k) && Arrivals(init) != []
    ensures WokenAt(s, id, init + [ev], k)
  {
    hide Run, Account, From, Enabled, Sound, Session, ValidRun, Pending, Kept, History, Arrivals;
    var evs := init + [ev];
    assert evs[..|init|] == init;
    assert init[..k] == evs[..k] && init[..k + 1] == evs[..k + 1] && evs[k + 1..] == init[k + 1..] + [ev];
    WokenByFirst(s, id, init);
    ArrivedStep(Fates(s, id, init), Run(s, init), ev, id);
    var woken := Run(s, evs[..k + 1]);
    HistoryFrom(woken, init[k + 1..], ev, woken.cursors[id]);
  }

  lemma HistoryNone(s: Store)
    ensures History(s, []) == s.deque
  {
  }

  lemma HistoryFrom(s: Store, init: seq<Event>, ev: Event, t: int)
    ensures From(History(s, init + [ev]), t) == From(History(s, init), t) + From(Arriving(ev), t)
  {
    HistorySnoc(s, init, ev);
    FromAppend(History(s, init), Arriving(ev), t);
  }

  lemma WakingArrives(l: Ledger, s: Store, ev: Event, id: nat)
    requires Sound(s) && Enabled(s, ev) && Kept(l, s, id) && s.cursors[id] == MAX_TIME && ev.Insert?
    ensures var woken, k := Apply(s, ev), Account(l, s, ev, id);
            && woken.deque != [] && id in woken.cursors && woken.cursors[id] == Last(woken.deque).time
            && k.start == woken.cursors[id] && k.arrived == From(woken.deque, k.start)
  {
    InsertedIsSorting(s.deque, ev.entry, ev.after);
    hide From, Kept;
  }

  /** With insertions later than the back, whatever a subscriber has read or can read has distinct times, even if
      the old deque has ties. */
  ghost predicate Distinct(l: Ledger, s: Store, id: nat) {
    StrictlySorted(l.delivered) && StrictlySorted(Pending(s, id))
  }

  lemma DistinctStep(l: Ledger, s: Store, ev: Event, id: nat)
    requires Sound(s) && Enabled(s, ev) && Continues(ev, id) && Kept(l, s, id) && Distinct(l, s, id)
    requires ev.Insert? ==> FoundEarlier(s, ev.entry)
    ensures Distinct(Account(l, s, ev, id), Apply(s, ev), id)
  {
    match ev {
      case Clean(cutoff) => DistinctClean(s, id, cutoff);
      case Insert(e, after) => DistinctInsert(s, id, e, after);
      case Read(reader, max) =>
        if reader == id {
          DistinctRead(l, s, id, max);
        }
      case Subscribe(_, _) =>
      case Unsubscribe(_) =>
    }
  }

  lemma DistinctClean(s: Store, id: nat, cutoff: int)
    requires Sound(s) && id in s.cursors && StrictlySorted(Pending(s, id))
    ensures StrictlySorted(Pending(Apply(s, Clean(cutoff)), id))
  {
    hide From, DropOlder;
    CleanAllOrNothing(s.deque, s.capacity, cutoff);
    FromFrom(s.deque, cutoff, s.cursors[id]);
    FromFrom(s.deque, s.cursors[id], cutoff);
    FromStrict(Pending(s, id), cutoff);
  }

  lemma DistinctInsert(s: Store, id: nat, e: Entry, after: seq<Entry>)
    requires Sound(s) && id in s.cursors && StrictlySorted(Pending(s, id))
    requires Enabled(s, Insert(e, after)) && FoundEarlier(s, e)
    ensures StrictlySorted(Pending(Apply(s, Insert(e, after)), id))
  {
    if s.cursors[id] == MAX_TIME {
      WakingUp(s, id, e, after);
    } else {
      var p := Pending(s, id);
      FromAppend(s.deque, [e], s.cursors[id]);
      FromMembers(s.deque, s.cursors[id]);
      assert From([e], s.cursors[id]) == if e.time >= s.cursors[id] then [e] else [];
      assert p + [] == p;
      forall x | x in p ensures x.time < e.time {
        var i :| 0 <= i < |s.deque| && s.deque[i] == x;
      }
      StrictAppend(p, [e], e.time);
    }
  }

  lemma DistinctRead(l: Ledger, s: Store, id: nat, max: nat)
    requires Sound(s) && Kept(l, s, id) && Distinct(l, s, id) && max >= 1
    ensures Distinct(Account(l, s, Read(id, max), id), Apply(s, Read(id, max)), id)
  {
    hide From, Partitioned;
    var p := Pending(s, id);
    PendingAfterRead(s, id, max);
    StrictPrefix(p, Take(p, max));
    ChunkPending(s, id, max);
    StrictAppend(l.delivered, Chunk(s, id, max), s.cursors[id]);
    if |p| > max {
      assert p == p[..max] + p[max..];
      StrictSuffix(p[..max], p[max..]);
      FromStrict(p[max..], p[max - 1].time + 1);
    }
  }

  lemma {:induction false} DistinctAlways(s: Store, id: nat, evs: seq<Event>)
    requires Subscribed(s, id, evs) && s.cursors[id] == MAX_TIME && LaterThanBack(s, evs)
    ensures Distinct(Fates(s, id, evs), Run(s, evs), id)
  {
    if evs == [] {
      WaitingReadsNothing(s, id, |s.deque|);
    } else {
      hide Account, Apply, Enabled, Sound, Session, ValidRun, LaterThanBack, Pending, Kept, FoundEarlier, Distinct;
      var init, ev := evs[..|evs| - 1], evs[|evs| - 1];
      assert evs == init + [ev];
      SubscribedPrefix(s, id, evs, |init|);
      LaterThanBackSnoc(s, init, ev);
      FatesKept(s, id, init);
      DistinctAlways(s, id, init);
      DistinctStep(Fates(s, id, init), Run(s, init), ev, id);
    }
  }

  /** Once woken by an insertion later than the back, with strictly increasing arrivals, what arrives for the
      subscriber is all of them. */
  lemma {:induction false} ArrivedNext(s: Store, id: nat, evs: seq<Event>)
    requires Subscribed(s, id, evs) && s.cursors[id] == MAX_TIME
    requires LaterThanBack(s, evs) && StrictlySorted(Arrivals(evs))
    ensures Fates(s, id, evs).arrived == Arrivals(evs)
    ensures Arrivals(evs) != [] ==> Fates(s, id, evs).start == Arrivals(evs)[0].time
  {
    if evs == [] {
      WaitingReadsNothing(s, id, |s.deque|);
    } else {
      hide Account, Apply, Enabled, Sound, Session, ValidRun, LaterThanBack, Pending, Kept, FoundEarlier,
           StrictlySorted;
      var init, ev := evs[..|evs| - 1], evs[|evs| - 1];
      assert evs == init + [ev];
      SubscribedPrefix(s, id, evs, |init|);
      LaterThanBackSnoc(s, init, ev);
      FatesKept(s, id, init);
      WokenByFirst(s, id, init);
      StrictPrefix(Arrivals(evs), Arrivals(init));
      ArrivedNext(s, id, init);
      ArrivedNextStep(Fates(s, id, init), Run(s, init), ev, id, Arrivals(init));
    }
  }

  lemma WokenAlone(s: Store, ev: Event, id: nat)
    requires Sound(s) && Enabled(s, ev) && ev.Insert? && FoundEarlier(s, ev.entry)
    requires id in s.cursors && s.cursors[id] == MAX_TIME
    ensures ev.after != [] && Last(ev.after) == ev.entry && From(ev.after, ev.entry.time) == [ev.entry]
  {
    hide From;
    WakingUp(s, id, ev.entry, ev.after);
  }

  lemma ArrivedNextStep(l: Ledger, s: Store, ev: Event, id: nat, arrivals: seq<Entry>)
    requires Sound(s) && Enabled(s, ev) && Continues(ev, id) && Kept(l, s, id)
    requires ev.Insert? ==> FoundEarlier(s, ev.entry)
    requires StrictlySorted(arrivals + Arriving(ev)) && l.arrived == arrivals
    requires s.cursors[id] == MAX_TIME <==> arrivals == []
    requires arrivals != [] ==> l.start == arrivals[0].time
    ensures Account(l, s, ev, id).arrived == arrivals + Arriving(ev)
    ensures arrivals + Arriving(ev) != [] ==> Account(l, s, ev, id).start == (arrivals + Arriving(ev))[0].time
  {
    hide Sound, From, Pending, Partitioned, InOrder;
    if ev.Insert? && s.cursors[id] == MAX_TIME {
      assert l.arrived == [];
      WokenAlone(s, ev, id);
    } else if ev.Insert? {
      LastIsLatest(arrivals + [ev.entry], arrivals, ev.entry, arrivals[0]);
    } else {
      assert arrivals + Arriving(ev) == arrivals;
    }
  }

  /** New picks only: a subscriber that waits for the next pick receives nothing before it, and then its cursor is
      a real time for good.  If each insertion is later than the back of the deque and no clean passes an unread
      entry, it receives exactly what is inserted after it subscribed, in order, if and only if the received times
      of the insertions strictly increase; the old deque may have any ties. */
  lemma NewPicksOnly(s: Store, id: nat, evs: seq<Event>)
    requires Subscribed(s, id, evs) && s.cursors[id] == MAX_TIME
    requires LaterThanBack(s, evs) && Undisturbed(s, id, evs)
    ensures id in Run(s, evs).cursors
    ensures Run(s, evs).cursors[id] == MAX_TIME <==> Arrivals(evs) == []
    ensures Fates(s, id, evs).delivered + Pending(Run(s, evs), id) == Arrivals(evs) <==>
            StrictlySorted(Arrivals(evs))
  {
    hide Pending, Account, Apply, Enabled, Session, Run, Fates, ValidRun, Subscribed, Undisturbed, LaterThanBack,
         Arrivals;
    WokenByFirst(s, id, evs);
    StreamStrict(s, id, evs);
    if StrictlySorted(Arrivals(evs)) {
      ArrivedNext(s, id, evs);
      NothingLost(s, id, evs);
    }
  }

  lemma StreamStrict(s: Store, id: nat, evs: seq<Event>)
    requires Subscribed(s, id, evs) && s.cursors[id] == MAX_TIME && LaterThanBack(s, evs)
    ensures StrictlySorted(Fates(s, id, evs).delivered + Pending(Run(s, evs), id))
  {
    hide From, Run, Fates, Partitioned;
    DistinctAlways(s, id, evs);
    FatesKept(s, id, evs);
    var end := Run(s, evs);
    FromMembers(end.deque, end.cursors[id]);
    StrictAppend(Fates(s, id, evs).delivered, Pending(end, id), end.cursors[id]);
  }

  /** The first insertion finds the deque empty or its back strictly earlier. */
  ghost predicate FirstLaterThanBack(s: Store, evs: seq<Event>) {
    forall k :: 0 <= k < |evs| && evs[k].Insert? && Arrivals(evs[..k]) == [] ==>
      FoundEarlier(Run(s, evs[..k]), evs[k].entry)
  }

  ghost predicate NoneAfter(d: seq<Entry>, t: int) {
    forall e :: e in d ==> e.time <= t
  }

  /** With strictly increasing insertions it is enough that the first one is later than the back: from then on no
      entry of the deque is later than the latest insertion. */
  lemma {:induction false} LaterFromFirst(s: Store, evs: seq<Event>)
    requires Sound(s) && ValidRun(s, evs) && StrictlySorted(Arrivals(evs)) && FirstLaterThanBack(s, evs)
    ensures LaterThanBack(s, evs)
    ensures Arrivals(evs) != [] ==> NoneAfter(Run(s, evs).deque, Last(Arrivals(evs)).time)
  {
    if evs == [] {
    } else {
      hide Apply, Enabled, Sound, StrictlySorted, FoundEarlier, NoneAfter, LaterThanBack, Run;
      var init, ev := evs[..|evs| - 1], evs[|evs| - 1];
      assert evs == init + [ev];
      FirstLaterSnoc(s, init, ev);
      StrictPrefix(Arrivals(evs), Arrivals(init));
      LaterFromFirst(s, init);
      RunSound(s, init);
      RunSnoc(s, init, ev);
      FirstLaterStep(Run(s, init), ev, Arrivals(init));
      LaterThanBackGrows(s, init, ev);
    }
  }

  lemma FirstLaterSnoc(s: Store, init: seq<Event>, ev: Event)
    requires FirstLaterThanBack(s, init + [ev])
    ensures FirstLaterThanBack(s, init)
    ensures ev.Insert? && Arrivals(init) == [] ==> FoundEarlier(Run(s, init), ev.entry)
  {
    hide Run, FoundEarlier, Arrivals;
    var evs := init + [ev];
    assert evs[..|init|] == init && evs[|init|] == ev;
    forall k | 0 <= k < |init| && init[k].Insert? && Arrivals(init[..k]) == []
      ensures FoundEarlier(Run(s, init[..k]), init[k].entry)
    {
      assert init[..k] == evs[..k] && init[k] == evs[k];
    }
  }

  lemma LaterThanBackGrows(s: Store, init: seq<Event>, ev: Event)
    requires LaterThanBack(s, init) && (ev.Insert? ==> FoundEarlier(Run(s, init), ev.entry))
    ensures LaterThanBack(s, init + [ev])
  {
    hide Run, FoundEarlier;
    var evs := init + [ev];
    forall k | 0 <= k < |evs| && evs[k].Insert? ensures FoundEarlier(Run(s, evs[..k]), evs[k].entry) {
      assert k < |init| ==> init[..k] == evs[..k] && init[k] == evs[k];
      assert k == |init| ==> evs[..k] == init;
    }
  }

  lemma FirstLaterStep(s: Store, ev: Event, arrivals: seq<Entry>)
    requires Sound(s) && Enabled(s, ev) && StrictlySorted(arrivals + Arriving(ev))
    requires arrivals != [] ==> NoneAfter(s.deque, Last(arrivals).time)
    requires ev.Insert? && arrivals == [] ==> FoundEarlier(s, ev.entry)
    ensures ev.Insert? ==> FoundEarlier(s, ev.entry)
    ensures var all := arrivals + Arriving(ev);
            all != [] ==> NoneAfter(Apply(s, ev).deque, Last(all).time)
  {
    match ev {
      case Insert(e, after) =>
        var all := arrivals + [e];
        assert arrivals != [] ==> Last(arrivals) == all[|arrivals| - 1] && all[|arrivals|] == e;
        assert s.deque != [] ==> Last(s.deque) in s.deque;
        assert after == s.deque + [e];
        forall x | x in after ensures x.time <= e.time {
          if x in s.deque {
            var i :| 0 <= i < |s.deque| && s.deque[i] == x;
          }
        }
      case Clean(cutoff) =>
        var k := CleanedIsSuffix(s.deque, s.capacity, cutoff);
        assert arrivals + [] == arrivals;
      case Read(_, _) => assert arrivals + [] == arrivals;
      case Subscribe(_, _) => assert arrivals + [] == arrivals;
      case Unsubscribe(_) => assert arrivals + [] == arrivals;
    }
  }

  /** So a waiting subscriber receives exactly what is inserted after it subscribed if the pick that wakes it is
      later than the back, received times strictly increase from there, and no clean passes an unread entry. */
  lemma NewPicksFromFirst(s: Store, id: nat, evs: seq<Event>)
    requires Subscribed(s, id, evs) && s.cursors[id] == MAX_TIME
    requires FirstLaterThanBack(s, evs) && StrictlySorted(Arrivals(evs)) && Undisturbed(s, id, evs)
    ensures id in Run(s, evs).cursors
    ensures Fates(s, id, evs).delivered + Pending(Run(s, evs), id) == Arrivals(evs)
  {
    hide Run, Fates, Pending, Undisturbed, LaterThanBack, FirstLaterThanBack, Arrivals;
    LaterFromFirst(s, evs);
    NewPicksOnly(s, id, evs);
  }
}
