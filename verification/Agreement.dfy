/** How subscriptions relate to each other: they do not disturb one another, and when they agree. */
module Agreement {
  import opened Picks
  import opened TimeOrder
  import opened StoreModel
  import opened StoreProperties
  import opened Sessions
  import opened Guarantees

  // ---- Non-interference -----------------------------------------------------------------------------------

  /** The events that can concern a subscription: its own and those of the deque. */
  predicate Concerns(ev: Event, id: nat) {
    ev.Clean? || ev.Insert? || ev.id == id
  }

  /** The run with everything other subscribers do left out. */
  function Alone(evs: seq<Event>, id: nat): seq<Event> {
    if evs == [] then []
    else
      var ev := evs[|evs| - 1];
      Alone(evs[..|evs| - 1], id) + if Concerns(ev, id) then [ev] else []
  }

  /** Two stores look the same to a subscriber. */
  predicate SameView(s: Store, t: Store, id: nat) {
    && s.deque == t.deque && s.capacity == t.capacity
    && id in s.cursors && id in t.cursors && s.cursors[id] == t.cursors[id]
  }

  lemma ConcernedStep(s: Store, t: Store, ev: Event, id: nat, l: Ledger)
    requires SameView(s, t, id) && Concerns(ev, id) && Continues(ev, id) && Enabled(s, ev)
    ensures Enabled(t, ev) && SameView(Apply(s, ev), Apply(t, ev), id)
    ensures Account(l, s, ev, id) == Account(l, t, ev, id)
  {
  }

  lemma OtherStep(s: Store, t: Store, ev: Event, id: nat, l: Ledger)
    requires SameView(s, t, id) && !Concerns(ev, id)
    ensures SameView(Apply(s, ev), t, id)
    ensures Account(l, s, ev, id) == l
  {
  }

  /** Other subscribers' subscriptions and reads never change what this one has received or will receive:
      leaving them out of the run gives a run with the same deque, the same cursor and the same fates. */
  lemma {:induction false} OthersInvisible(s: Store, id: nat, evs: seq<Event>)
    requires Subscribed(s, id, evs)
    ensures Subscribed(s, id, Alone(evs, id))
    ensures SameView(Run(s, evs), Run(s, Alone(evs, id)), id)
    ensures Fates(s, id, evs) == Fates(s, id, Alone(evs, id))
  {
    if evs == [] {
    } else {
      hide Account, Apply, Enabled, Sound, Pending, SameView, Run, ValidRun, Session, Fates;
      var init, ev := evs[..|evs| - 1], evs[|evs| - 1];
      assert evs == init + [ev];
      SubscribedPrefix(s, id, evs, |init|);
      SubscribedSnoc(s, id, init, ev);
      OthersInvisible(s, id, init);
      var alone := Alone(init, id);
      if Concerns(ev, id) {
        ConcernedStep(Run(s, init), Run(s, alone), ev, id, Fates(s, id, init));
        SubscribedSnoc(s, id, alone, ev);
      } else {
        assert alone + [] == alone;
        OtherStep(Run(s, init), Run(s, alone), ev, id, Fates(s, id, init));
      }
    }
  }

  // ---- Agreement ------------------------------------------------------------------------------------------

  predicate PrefixRelated(a: seq<Entry>, b: seq<Entry>) {
    a <= b || b <= a
  }

  lemma PrefixesOfOne(all: seq<Entry>, a: seq<Entry>, restA: seq<Entry>, b: seq<Entry>, restB: seq<Entry>)
    requires a + restA == all && b + restB == all
    ensures PrefixRelated(a, b)
  {
    assert a == all[..|a|] && b == all[..|b|];
  }

  /** What arrives for a subscription depends on its start alone. */
  lemma {:induction false} SameArrived(s: Store, a: nat, b: nat, evs: seq<Event>)
    requires Subscribed(s, a, evs) && Subscribed(s, b, evs) && s.cursors[a] == s.cursors[b]
    ensures a in Run(s, evs).cursors && b in Run(s, evs).cursors
    ensures Run(s, evs).cursors[a] == MAX_TIME <==> Run(s, evs).cursors[b] == MAX_TIME
    ensures Fates(s, a, evs).start == Fates(s, b, evs).start
    ensures Fates(s, a, evs).arrived == Fates(s, b, evs).arrived
  {
    if evs == [] {
    } else {
      hide Account, Apply, Enabled, Sound, Session, ValidRun;
      var init, ev := evs[..|evs| - 1], evs[|evs| - 1];
      SubscribedPrefix(s, a, evs, |init|);
      SubscribedPrefix(s, b, evs, |init|);
      SameArrived(s, a, b, init);
      WokenStep(Run(s, init), ev, a);
      WokenStep(Run(s, init), ev, b);
      SameArrivedStep(Fates(s, a, init), Fates(s, b, init), Run(s, init), ev, a, b);
    }
  }

  lemma SameArrivedStep(l: Ledger, k: Ledger, s: Store, ev: Event, a: nat, b: nat)
    requires a in s.cursors && b in s.cursors && (s.cursors[a] == MAX_TIME <==> s.cursors[b] == MAX_TIME)
    requires l.start == k.start && l.arrived == k.arrived
    ensures Account(l, s, ev, a).start == Account(k, s, ev, b).start
    ensures Account(l, s, ev, a).arrived == Account(k, s, ev, b).arrived
  {
  }

  /** Two subscriptions with the same start in the same store, both explicit or both waiting for the next pick:
      if the times of what arrives for them strictly increase, one of their streams is always a prefix of the
      other. */
  lemma SameStartAgrees(s: Store, a: nat, b: nat, evs: seq<Event>)
    requires Subscribed(s, a, evs) && Subscribed(s, b, evs) && s.cursors[a] == s.cursors[b]
    requires StrictlySorted(Fates(s, a, evs).arrived) && Undisturbed(s, a, evs) && Undisturbed(s, b, evs)
    ensures PrefixRelated(Fates(s, a, evs).delivered, Fates(s, b, evs).delivered)
  {
    hide Run, Fates, Pending, Undisturbed;
    SameArrived(s, a, b, evs);
    NothingLost(s, a, evs);
    NothingLost(s, b, evs);
    PrefixesOfOne(Fates(s, a, evs).arrived, Fates(s, a, evs).delivered, Pending(Run(s, evs), a),
                  Fates(s, b, evs).delivered, Pending(Run(s, evs), b));
  }

  /** The run of a first subscriber in which a second one joins after `before`. */
  function Joined(before: seq<Event>, b: nat, start: int, after: seq<Event>): seq<Event> {
    before + [Subscribe(b, start)] + after
  }

  /** `seen` read the stream from the beginning; `joined` starts after the entries `missed` are gone. */
  lemma PrefixUnlessMissed(missed: seq<Entry>, rest: seq<Entry>, seen: seq<Entry>, unseen: seq<Entry>,
                           joined: seq<Entry>, unread: seq<Entry>)
    requires StrictlySorted(missed + rest)
    requires seen + unseen == missed + rest && joined + unread == rest
    ensures PrefixRelated(seen, joined) <==> missed == [] || seen == [] || joined == []
  {
    if missed == [] {
      assert missed + rest == rest;
      PrefixesOfOne(rest, seen, unseen, joined, unread);
    } else if seen != [] && joined != [] {
      assert seen[0] == (missed + rest)[0];
      assert joined[0] == rest[0] == (missed + rest)[|missed|];
    }
  }

  /** The entries at or above a time that cleans have removed are the earlier part of those that ever arrived. */
  lemma RemovedIsPrefix(s: Store, evs: seq<Event>, start: int) returns (n: nat)
    requires Sound(s) && ValidRun(s, evs) && StrictlySorted(From(History(s, evs), start))
    ensures var h := From(History(s, evs), start);
            && n <= |h| && From(Run(s, evs).deque, start) == h[n..]
            && ((forall e :: e in Removed(s, evs) ==> e.time < start) <==> h[..n] == [])
  {
    n := RecentFrom(s, evs, start);
    var h, d := From(History(s, evs), start), Run(s, evs).deque;
    hide Run, ValidRun, Sound, Removed, Arrivals;
    SplitEntries(h, n);
    DequeConserved(s, evs);
    forall e: Entry | e.time >= start ensures multiset(h[..n])[e] == Removed(s, evs)[e] {
      RemovedCount(History(s, evs), d, Removed(s, evs), start, h[..n], e);
    }
    var early := h[..n];
    if early == [] {
      forall e | e in Removed(s, evs) ensures e.time < start {
        assert multiset(early)[e] == 0;
      }
    } else {
      var e := h[0];
      FromMembers(History(s, evs), start);
      assert e in h && e in h[..n] && e in multiset(h[..n]);
    }
  }

  lemma RemovedCount(h: seq<Entry>, d: seq<Entry>, removed: multiset<Entry>, t: int, early: seq<Entry>, e: Entry)
    requires multiset(h) == multiset(d) + removed && e.time >= t
    requires multiset(From(h, t)) == multiset(early) + multiset(From(d, t))
    ensures multiset(early)[e] == removed[e]
  {
    FromCount(h, t, e);
    FromCount(d, t, e);
  }

  /** Two subscriptions with the same start made at different moments agree in this way exactly when no entry at
      or above the start had been cleaned away before the second one subscribed, or every read of one of them so
      far found nothing pending. */
  lemma LateJoinerAgreesExactly(
    s: Store, a: nat, b: nat, before: seq<Event>, start: int, after: seq<Event>)
    requires Subscribed(s, a, Joined(before, b, start, after)) && s.cursors[a] == start != MAX_TIME
    requires Session(after, b)
    requires StrictlySorted(From(History(s, Joined(before, b, start, after)), start))
    requires Undisturbed(s, a, Joined(before, b, start, after))
    requires Undisturbed(Run(s, before + [Subscribe(b, start)]), b, after)
    ensures var join := Run(s, before + [Subscribe(b, start)]);
            && Subscribed(join, b, after)
            && var seen := Fates(s, a, Joined(before, b, start, after)).delivered;
               var joined := Fates(join, b, after).delivered;
               PrefixRelated(seen, joined) <==>
               || (forall e :: e in Removed(s, before) ==> e.time < start)
               || FoundNothing(s, a, Joined(before, b, start, after))
               || FoundNothing(join, b, after)
  {
    hide FoundNothing, Fates, Pending, From, Run, ValidRun, Arrivals, Removed, Undisturbed;
    var evs := Joined(before, b, start, after);
    var join := Run(s, before + [Subscribe(b, start)]);
    JoinIsRun(s, before, b, start, after);
    var n := JoinHistory(s, before, b, start, after);
    var h := From(History(s, evs), start);
    assert h == h[..n] + h[n..];
    StrictSuffix(h[..n], h[n..]);
    LosslessInOrder(s, a, evs);
    LosslessInOrder(join, b, after);
    NothingReceivedExactly(s, a, evs);
    NothingReceivedExactly(join, b, after);
    PrefixUnlessMissed(h[..n], h[n..], Fates(s, a, evs).delivered, Pending(Run(s, evs), a),
                       Fates(join, b, after).delivered, Pending(Run(join, after), b));
  }

  lemma JoinIsRun(s: Store, before: seq<Event>, b: nat, start: int, after: seq<Event>)
    requires Sound(s) && ValidRun(s, Joined(before, b, start, after)) && Session(after, b)
    ensures var join := Run(s, before + [Subscribe(b, start)]);
            && ValidRun(s, before) && join == Apply(Run(s, before), Subscribe(b, start))
            && Subscribed(join, b, after) && join.cursors[b] == start
  {
    var first := before + [Subscribe(b, start)];
    RunAppend(s, first, after);
    RunSnoc(s, before, Subscribe(b, start));
    RunSound(s, first);
  }

  /** What the second subscriber asked for is the later part of what the first one did. */
  lemma JoinHistory(s: Store, before: seq<Event>, b: nat, start: int, after: seq<Event>) returns (n: nat)
    requires Sound(s) && ValidRun(s, before)
    requires StrictlySorted(From(History(s, Joined(before, b, start, after)), start))
    ensures var h := From(History(s, Joined(before, b, start, after)), start);
            && n <= |h|
            && From(History(Run(s, before + [Subscribe(b, start)]), after), start) == h[n..]
            && ((forall e :: e in Removed(s, before) ==> e.time < start) <==> h[..n] == [])
  {
    hide From, Removed, Run, Sound, ValidRun, Arrivals;
    var join := Run(s, before + [Subscribe(b, start)]);
    var early, late := From(History(s, before), start), From(Arrivals(after), start);
    JoinArrivals(s, before, b, start, after);
    FromAppend(History(s, before), Arrivals(after), start);
    StrictPrefix(early + late, early);
    n := RemovedIsPrefix(s, before, start);
    JoinDeque(s, before, b, start);
    FromAppend(join.deque, Arrivals(after), start);
    LaterPart(early, late, n);
  }

  lemma JoinArrivals(s: Store, before: seq<Event>, b: nat, start: int, after: seq<Event>)
    ensures History(s, Joined(before, b, start, after)) == History(s, before) + Arrivals(after)
  {
    var first := before + [Subscribe(b, start)];
    ArrivalsAppend(first, after);
    ArrivalsAppend(before, [Subscribe(b, start)]);
    assert Arrivals([Subscribe(b, start)]) == [];
    assert Arrivals(before) + [] == Arrivals(before);
    Associative(s.deque, Arrivals(before), Arrivals(after));
  }

  lemma JoinDeque(s: Store, before: seq<Event>, b: nat, start: int)
    ensures Run(s, before + [Subscribe(b, start)]).deque == Run(s, before).deque
  {
    RunSnoc(s, before, Subscribe(b, start));
  }

  lemma LaterPart(a: seq<Entry>, b: seq<Entry>, n: nat)
    requires n <= |a|
    ensures (a + b)[n..] == a[n..] + b && (a + b)[..n] == a[..n]
  {
  }

  // ---- Two runs that disappoint ---------------------------------------------------------------------------

  /** A run whose end and account are known. */
  ghost predicate LeadsTo(s: Store, id: nat, evs: seq<Event>, t: Store, l: Ledger) {
    Subscribed(s, id, evs) && Run(s, evs) == t && Fates(s, id, evs) == l
  }

  lemma BeginsRun(s: Store, id: nat, l: Ledger)
    requires Sound(s) && id in s.cursors && l == Open(s, id)
    ensures LeadsTo(s, id, [], s, l)
  {
  }

  lemma Step(s: Store, id: nat, evs: seq<Event>, ev: Event, t: Store, l: Ledger, u: Store, k: Ledger)
    requires LeadsTo(s, id, evs, t, l) && Continues(ev, id)
    requires Enabled(t, ev) && u == Apply(t, ev) && k == Account(l, t, ev, id)
    ensures LeadsTo(s, id, evs + [ev], u, k)
  {
    hide Apply, Account, Enabled, Continues, Subscribed;
    SubscribedSnoc(s, id, evs, ev);
  }

  lemma ReadOne(t: Store, id: nat, x: Entry, l: Ledger)
    requires t.deque == [x] && id in t.cursors && t.cursors[id] <= x.time
    ensures Apply(t, Read(id, 1)) == t.(cursors := t.cursors[id := x.time + 1])
    ensures Account(l, t, Read(id, 1), id) == l.(delivered := l.delivered + [x])
  {
    assert From([x], t.cursors[id]) == [x];
    assert l.tied + multiset([]) == l.tied;
  }

  lemma CleanOne(t: Store, id: nat, x: Entry, l: Ledger, cutoff: int)
    requires t.deque == [x] && t.capacity == 1 && id in t.cursors && x.time < t.cursors[id] && x.time < cutoff
    ensures Apply(t, Clean(cutoff)) == t.(deque := [])
    ensures Account(l, t, Clean(cutoff), id) == l
    ensures Pending(t, id) == []
  {
    assert DropOlder([x], cutoff) == DropOlder([], cutoff) == [];
    assert From([x], t.cursors[id]) == [];
    assert l.evicted + multiset([]) == l.evicted;
  }

  lemma InsertFirst(t: Store, id: nat, x: Entry, l: Ledger)
    requires t.deque == [] && id in t.cursors && InRange(x)
    requires forall i :: i in t.cursors ==> t.cursors[i] != MAX_TIME
    ensures Enabled(t, Insert(x, [x]))
    ensures Apply(t, Insert(x, [x])) == t.(deque := [x])
    ensures Account(l, t, Insert(x, [x]), id).delivered == l.delivered
  {
    assert Woken(t.cursors, x.time) == t.cursors;
  }

  lemma WakeFirst(t: Store, id: nat, x: Entry, l: Ledger)
    requires t.deque == [] && t.cursors == map[id := MAX_TIME] && InRange(x)
    ensures Enabled(t, Insert(x, [x]))
    ensures Apply(t, Insert(x, [x])) == t.(deque := [x], cursors := map[id := x.time])
    ensures Account(l, t, Insert(x, [x]), id).delivered == l.delivered
  {
    assert Woken(t.cursors, x.time) == map[id := x.time];
  }

  /** The disagreement is real: the first subscriber reads a pick, a clean removes it, and a second subscriber
      with the same start then begins with the next pick. */
  lemma LateJoinerExample(p: Pick, q: Pick)
    ensures var x, y := Entry(5, p), Entry(9, q);
            var s := Store([x], map[0 := 5], 1, 1);
            var before, after := [Read(0, 1), Clean(6)], [Insert(y, [y]), Read(1, 1)];
            var evs, join := Joined(before, 1, 5, after), Run(s, before + [Subscribe(1, 5)]);
            && Subscribed(s, 0, evs) && Session(after, 1) && StrictlySorted(From(History(s, evs), 5))
            && Undisturbed(s, 0, evs) && Undisturbed(join, 1, after)
            && Subscribed(join, 1, after)
            && !PrefixRelated(Fates(s, 0, evs).delivered, Fates(join, 1, after).delivered)
  {
    hide Subscribed, Undisturbed, Run, Fates, From, History;
    var before, after := [Read(0, 1), Clean(6)], [Insert(Entry(9, q), [Entry(9, q)]), Read(1, 1)];
    FirstReads(p, q);
    SecondReads(p, q);
    assert before + [Subscribe(1, 5)] == [Read(0, 1), Clean(6), Subscribe(1, 5)];
    assert Joined(before, 1, 5, after) == [Read(0, 1), Clean(6), Subscribe(1, 5)] + after;
    assert [Entry(5, p)][0] != [Entry(9, q)][0];
  }

  const AT_JOIN := Store([], map[0 := 6, 1 := 5], 1, 1)

  /** What the first subscriber of the example meets. */
  lemma FirstReads(p: Pick, q: Pick)
    ensures var x, y := Entry(5, p), Entry(9, q);
            var s := Store([x], map[0 := 5], 1, 1);
            var first := [Read(0, 1), Clean(6), Subscribe(1, 5)];
            var evs := first + [Insert(y, [y]), Read(1, 1)];
            && Run(s, first) == AT_JOIN
            && Subscribed(s, 0, evs) && Fates(s, 0, evs).delivered == [x]
            && StrictlySorted(From(History(s, evs), 5)) && Undisturbed(s, 0, evs)
  {
    hide Apply, Account, Enabled, Run, Fates, Subscribed, From, Undisturbed, Arrivals;
    var x, y := Entry(5, p), Entry(9, q);
    var s := Store([x], map[0 := 5], 1, 1);
    var r, c, j, i := Read(0, 1), Clean(6), Subscribe(1, 5), Insert(y, [y]);
    var k := FirstUntilJoin(p);
    var l := Account(k, AT_JOIN, i, 0);
    InsertFirst(AT_JOIN, 0, y, k);
    Step(s, 0, [r, c, j], i, AT_JOIN, k, AT_JOIN.(deque := [y]), l);
    assert [r, c, j] + [i] == [r, c, j, i];
    OthersRead(AT_JOIN.(deque := [y]), 0, 1, l);
    Step(s, 0, [r, c, j, i], Read(1, 1), AT_JOIN.(deque := [y]), l, Apply(AT_JOIN.(deque := [y]), Read(1, 1)), l);
    var evs := [r, c, j] + [i, Read(1, 1)];
    assert [r, c, j, i] + [Read(1, 1)] == evs;
    FirstHistory(x, y, s, evs);
  }

  lemma OthersRead(t: Store, id: nat, other: nat, l: Ledger)
    requires id != other
    ensures Enabled(t, Read(other, 1)) && Account(l, t, Read(other, 1), id) == l
  {
  }

  lemma FirstUntilJoin(p: Pick) returns (k: Ledger)
    ensures LeadsTo(Store([Entry(5, p)], map[0 := 5], 1, 1), 0, [Read(0, 1), Clean(6), Subscribe(1, 5)], AT_JOIN, k)
    ensures k.delivered == [Entry(5, p)]
  {
    hide Account, Run, Fates, Subscribed, LeadsTo, From;
    var x := Entry(5, p);
    var s := Store([x], map[0 := 5], 1, 1);
    var l := Open(s, 0);
    k := l.(delivered := [x]);
    var read := Store([x], map[0 := 6], 1, 1);
    BeginsRun(s, 0, l);
    ReadOne(s, 0, x, l);
    Step(s, 0, [], Read(0, 1), s, l, read, k);
    assert [] + [Read(0, 1)] == [Read(0, 1)];
    CleanOne(read, 0, x, k, 6);
    Step(s, 0, [Read(0, 1)], Clean(6), read, k, Store([], map[0 := 6], 1, 1), k);
    assert [Read(0, 1)] + [Clean(6)] == [Read(0, 1), Clean(6)];
    SubscribesOther(Store([], map[0 := 6], 1, 1), 0, 1, 5, k);
    Step(s, 0, [Read(0, 1), Clean(6)], Subscribe(1, 5), Store([], map[0 := 6], 1, 1), k, AT_JOIN, k);
    assert [Read(0, 1), Clean(6)] + [Subscribe(1, 5)] == [Read(0, 1), Clean(6), Subscribe(1, 5)];
  }

  lemma SubscribesOther(t: Store, id: nat, other: nat, start: int, l: Ledger)
    requires id != other
    ensures Account(l, t, Subscribe(other, start), id) == l
  {
  }

  lemma FirstHistory(x: Entry, y: Entry, s: Store, evs: seq<Event>)
    requires x.time == 5 && y.time == 9 && s == Store([x], map[0 := 5], 1, 1)
    requires evs == [Read(0, 1), Clean(6), Subscribe(1, 5), Insert(y, [y]), Read(1, 1)]
    ensures StrictlySorted(From(History(s, evs), 5)) && Undisturbed(s, 0, evs)
  {
    hide Account, Enabled, Fates, ValidRun, Sound, Session;
    OneInsert(y, evs);
    hide Arrivals;
    FromAll([x, y], 5);
    assert evs[..1] == [Read(0, 1)] && [Read(0, 1)][..0] == [];
    ReadOne(s, 0, x, Open(s, 0));
    assert From([x], 6) == [];
    OnlyClean(s, 0, evs, 1);
  }

  lemma OneInsert(y: Entry, evs: seq<Event>)
    requires evs == [Read(0, 1), Clean(6), Subscribe(1, 5), Insert(y, [y]), Read(1, 1)]
    ensures Arrivals(evs) == [y]
  {
    var r, c, j, i := Read(0, 1), Clean(6), Subscribe(1, 5), Insert(y, [y]);
    var none: seq<Event> := [];
    assert Arrivals(none) == [];
    hide Arrivals;
    ArrivalsSnoc(none, r, [r]);
    ArrivalsSnoc([r], c, [r, c]);
    ArrivalsSnoc([r, c], j, [r, c, j]);
    ArrivalsSnoc([r, c, j], i, [r, c, j, i]);
    ArrivalsSnoc([r, c, j, i], Read(1, 1), evs);
  }

  lemma ArrivalsSnoc(init: seq<Event>, ev: Event, evs: seq<Event>)
    requires evs == init + [ev]
    ensures Arrivals(evs) == if ev.Insert? then Arrivals(init) + [ev.entry] else Arrivals(init)
  {
    assert evs[..|init|] == init;
    assert Arrivals(init) + [] == Arrivals(init);
  }

  lemma OnlyClean(s: Store, id: nat, evs: seq<Event>, k: nat)
    requires k < |evs| && Pending(Run(s, evs[..k]), id) == []
    requires forall i :: 0 <= i < |evs| && i != k ==> !evs[i].Clean?
    ensures Undisturbed(s, id, evs)
  {
    hide Run, Pending;
  }

  /** What the second subscriber of the example meets. */
  lemma SecondReads(p: Pick, q: Pick)
    ensures var y := Entry(9, q);
            var after := [Insert(y, [y]), Read(1, 1)];
            && Subscribed(AT_JOIN, 1, after) && Undisturbed(AT_JOIN, 1, after)
            && Fates(AT_JOIN, 1, after).delivered == [y]
  {
    hide Apply, Account, Enabled, Run, Fates, Subscribed, From;
    var y := Entry(9, q);
    var l := Open(AT_JOIN, 1);
    var t, i := AT_JOIN.(deque := [y]), Insert(y, [y]);
    var k := Account(l, AT_JOIN, i, 1);
    BeginsRun(AT_JOIN, 1, l);
    InsertFirst(AT_JOIN, 1, y, l);
    Step(AT_JOIN, 1, [], i, AT_JOIN, l, t, k);
    assert [] + [i] == [i];
    ReadOne(t, 1, y, k);
    OwnRead(t, 1);
    Step(AT_JOIN, 1, [i], Read(1, 1), t, k, Apply(t, Read(1, 1)), Account(k, t, Read(1, 1), 1));
    assert [i] + [Read(1, 1)] == [i, Read(1, 1)];
  }

  lemma OwnRead(t: Store, id: nat)
    ensures Enabled(t, Read(id, 1))
  {
  }

  /** Arriving later than the back of the deque is not enough to be received: once a clean has emptied the
      deque, an arrival can still be older than what the subscriber has already read. */
  lemma LaterThanBackNotEnough(p: Pick, q: Pick)
    ensures var x, y := Entry(9, p), Entry(5, q);
            var s := Store([], map[0 := MAX_TIME], 1, 1);
            var evs := [Insert(x, [x]), Read(0, 1), Clean(10), Insert(y, [y])];
            && Subscribed(s, 0, evs) && LaterThanBack(s, evs) && Undisturbed(s, 0, evs)
            && Arrivals(evs) == [x, y]
            && Fates(s, 0, evs).delivered + Pending(Run(s, evs), 0) == [x]
  {
    hide Apply, Account, Enabled, Run, Fates, Subscribed, From, Undisturbed, Arrivals, LaterThanBack;
    var x, y := Entry(9, p), Entry(5, q);
    var s := Store([], map[0 := MAX_TIME], 1, 1);
    var i, r, c, j := Insert(x, [x]), Read(0, 1), Clean(10), Insert(y, [y]);
    var emptied := Store([], map[0 := 10], 1, 1);
    var l := UntilEmptied(p);
    InsertFirst(emptied, 0, y, l);
    Step(s, 0, [i, r, c], j, emptied, l, emptied.(deque := [y]), Account(l, emptied, j, 0));
    var evs := [i, r, c, j];
    assert [i, r, c] + [j] == evs;
    assert evs[..3] == [i, r, c] && evs[..2] == [i, r];
    TwoArrivals(x, y, evs);
    LaterAtInserts(s, evs);
    OnlyClean(s, 0, evs, 2);
    NothingFrom(y, 10);
    assert [x] + [] == [x];
  }

  lemma NothingFrom(y: Entry, t: int)
    requires y.time < t
    ensures From([y], t) == []
  {
  }

  lemma TwoArrivals(x: Entry, y: Entry, evs: seq<Event>)
    requires evs == [Insert(x, [x]), Read(0, 1), Clean(10), Insert(y, [y])]
    ensures Arrivals(evs) == [x, y]
  {
    var i, r, c := Insert(x, [x]), Read(0, 1), Clean(10);
    var none: seq<Event> := [];
    assert Arrivals(none) == [];
    hide Arrivals;
    ArrivalsSnoc(none, i, [i]);
    ArrivalsSnoc([i], r, [i, r]);
    ArrivalsSnoc([i, r], c, [i, r, c]);
    ArrivalsSnoc([i, r, c], Insert(y, [y]), evs);
  }

  lemma LaterAtInserts(s: Store, evs: seq<Event>)
    requires |evs| == 4 && s.deque == [] && Run(s, evs[..3]).deque == []
    requires !evs[1].Insert? && !evs[2].Insert?
    ensures LaterThanBack(s, evs)
  {
    assert Run(s, evs[..0]) == s;
    hide Run;
  }

  lemma UntilEmptied(p: Pick) returns (l: Ledger)
    ensures var x, s := Entry(9, p), Store([], map[0 := MAX_TIME], 1, 1);
            && LeadsTo(s, 0, [Insert(x, [x]), Read(0, 1), Clean(10)], Store([], map[0 := 10], 1, 1), l)
            && Pending(Run(s, [Insert(x, [x]), Read(0, 1)]), 0) == []
    ensures l.delivered == [Entry(9, p)]
  {
    hide Apply, Account, Enabled, Fates, Subscribed, From;
    var x, s := Entry(9, p), Store([], map[0 := MAX_TIME], 1, 1);
    var i, r, c := Insert(x, [x]), Read(0, 1), Clean(10);
    var open := Open(s, 0);
    BeginsRun(s, 0, open);
    WakeFirst(s, 0, x, open);
    var woken, read := Store([x], map[0 := 9], 1, 1), Store([x], map[0 := 10], 1, 1);
    l := Account(open, s, i, 0);
    Step(s, 0, [], i, s, open, woken, l);
    assert [] + [i] == [i];
    ReadOne(woken, 0, x, l);
    OwnRead(woken, 0);
    l := l.(delivered := l.delivered + [x]);
    Step(s, 0, [i], r, woken, Account(open, s, i, 0), read, l);
    assert [i] + [r] == [i, r];
    CleanOne(read, 0, x, l, 10);
    CleanEnabled(read, 10);
    assert Run(s, [i, r]) == read;
    hide Run, LeadsTo, Pending;
    Step(s, 0, [i, r], c, read, l, Store([], map[0 := 10], 1, 1), l);
    assert [i, r] + [c] == [i, r, c];
  }

  lemma CleanEnabled(t: Store, cutoff: int)
    ensures Enabled(t, Clean(cutoff))
  {
  }
}
