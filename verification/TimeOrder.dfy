/** Sequences of entries seen along the time axis: sorting them, and the part of a sequence at or above a time. */
module TimeOrder {
  import opened Picks

  predicate Sorted(d: seq<Entry>) {
    forall i, j :: 0 <= i < j < |d| ==> d[i].time <= d[j].time
  }

  predicate StrictlySorted(d: seq<Entry>) {
    forall i, j :: 0 <= i < j < |d| ==> d[i].time < d[j].time
  }

  /** What `std::sort` by time promises; it says nothing about the order of entries with equal times. */
  ghost predicate IsSorting(d: seq<Entry>, sorted: seq<Entry>) {
    Sorted(sorted) && multiset(sorted) == multiset(d)
  }

  /** Stands for the library sort; callers may rely on `IsSorting` alone. */
  method SortByTime(d: seq<Entry>) returns (sorted: seq<Entry>)
    ensures IsSorting(d, sorted)
  {
    sorted := [];
    for i := 0 to |d|
      invariant IsSorting(d[..i], sorted)
    {
      assert d[..i + 1] == d[..i] + [d[i]];
      sorted := InsertInOrder(sorted, d[i]);
    }
    assert d[..|d|] == d;
  }

  method InsertInOrder(sorted: seq<Entry>, e: Entry) returns (r: seq<Entry>)
    requires Sorted(sorted)
    ensures Sorted(r) && multiset(r) == multiset(sorted) + multiset{e}
  {
    var j := |sorted|;
    while j > 0 && sorted[j - 1].time > e.time
      invariant 0 <= j <= |sorted|
      invariant forall k :: j <= k < |sorted| ==> sorted[k].time > e.time
    {
      j := j - 1;
    }
    InsertAt(sorted, j, e);
    r := sorted[..j] + [e] + sorted[j..];
  }

  lemma SplitEntries(s: seq<Entry>, j: nat)
    requires j <= |s|
    ensures multiset(s) == multiset(s[..j]) + multiset(s[j..])
  {
    assert s == s[..j] + s[j..];
  }

  lemma InsertAt(s: seq<Entry>, j: nat, e: Entry)
    requires Sorted(s) && j <= |s|
    requires j > 0 ==> s[j - 1].time <= e.time
    requires forall k :: j <= k < |s| ==> s[k].time > e.time
    ensures Sorted(s[..j] + [e] + s[j..])
    ensures multiset(s[..j] + [e] + s[j..]) == multiset(s) + multiset{e}
  {
    SplitEntries(s, j);
    InsertAtSorted(s, j, e);
  }

  lemma InsertAtSorted(s: seq<Entry>, j: nat, e: Entry)
    requires Sorted(s) && j <= |s|
    requires j > 0 ==> s[j - 1].time <= e.time
    requires forall k :: j <= k < |s| ==> s[k].time > e.time
    ensures Sorted(s[..j] + [e] + s[j..])
  {
    var r := s[..j] + [e] + s[j..];
    forall a, b | 0 <= a < b < |r| ensures r[a].time <= r[b].time {
      assert a < j ==> r[a] == s[a] && s[a].time <= e.time;
      assert a > j ==> r[a] == s[a - 1];
      assert b < j ==> r[b] == s[b];
      assert b > j ==> r[b] == s[b - 1];
    }
  }

  /** The entries at or above a time, in order. */
  function From(d: seq<Entry>, t: int): seq<Entry> {
    if d == [] then [] else (if d[0].time >= t then [d[0]] else []) + From(d[1..], t)
  }

  /** The entries below a time, in order. */
  function Below(d: seq<Entry>, t: int): seq<Entry> {
    if d == [] then [] else (if d[0].time < t then [d[0]] else []) + Below(d[1..], t)
  }

  /** The entries exactly at a time, in order. */
  function At(d: seq<Entry>, t: int): seq<Entry> {
    Below(From(d, t), t + 1)
  }

  /** What is left once entries older than a time have been popped off the front. */
  function DropOlder(d: seq<Entry>, t: int): seq<Entry> {
    if d != [] && d[0].time < t then DropOlder(d[1..], t) else d
  }

  // ---- Counting -------------------------------------------------------------------------------------------

  lemma {:induction false} FromCount(d: seq<Entry>, t: int, e: Entry)
    ensures multiset(From(d, t))[e] == if e.time >= t then multiset(d)[e] else 0
  {
    if d == [] {
    } else {
      FromCount(d[1..], t, e);
      assert d == [d[0]] + d[1..];
    }
  }

  lemma {:induction false} BelowCount(d: seq<Entry>, t: int, e: Entry)
    ensures multiset(Below(d, t))[e] == if e.time < t then multiset(d)[e] else 0
  {
    if d == [] {
    } else {
      BelowCount(d[1..], t, e);
      assert d == [d[0]] + d[1..];
    }
  }

  lemma AtCount(d: seq<Entry>, t: int, e: Entry)
    ensures multiset(At(d, t))[e] == if e.time == t then multiset(d)[e] else 0
  {
    BelowCount(From(d, t), t + 1, e);
    FromCount(d, t, e);
  }

  lemma SplitAtTime(d: seq<Entry>, t: int)
    ensures multiset(d) == multiset(From(d, t)) + multiset(Below(d, t))
  {
    forall e: Entry ensures multiset(d)[e] == (multiset(From(d, t)) + multiset(Below(d, t)))[e] {
      FromCount(d, t, e);
      BelowCount(d, t, e);
    }
  }

  lemma SortingMembers(d: seq<Entry>, sorted: seq<Entry>)
    requires IsSorting(d, sorted)
    ensures forall e :: e in sorted <==> e in d
  {
    forall e ensures e in sorted <==> e in d {
      assert e in sorted <==> e in multiset(sorted);
      assert e in d <==> e in multiset(d);
    }
  }

  lemma FewerFrom(d: seq<Entry>, t: int)
    ensures multiset(From(d, t)) <= multiset(d)
  {
    forall e: Entry ensures multiset(From(d, t))[e] <= multiset(d)[e] {
      FromCount(d, t, e);
    }
  }

  lemma FromMembers(d: seq<Entry>, t: int)
    ensures forall e :: e in From(d, t) <==> e in d && e.time >= t
  {
    forall e ensures e in From(d, t) <==> e in d && e.time >= t {
      FromCount(d, t, e);
      assert e in From(d, t) <==> e in multiset(From(d, t));
      assert e in d <==> e in multiset(d);
    }
  }

  /** Two sequences with the same entries have the same entries at or above any time. */
  lemma FromSameEntries(a: seq<Entry>, b: seq<Entry>, t: int)
    requires multiset(a) == multiset(b)
    ensures multiset(From(a, t)) == multiset(From(b, t))
  {
    forall e: Entry ensures multiset(From(a, t))[e] == multiset(From(b, t))[e] {
      FromCount(a, t, e);
      FromCount(b, t, e);
    }
  }

  lemma Associative(a: seq<Entry>, b: seq<Entry>, c: seq<Entry>)
    ensures (a + b) + c == a + (b + c)
  {
  }

  lemma {:induction false} FromAppend(a: seq<Entry>, b: seq<Entry>, t: int)
    ensures From(a + b, t) == From(a, t) + From(b, t)
  {
    if a == [] {
      assert a + b == b;
    } else {
      FromAppend(a[1..], b, t);
      assert (a + b)[1..] == a[1..] + b;
      Associative(if a[0].time >= t then [a[0]] else [], From(a[1..], t), From(b, t));
    }
  }

  lemma Cancel(a: multiset<Entry>, b: multiset<Entry>, c: multiset<Entry>)
    requires a + b == c + a
    ensures b == c
  {
    assert b == (a + b) - a && c == (c + a) - a;
  }

  // ---- Sorted sequences -----------------------------------------------------------------------------------

  /** In a sorted sequence the entries at or above a time are a suffix. */
  lemma {:induction false} FromIsSuffix(d: seq<Entry>, t: int) returns (k: nat)
    requires Sorted(d)
    ensures k <= |d| && From(d, t) == d[k..]
    ensures forall i :: 0 <= i < k ==> d[i].time < t
    ensures forall i :: k <= i < |d| ==> d[i].time >= t
  {
    if d == [] {
      k := 0;
    } else if d[0].time >= t {
      k := 0;
      FromAll(d, t);
    } else {
      var tail := FromIsSuffix(d[1..], t);
      k := tail + 1;
      hide Sorted;
      SuffixBehind(d, tail, t);
      hide From;
    }
  }

  lemma SuffixBehind(d: seq<Entry>, n: nat, t: int)
    requires d != [] && d[0].time < t && n <= |d[1..]| && From(d[1..], t) == d[1..][n..]
    requires forall i :: 0 <= i < n ==> d[1..][i].time < t
    requires forall i :: n <= i < |d[1..]| ==> d[1..][i].time >= t
    ensures From(d, t) == d[n + 1..]
    ensures forall i :: 0 <= i < n + 1 ==> d[i].time < t
    ensures forall i :: n + 1 <= i < |d| ==> d[i].time >= t
  {
    assert From(d, t) == From(d[1..], t);
    hide From;
    assert d[1..][n..] == d[n + 1..];
    forall i | 1 <= i < |d| ensures d[i].time < t <==> i < n + 1 {
      assert d[i] == d[1..][i - 1];
    }
  }

  lemma FromSorted(d: seq<Entry>, t: int)
    requires Sorted(d)
    ensures Sorted(From(d, t))
  {
    var k := FromIsSuffix(d, t);
  }

  lemma {:induction false} FromAll(d: seq<Entry>, t: int)
    requires forall i :: 0 <= i < |d| ==> d[i].time >= t
    ensures From(d, t) == d
  {
    if d == [] {
    } else {
      FromAll(d[1..], t);
      assert d == [d[0]] + d[1..];
    }
  }

  lemma {:induction false} FromNone(d: seq<Entry>, t: int)
    requires forall i :: 0 <= i < |d| ==> d[i].time < t
    ensures From(d, t) == []
  {
    if d == [] {
    } else {
      FromNone(d[1..], t);
    }
  }

  lemma {:induction false} FromSkips(d: seq<Entry>, k: nat, t: int)
    requires k <= |d| && forall i :: 0 <= i < k ==> d[i].time < t
    ensures From(d, t) == From(d[k..], t)
  {
    if k == 0 {
      assert d[0..] == d;
    } else {
      FromSkips(d[1..], k - 1, t);
      assert d[1..][k - 1..] == d[k..];
    }
  }

  lemma {:induction false} FromFrom(d: seq<Entry>, t: int, u: int)
    ensures From(From(d, t), u) == From(d, Max(t, u))
  {
    if d == [] {
    } else {
      FromFrom(d[1..], t, u);
      if d[0].time >= t {
        FromAppend([d[0]], From(d[1..], t), u);
        assert From([d[0]], u) == if d[0].time >= u then [d[0]] else [];
      } else {
        assert From(d, t) == From(d[1..], t);
      }
    }
  }

  /** On a sorted sequence, popping older entries off the front leaves exactly the entries at or above. */
  lemma {:induction false} DropOlderIsFrom(d: seq<Entry>, t: int)
    requires Sorted(d)
    ensures DropOlder(d, t) == From(d, t)
  {
    if d == [] {
    } else {
      if d[0].time < t {
        DropOlderIsFrom(d[1..], t);
      } else {
        FromAll(d, t);
      }
    }
  }

  lemma SameHead(a: seq<Entry>, b: seq<Entry>)
    requires StrictlySorted(a) && Sorted(b) && multiset(a) == multiset(b)
    requires a != [] && b != []
    ensures a[0] == b[0]
  {
    assert a[0] in multiset(b) && b[0] in multiset(a);
    var i :| 0 <= i < |a| && a[i] == b[0];
    var j :| 0 <= j < |b| && b[j] == a[0];
    assert i > 0 ==> a[0].time < a[i].time;
    assert j > 0 ==> b[0].time <= b[j].time;
  }

  /** Distinct times pin the order: a strictly sorted sequence is the only sorting of its entries. */
  lemma {:induction false} SortingUnique(a: seq<Entry>, b: seq<Entry>)
    requires StrictlySorted(a) && Sorted(b) && multiset(a) == multiset(b)
    ensures a == b
  {
    assert |a| == |multiset(a)| == |multiset(b)| == |b|;
    if a == [] {
    } else {
      SameHead(a, b);
      assert a == [a[0]] + a[1..] && b == [b[0]] + b[1..];
      assert multiset(a[1..]) == multiset(a) - multiset{a[0]};
      assert multiset(b[1..]) == multiset(b) - multiset{b[0]};
      SortingUnique(a[1..], b[1..]);
    }
  }

  // ---- Distinct times -------------------------------------------------------------------------------------

  lemma StrictPrefix(all: seq<Entry>, before: seq<Entry>)
    requires StrictlySorted(all) && before <= all
    ensures StrictlySorted(before)
  {
    forall i, j | 0 <= i < j < |before| ensures before[i].time < before[j].time {
      assert before[i] == all[i] && before[j] == all[j];
    }
  }

  lemma StrictSuffix(a: seq<Entry>, b: seq<Entry>)
    requires StrictlySorted(a + b)
    ensures StrictlySorted(b)
  {
    forall i, j | 0 <= i < j < |b| ensures b[i].time < b[j].time {
      assert b[i] == (a + b)[|a| + i] && b[j] == (a + b)[|a| + j];
    }
  }

  lemma StrictAppend(a: seq<Entry>, b: seq<Entry>, t: int)
    requires StrictlySorted(a) && StrictlySorted(b)
    requires forall e :: e in a ==> e.time < t
    requires forall e :: e in b ==> e.time >= t
    ensures StrictlySorted(a + b)
  {
  }

  lemma FromStrict(d: seq<Entry>, t: int)
    requires StrictlySorted(d)
    ensures StrictlySorted(From(d, t))
  {
    var k := FromIsSuffix(d, t);
  }

  lemma TwoCopies(d: seq<Entry>, i: nat, j: nat)
    requires i < j < |d|
    ensures d[i] == d[j] ==> multiset(d)[d[i]] >= 2
  {
    SplitEntries(d, j);
    assert d[i] == d[..j][i] && d[j] == d[j..][0];
    assert d[i] in multiset(d[..j]) && d[j] in multiset(d[j..]);
  }

  lemma {:induction false} StrictOnce(d: seq<Entry>, e: Entry)
    requires StrictlySorted(d)
    ensures multiset(d)[e] <= 1
  {
    if d == [] {
    } else {
      StrictOnce(d[1..], e);
      assert d == [d[0]] + d[1..];
      assert forall i :: 0 <= i < |d[1..]| ==> d[1..][i].time > d[0].time;
    }
  }

  /** A sorted choice of entries with distinct times has distinct times. */
  lemma ChoiceStrict(p: seq<Entry>, all: seq<Entry>)
    requires Sorted(p) && StrictlySorted(all) && multiset(p) <= multiset(all)
    ensures StrictlySorted(p)
  {
    forall i, j | 0 <= i < j < |p| ensures p[i].time < p[j].time {
      assert p[i] in multiset(p) && p[j] in multiset(p);
      var m :| 0 <= m < |all| && all[m] == p[i];
      var n :| 0 <= n < |all| && all[n] == p[j];
      TwoCopies(p, i, j);
      StrictOnce(all, p[i]);
      assert m != n;
    }
  }
}
