/** The pick database: a table of received times and serialised picks, the picks unique. */
module Databases {
  import opened Wrappers
  import opened Picks
  import opened TimeOrder

  ghost predicate UniqueKeys(rows: seq<Entry>) {
    forall i, j :: 0 <= i < j < |rows| ==> rows[i].pick != rows[j].pick
  }

  predicate HasKey(rows: seq<Entry>, pick: Pick) {
    exists i :: 0 <= i < |rows| && rows[i].pick == pick
  }

  /** INSERT OR IGNORE on the unique pick column. */
  function InsertedOrIgnored(rows: seq<Entry>, e: Entry): seq<Entry> {
    if HasKey(rows, e.pick) then rows else rows + [e]
  }

  /** DELETE of the rows received before a time. */
  function DeletedBefore(rows: seq<Entry>, t: int): seq<Entry> {
    From(rows, t)
  }

  /** Inserting keeps picks unique; it adds the row exactly when the pick is not yet there. */
  lemma InsertKeepsUnique(rows: seq<Entry>, e: Entry)
    requires UniqueKeys(rows)
    ensures UniqueKeys(InsertedOrIgnored(rows, e))
    ensures HasKey(InsertedOrIgnored(rows, e), e.pick)
    ensures InsertedOrIgnored(rows, e) == rows <==> HasKey(rows, e.pick)
  {
    var after := InsertedOrIgnored(rows, e);
    if !HasKey(rows, e.pick) {
      assert after[|rows|] == e;
    }
  }

  /** Deleting keeps picks unique and removes exactly the older rows. */
  lemma {:induction false} DeleteKeepsUnique(rows: seq<Entry>, t: int)
    requires UniqueKeys(rows)
    ensures UniqueKeys(DeletedBefore(rows, t))
    ensures forall e :: e in DeletedBefore(rows, t) <==> e in rows && e.time >= t
  {
    FromMembers(rows, t);
    if rows == [] {
    } else {
      var rest := rows[1..];
      DeleteKeepsUnique(rest, t);
      FromMembers(rest, t);
      forall x | x in From(rest, t) ensures x.pick != rows[0].pick {
        var i :| 0 <= i < |rest| && rest[i] == x;
      }
    }
  }

  /** An old pick can be taken again exactly when its row has been deleted. */
  lemma TakenAgainOnceDeleted(rows: seq<Entry>, e: Entry, t: int)
    requires UniqueKeys(rows) && e in rows
    ensures HasKey(DeletedBefore(rows, t), e.pick) <==> e.time >= t
  {
    DeleteKeepsUnique(rows, t);
    var left := DeletedBefore(rows, t);
    if e.time >= t {
      assert e in left;
      var i :| 0 <= i < |left| && left[i] == e;
      assert left[i].pick == e.pick;
    } else {
      forall i | 0 <= i < |left| ensures left[i].pick != e.pick {
        assert left[i] in left;
        var j :| 0 <= j < |rows| && rows[j] == left[i];
        var k :| 0 <= k < |rows| && rows[k] == e;
        assert j != k;
      }
    }
  }

  /** What a scan in order of received time yields in so many steps: the earliest rows, or all. */
  ghost predicate Yields(rows: seq<Entry>, steps: nat, yielded: seq<Entry>) {
    exists ordered :: IsSorting(rows, ordered) && yielded == ordered[..Min(steps, |ordered|)]
  }

  predicate Readable(rows: seq<Entry>, corrupt: set<Pick>) {
    forall i :: 0 <= i < |rows| ==> rows[i].pick !in corrupt
  }

  /** Enough steps yield all rows; in any case only rows of the table are yielded. */
  lemma YieldedRows(rows: seq<Entry>, steps: nat, yielded: seq<Entry>)
    requires Yields(rows, steps, yielded)
    ensures Sorted(yielded) && forall e :: e in yielded ==> e in rows
    ensures steps >= |rows| ==> IsSorting(rows, yielded)
  {
    var ordered :| IsSorting(rows, ordered) && yielded == ordered[..Min(steps, |ordered|)];
    SortingMembers(rows, ordered);
    assert |ordered| == |multiset(ordered)| == |multiset(rows)| == |rows|;
    assert ordered[..|ordered|] == ordered;
  }

  class Database {
    var rows: seq<Entry>
    var isOpen: bool

    ghost predicate Valid()
      reads this
    {
      UniqueKeys(rows)
    }

    /** An open database, over no rows if its table was just created and over the rows on disk otherwise. */
    constructor (createSchema: bool, stored: seq<Entry>)
      requires UniqueKeys(stored)
      ensures Valid() && isOpen && rows == if createSchema then [] else stored
    {
      rows := if createSchema then [] else stored;
      isOpen := true;
    }

    /** Opens a database file.  `present` says whether the file exists; the flags after it say whether the file
        system and the engine do what they are asked to. */
    static method Open(create: bool, present: bool, removes: bool, makesDirectory: bool, opens: bool,
                       createsTable: bool, stored: seq<Entry>) returns (r: Result<Database, Error>)
      requires UniqueKeys(stored)
      ensures r.Success? <==>
              && (create && present ==> removes)
              && opens
              && (create || !present ==> makesDirectory && createsTable)
      ensures r.Failure? ==> r.error.RuntimeError?
      ensures r.Success? ==>
                && fresh(r.value) && r.value.Valid() && r.value.isOpen
                && r.value.rows == if present && !create then stored else []
    {
      var createSchema := false;
      if create {
        if present {
          if !removes {
            return Failure(RuntimeError("Failed to delete existing database"));
          }
        }
        createSchema := true;
      } else {
        createSchema := !present;
      }
      if createSchema && !makesDirectory {
        return Failure(RuntimeError("Failed to create directory"));
      }
      if !opens {
        return Failure(RuntimeError("Failed to open database"));
      }
      if createSchema && !createsTable {
        return Failure(RuntimeError("Failed to create picks table"));
      }
      var database := new Database(createSchema, stored);
      return Success(database);
    }

    /** `fails` stands for an error of the serialiser or of the database engine. */
    method Add(receivedTime: int, pick: Pick, fails: bool) returns (r: Result<(), Error>)
      requires Valid()
      modifies this`rows
      ensures Valid()
      ensures var e := Entry(receivedTime, pick);
              && (r.Failure? ==> rows == old(rows))
              && (r.Success? ==> rows == old(rows) + [e])
              && (r.Success? <==>
                  && pick.streamIdentifier.Some? && pick.time.Some? && pick.algorithm.Some?
                  && isOpen && !fails && !HasKey(old(rows), pick))
              && (r == Failure(DuplicatePick) <==>
                  && pick.streamIdentifier.Some? && pick.time.Some? && pick.algorithm.Some?
                  && isOpen && !fails && HasKey(old(rows), pick))
      ensures r.Failure? ==>
                (r.error.InvalidArgument? <==>
                 pick.streamIdentifier.None? || pick.time.None? || pick.algorithm.None?)
      ensures r.Success? || r == Failure(DuplicatePick) ==>
                rows == InsertedOrIgnored(old(rows), Entry(receivedTime, pick))
    {
      if pick.streamIdentifier.None? {
        return Failure(InvalidArgument("Stream identifier not set"));
      }
      if pick.time.None? {
        return Failure(InvalidArgument("Pick time not set"));
      }
      if pick.algorithm.None? {
        return Failure(InvalidArgument("Algorithm not set"));
      }
      if !isOpen {
        return Failure(RuntimeError("Database not open"));
      }
      if fails {
        return Failure(RuntimeError("Failed to insert pick"));
      }
      InsertKeepsUnique(rows, Entry(receivedTime, pick));
      var before := |rows|;
      rows := InsertedOrIgnored(rows, Entry(receivedTime, pick));
      var changes := |rows| - before;
      if changes == 0 {
        return Failure(DuplicatePick);
      }
      return Success(());
    }

    /** The rows in order of received time; the engine may return equal times in any order.  `prepares` says
        whether it accepts the statement, `steps` how many rows it yields before a step that fails, which ends the
        loop as the end of the table does, and `corrupt` are the picks that cannot be parsed. */
    method Load(prepares: bool, steps: nat, corrupt: set<Pick>)
      returns (r: Result<seq<Entry>, Error>, ghost yielded: seq<Entry>)
      ensures isOpen && prepares ==> Yields(rows, steps, yielded)
      ensures r.Success? <==> isOpen && prepares && Readable(yielded, corrupt)
      ensures r.Success? ==> r.value == yielded
      ensures r.Failure? ==> r.error.RuntimeError?
    {
      yielded := [];
      if !isOpen {
        return Failure(RuntimeError("Database not open")), yielded;
      }
      if !prepares {
        return Failure(RuntimeError("Failed to prepare load statement")), yielded;
      }
      var selected := SortByTime(rows);
      var available := if steps < |selected| then steps else |selected|;
      yielded := selected[..available];
      var result := [];
      for i := 0 to available
        invariant result == selected[..i]
        invariant forall j :: 0 <= j < i ==> selected[j].pick !in corrupt
      {
        if selected[i].pick in corrupt {
          assert yielded[i] == selected[i];
          return Failure(RuntimeError("Failed to parse pick proto from database")), yielded;
        }
        result := result + [selected[i]];
      }
      return Success(result), yielded;
    }

    /** `prepares` says whether the engine accepts the statement and `completes` whether it carries it out; if it
        does not, the count it reports is `earlierChanges`, that of the statement before. */
    method DeletePicksBefore(time: int, prepares: bool, completes: bool, earlierChanges: int)
      returns (r: Result<int, Error>)
      requires Valid()
      modifies this`rows
      ensures Valid()
      ensures r.Success? <==> isOpen && prepares
      ensures r.Failure? ==> r.error.RuntimeError?
      ensures r.Success? && completes ==>
                rows == DeletedBefore(old(rows), time) && r.value == |Below(old(rows), time)|
      ensures r.Failure? || !completes ==> rows == old(rows)
      ensures r.Success? && !completes ==> r.value == earlierChanges
    {
      if !isOpen {
        return Failure(RuntimeError("Database not open"));
      }
      if !prepares {
        return Failure(RuntimeError("Failed to prepare delete statement"));
      }
      var nDeleted := earlierChanges;
      if completes {
        DeleteKeepsUnique(rows, time);
        PartSizes(rows, time);
        nDeleted := |rows|;
        rows := DeletedBefore(rows, time);
        nDeleted := nDeleted - |rows|;
      }
      return Success(nDeleted);
    }

    method Close()
      modifies this`isOpen
      ensures !isOpen
    {
      if isOpen {
        isOpen := false;
      }
    }
  }

  lemma {:induction false} PartSizes(d: seq<Entry>, t: int)
    ensures |From(d, t)| + |Below(d, t)| == |d|
  {
    if d == [] {
    } else {
      PartSizes(d[1..], t);
    }
  }
}
