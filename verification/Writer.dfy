/** The loop that sends picks to one subscriber: it refills its queue from the store, keeps one write outstanding
    and pops the queue when the write completes. */
module Writers {
  import opened Wrappers
  import opened Picks
  import opened StoreModel
  import opened PickStores

  /** How many picks are fetched at a time. */
  const MAXIMUM_QUEUE_SIZE: nat := 32

  datatype Status =
    Cancelled | Okay | UnknownError | Unavailable | ResourceExhausted | Unauthenticated | Internal

  /** What the writer asks of the RPC. */
  datatype Call = StartWrite(pick: Pick) | Finish(status: Status)

  /** Who has control: the polling loop, the RPC that is to report a completed write, or nobody any more. */
  datatype Phase = Polling | AwaitingWrite | Closed

  datatype Writer = Writer(
    queue: seq<Pick>, writeInProgress: bool, registered: bool, phase: Phase,
    // History: the calls issued and the picks fetched from the store.
    calls: seq<Call>, fetched: seq<Pick>)

  /** What one turn of the polling loop observes: the server's flag, the RPC's cancellation, and the latter once
      more after leaving the loop. */
  datatype Poll = Poll(keepRunning: bool, cancelled: bool, cancelledAtExit: bool)

  datatype Turn =
    | Polled(poll: Poll, chunk: seq<Pick>)
    | WriteDone(ok: bool, keepRunning: bool, cancelled: bool)
    | CancelSeen
    | Done

  function Closing(w: Writer, status: Status): Writer {
    w.(phase := Closed, calls := w.calls + [Finish(status)])
  }

  /** Whether a turn of the loop goes to the store for more. */
  predicate Fetches(w: Writer, poll: Poll) {
    w.phase.Polling? && poll.keepRunning && !poll.cancelled && w.queue == []
  }

  function Polls(w: Writer, poll: Poll, chunk: seq<Pick>): Writer {
    if !poll.keepRunning || poll.cancelled then Closing(w, if poll.cancelledAtExit then Cancelled else Okay)
    else if w.queue != [] && !w.writeInProgress then
      w.(writeInProgress := true, phase := AwaitingWrite, calls := w.calls + [StartWrite(w.queue[0])])
    else if w.queue == [] then w.(queue := chunk, fetched := w.fetched + chunk)
    else w
  }

  function Completes(w: Writer, ok: bool, keepRunning: bool, cancelled: bool): Writer {
    if !ok then Closing(w, if cancelled then Cancelled else UnknownError)
    else if !keepRunning then Closing(w, Unavailable)
    else w.(writeInProgress := false, queue := if w.queue == [] then [] else w.queue[1..], phase := Polling)
  }

  function Move(w: Writer, t: Turn): Writer {
    match t
    case Polled(poll, chunk) => Polls(w, poll, chunk)
    case WriteDone(ok, keepRunning, cancelled) => Completes(w, ok, keepRunning, cancelled)
    case CancelSeen => w.(registered := false)
    case Done => w.(registered := false)
  }

  /** The loop runs while it has control; the RPC reports each started write once, cancellations at any time, and
      the end after `Finish`. */
  predicate Allowed(w: Writer, t: Turn) {
    match t
    case Polled(_, chunk) => w.phase.Polling? && |chunk| <= MAXIMUM_QUEUE_SIZE
    case WriteDone(_, _, _) => w.phase.AwaitingWrite?
    case CancelSeen => true
    case Done => w.phase.Closed?
  }

  const FRESH := Writer([], false, true, Polling, [], [])

  // ---- What every turn keeps ------------------------------------------------------------------------------

  /** The picks handed to `StartWrite`, in order. */
  function StartedPicks(calls: seq<Call>): seq<Pick> {
    if calls == [] then []
    else
      var c := calls[|calls| - 1];
      StartedPicks(calls[..|calls| - 1]) + if c.StartWrite? then [c.pick] else []
  }

  /** The queued picks whose write has not been started. */
  function Unstarted(w: Writer): seq<Pick> {
    if w.writeInProgress && w.queue != [] then w.queue[1..] else w.queue
  }

  /** `Finish` is the last call if it is one at all, and then nobody has control any more. */
  ghost predicate FinishedOnce(w: Writer) {
    && (forall i :: 0 <= i < |w.calls| && w.calls[i].Finish? ==> i == |w.calls| - 1)
    && (w.phase.Closed? <==> w.calls != [] && w.calls[|w.calls| - 1].Finish?)
  }

  /** One write at most is outstanding, and it is of the pick at the front of the queue. */
  ghost predicate FrontIsWritten(w: Writer) {
    && (w.phase.AwaitingWrite? ==> w.writeInProgress)
    && (w.phase.Polling? ==> !w.writeInProgress)
    && (w.writeInProgress ==>
        && w.queue != [] && StartedPicks(w.calls) != []
        && StartedPicks(w.calls)[|StartedPicks(w.calls)| - 1] == w.queue[0])
  }

  /** What was started and what is still to be started is what was fetched. */
  ghost predicate NothingDropped(w: Writer) {
    StartedPicks(w.calls) + Unstarted(w) == w.fetched
  }

  /** What holds of every writer, refused subscribers included. */
  ghost predicate Steady(w: Writer) {
    FrontIsWritten(w) && NothingDropped(w) && |w.queue| <= MAXIMUM_QUEUE_SIZE
  }

  /** What holds in addition for a subscriber that was not refused. */
  ghost predicate Orderly(w: Writer) {
    FinishedOnce(w) && Steady(w)
  }

  lemma StartedSnoc(calls: seq<Call>, c: Call)
    ensures StartedPicks(calls + [c]) == StartedPicks(calls) + if c.StartWrite? then [c.pick] else []
  {
    assert (calls + [c])[..|calls|] == calls;
  }

  lemma ClosingSteady(w: Writer, status: Status)
    requires Steady(w)
    ensures Steady(Closing(w, status))
  {
    StartedSnoc(w.calls, Finish(status));
    assert StartedPicks(w.calls) + [] == StartedPicks(w.calls);
  }

  lemma StartSteady(w: Writer)
    requires Steady(w) && w.phase.Polling? && w.queue != []
    ensures Steady(w.(writeInProgress := true, phase := AwaitingWrite, calls := w.calls + [StartWrite(w.queue[0])]))
  {
    var started := StartedPicks(w.calls);
    StartedSnoc(w.calls, StartWrite(w.queue[0]));
    assert (started + [w.queue[0]]) + w.queue[1..] == started + w.queue;
  }

  /** Whatever happens, in whatever order: at most one write outstanding, of the queue's front; picks started in
      the order fetched, none lost, none repeated. */
  lemma MoveSteady(w: Writer, t: Turn)
    requires Steady(w) && Allowed(w, t)
    ensures Steady(Move(w, t))
  {
    match t {
      case Polled(poll, chunk) =>
        if !poll.keepRunning || poll.cancelled {
          ClosingSteady(w, if poll.cancelledAtExit then Cancelled else Okay);
        } else if w.queue != [] {
          StartSteady(w);
        } else {
          assert StartedPicks(w.calls) + [] == StartedPicks(w.calls);
        }
      case WriteDone(ok, keepRunning, cancelled) =>
        if !ok {
          ClosingSteady(w, if cancelled then Cancelled else UnknownError);
        } else if !keepRunning {
          ClosingSteady(w, Unavailable);
        }
      case CancelSeen =>
      case Done =>
    }
  }

  /** And, for a subscriber that was not refused, `Finish` at most once and no call after it. */
  lemma MoveOrderly(w: Writer, t: Turn)
    requires Orderly(w) && Allowed(w, t)
    ensures Orderly(Move(w, t))
  {
    MoveSteady(w, t);
    MoveFinishes(w, t);
    hide Steady, FinishedOnce;
  }

  lemma MoveFinishes(w: Writer, t: Turn)
    requires FinishedOnce(w) && Allowed(w, t)
    ensures FinishedOnce(Move(w, t))
  {
  }

  lemma MoveFinishesIf(w: Writer, t: Turn)
    requires Allowed(w, t)
    ensures FinishedOnce(w) ==> FinishedOnce(Move(w, t))
  {
    if FinishedOnce(w) {
      MoveFinishes(w, t);
    }
  }

  function Session(w: Writer, turns: seq<Turn>): Writer {
    if turns == [] then w else Move(Session(w, turns[..|turns| - 1]), turns[|turns| - 1])
  }

  predicate ValidSession(w: Writer, turns: seq<Turn>) {
    turns != [] ==>
      && ValidSession(w, turns[..|turns| - 1])
      && Allowed(Session(w, turns[..|turns| - 1]), turns[|turns| - 1])
  }

  lemma {:induction false} SessionOrderly(w: Writer, turns: seq<Turn>)
    requires Orderly(w) && ValidSession(w, turns)
    ensures Orderly(Session(w, turns))
  {
    if turns == [] {
    } else {
      SessionOrderly(w, turns[..|turns| - 1]);
      MoveOrderly(Session(w, turns[..|turns| - 1]), turns[|turns| - 1]);
    }
  }

  /** The whole life of an accepted subscriber's writer. */
  lemma WriterProtocol(turns: seq<Turn>)
    requires ValidSession(FRESH, turns)
    ensures var w := Session(FRESH, turns);
            && (forall i :: 0 <= i < |w.calls| - 1 ==> !w.calls[i].Finish?)
            && (w.phase.Closed? <==> exists i :: 0 <= i < |w.calls| && w.calls[i].Finish?)
            && StartedPicks(w.calls) + Unstarted(w) == w.fetched
            && |w.queue| <= 32
  {
    SessionOrderly(FRESH, turns);
  }

  // ---- Subscribers that are refused -----------------------------------------------------------------------

  function Finishes(statuses: seq<Status>): seq<Call> {
    seq(|statuses|, i requires 0 <= i < |statuses| => Finish(statuses[i]))
  }

  /** The writer as its loop starts: the constructor finishes the RPC once for each reason to refuse the
      subscriber, and starts the loop all the same. */
  function Opening(refusals: seq<Status>): Writer {
    FRESH.(calls := Finishes(refusals))
  }

  /** `Finish` at most once, and no call after it. */
  predicate CleanProtocol(calls: seq<Call>) {
    forall i :: 0 <= i < |calls| - 1 ==> !calls[i].Finish?
  }

  function WithCallsBefore(first: seq<Call>, w: Writer): Writer {
    w.(calls := first + w.calls)
  }

  lemma OpeningIs(refusals: seq<Status>)
    ensures Opening(refusals) == WithCallsBefore(Finishes(refusals), FRESH)
    ensures Steady(Opening(refusals))
    ensures refusals == [] ==> Opening(refusals) == FRESH && Orderly(FRESH)
  {
    assert Finishes(refusals) + [] == Finishes(refusals);
    NoPicksFinished(refusals);
  }

  lemma {:induction false} NoPicksFinished(refusals: seq<Status>)
    ensures StartedPicks(Finishes(refusals)) == []
  {
    if refusals == [] {
    } else {
      var init := refusals[..|refusals| - 1];
      NoPicksFinished(init);
      assert Finishes(refusals)[..|refusals| - 1] == Finishes(init);
    }
  }

  /** Earlier calls change nothing about what happens next. */
  lemma MoveAfterCalls(first: seq<Call>, w: Writer, t: Turn)
    ensures Allowed(WithCallsBefore(first, w), t) <==> Allowed(w, t)
    ensures Move(WithCallsBefore(first, w), t) == WithCallsBefore(first, Move(w, t))
  {
    if |Move(w, t).calls| > |w.calls| {
      var c := Move(w, t).calls[|w.calls|];
      assert (first + w.calls) + [c] == first + (w.calls + [c]);
    }
  }

  lemma {:induction false} SessionAfterCalls(first: seq<Call>, w: Writer, turns: seq<Turn>)
    ensures ValidSession(WithCallsBefore(first, w), turns) <==> ValidSession(w, turns)
    ensures Session(WithCallsBefore(first, w), turns) == WithCallsBefore(first, Session(w, turns))
  {
    if turns == [] {
    } else {
      hide Move, Allowed, WithCallsBefore;
      SessionAfterCalls(first, w, turns[..|turns| - 1]);
      MoveAfterCalls(first, Session(w, turns[..|turns| - 1]), turns[|turns| - 1]);
    }
  }

  lemma CleanAfterFinishes(refusals: seq<Status>, calls: seq<Call>)
    requires CleanProtocol(calls)
    ensures CleanProtocol(Finishes(refusals) + calls) <==> refusals == [] || (|refusals| == 1 && calls == [])
  {
    var all := Finishes(refusals) + calls;
    if refusals == [] {
      assert all == calls;
    } else if |all| > 1 {
      assert all[0].Finish?;
    }
  }

  /** The poll makes the loop leave. */
  predicate Leaves(poll: Poll) {
    !poll.keepRunning || poll.cancelled
  }

  /** Turn `k`, if it is one of the loop, does not leave, and fetches nothing or is the loop's last so far. */
  predicate QuietAt(turns: seq<Turn>, k: nat)
    requires k < |turns|
  {
    turns[k].Polled? ==>
      && !Leaves(turns[k].poll)
      && (turns[k].chunk == [] || forall j :: k < j < |turns| ==> !turns[j].Polled?)
  }

  predicate Quiet(turns: seq<Turn>) {
    forall k :: 0 <= k < |turns| ==> QuietAt(turns, k)
  }

  /** Some turn of the loop was handed picks. */
  predicate Fetched(turns: seq<Turn>) {
    exists k :: 0 <= k < |turns| && turns[k].Polled? && turns[k].chunk != []
  }

  lemma QuietSnoc(init: seq<Turn>, t: Turn)
    ensures Quiet(init + [t]) <==> Quiet(init) && (t.Polled? ==> !Leaves(t.poll) && !Fetched(init))
    ensures Fetched(init + [t]) <==> Fetched(init) || (t.Polled? && t.chunk != [])
  {
    hide Leaves;
    var turns := init + [t];
    assert turns[|init|] == t && forall k :: 0 <= k < |init| ==> turns[k] == init[k];
    if Quiet(turns) {
      forall k | 0 <= k < |init| ensures QuietAt(init, k) {
        assert QuietAt(turns, k);
      }
      assert QuietAt(turns, |init|);
      if t.Polled? {
        forall k | 0 <= k < |init| && init[k].Polled? ensures init[k].chunk == [] {
          assert QuietAt(turns, k) && turns[|init|].Polled?;
        }
      }
    }
    if Quiet(init) && (t.Polled? ==> !Leaves(t.poll) && !Fetched(init)) {
      forall k | 0 <= k < |turns| ensures QuietAt(turns, k) {
        if k < |init| {
          assert QuietAt(init, k);
        }
      }
    }
    if Fetched(init) {
      var k :| 0 <= k < |init| && init[k].Polled? && init[k].chunk != [];
      assert turns[k].Polled? && turns[k].chunk != [];
    }
  }

  /** Exactly when the loop has not yet called anything, read off the turns. */
  lemma {:induction false} SilentExactly(turns: seq<Turn>)
    requires ValidSession(FRESH, turns)
    ensures Session(FRESH, turns).calls == [] <==> Quiet(turns)
    ensures Quiet(turns) ==>
              var w := Session(FRESH, turns);
              w.phase.Polling? && !w.writeInProgress && (w.queue != [] <==> Fetched(turns))
  {
    if turns == [] {
    } else {
      var init, t := turns[..|turns| - 1], turns[|turns| - 1];
      assert turns == init + [t];
      SilentExactly(init);
      QuietSnoc(init, t);
      hide Quiet, Fetched, Move, Leaves, Allowed;
      MoveSilently(Session(FRESH, init), t);
    }
  }

  lemma MoveSilently(w: Writer, t: Turn)
    requires Allowed(w, t)
    ensures w.calls <= Move(w, t).calls
    ensures w.phase.Polling? && !w.writeInProgress ==>
              var v := Move(w, t);
              && (v.calls == w.calls <==> t.Polled? ==> !Leaves(t.poll) && w.queue == [])
              && (v.calls == w.calls ==>
                  && v.phase.Polling? && !v.writeInProgress
                  && (v.queue != [] <==> w.queue != [] || (t.Polled? && t.chunk != [])))
  {
  }

  /** Exactly when a writer keeps the protocol: it was not refused, or it was refused for one reason, no turn of its
      loop left, and none followed a turn that was handed picks. */
  lemma ProtocolExactly(refusals: seq<Status>, turns: seq<Turn>)
    requires ValidSession(FRESH, turns)
    ensures ValidSession(Opening(refusals), turns)
    ensures CleanProtocol(Session(Opening(refusals), turns).calls) <==>
            refusals == [] || (|refusals| == 1 && Quiet(turns))
  {
    WriterProtocol(turns);
    OpeningIs(refusals);
    SessionAfterCalls(Finishes(refusals), FRESH, turns);
    CleanAfterFinishes(refusals, Session(FRESH, turns).calls);
    SilentExactly(turns);
  }

  /** While a write is outstanding, nothing but its completion touches the queue. */
  lemma FrontUntouched(w: Writer, t: Turn)
    requires Orderly(w) && w.phase.AwaitingWrite? && Allowed(w, t) && !t.WriteDone?
    ensures Move(w, t).queue == w.queue && w.queue != [] && Move(w, t).phase.AwaitingWrite?
    ensures StartedPicks(Move(w, t).calls) == StartedPicks(w.calls)
    ensures StartedPicks(w.calls)[|StartedPicks(w.calls)| - 1] == w.queue[0]
  {
  }

  // ---- Together with the store ----------------------------------------------------------------------------

  /** One turn of the loop over the store it polls. */
  function PollOnce(w: Writer, s: Store, id: nat, poll: Poll): (Writer, Store) {
    if !w.phase.Polling? then (w, s)
    else if Fetches(w, poll) then
      (Polls(w, poll, PicksOf(Chunk(s, id, MAXIMUM_QUEUE_SIZE))), Apply(s, Read(id, MAXIMUM_QUEUE_SIZE)))
    else (Polls(w, poll, []), s)
  }

  /** The loop, turn by turn, until it gives up control or the observations end. */
  function PollAll(w: Writer, s: Store, id: nat, polls: seq<Poll>): (Writer, Store) {
    if polls == [] then (w, s)
    else
      var (v, t) := PollAll(w, s, id, polls[..|polls| - 1]);
      PollOnce(v, t, id, polls[|polls| - 1])
  }

  lemma PollSnoc(w: Writer, s: Store, id: nat, polls: seq<Poll>, i: nat)
    requires i < |polls|
    ensures var (v, t) := PollAll(w, s, id, polls[..i]);
            PollAll(w, s, id, polls[..i + 1]) == PollOnce(v, t, id, polls[i])
  {
    assert polls[..i + 1][..i] == polls[..i];
  }

  lemma {:induction false} PollingStops(w: Writer, s: Store, id: nat, polls: seq<Poll>, k: nat)
    requires k <= |polls| && !PollAll(w, s, id, polls[..k]).0.phase.Polling?
    ensures PollAll(w, s, id, polls) == PollAll(w, s, id, polls[..k])
    decreases |polls|
  {
    if k == |polls| {
      assert polls[..k] == polls;
    } else {
      assert polls[..|polls| - 1][..k] == polls[..k];
      PollingStops(w, s, id, polls[..|polls| - 1], k);
    }
  }

  lemma {:induction false} PollAllOrderly(w: Writer, s: Store, id: nat, polls: seq<Poll>)
    requires Orderly(w)
    ensures Orderly(PollAll(w, s, id, polls).0)
  {
    if polls == [] {
    } else {
      hide Orderly, Polls, Fetches, Apply, Pending;
      PollAllOrderly(w, s, id, polls[..|polls| - 1]);
      var (v, t) := PollAll(w, s, id, polls[..|polls| - 1]);
      var poll := polls[|polls| - 1];
      if v.phase.Polling? {
        MoveOrderly(v, Polled(poll, PicksOf(Chunk(t, id, MAXIMUM_QUEUE_SIZE))));
        MoveOrderly(v, Polled(poll, []));
      }
    }
  }

  lemma {:induction false} PollAllAfterCalls(first: seq<Call>, w: Writer, s: Store, id: nat, polls: seq<Poll>)
    ensures var (v, t) := PollAll(w, s, id, polls);
            PollAll(WithCallsBefore(first, w), s, id, polls) == (WithCallsBefore(first, v), t)
  {
    if polls == [] {
    } else {
      hide Polls, Apply, Pending;
      PollAllAfterCalls(first, w, s, id, polls[..|polls| - 1]);
      var (v, t) := PollAll(w, s, id, polls[..|polls| - 1]);
      var poll := polls[|polls| - 1];
      MoveAfterCalls(first, v, Polled(poll, PicksOf(Chunk(t, id, MAXIMUM_QUEUE_SIZE))));
      MoveAfterCalls(first, v, Polled(poll, []));
    }
  }

  /** A subscriber without a cursor is never sent anything: its loop polls in vain until it leaves. */
  lemma {:induction false} PollsInVain(s: Store, id: nat, polls: seq<Poll>)
    requires id !in s.cursors
    ensures var (w, t) := PollAll(FRESH, s, id, polls);
            && t == s
            && (if exists i :: 0 <= i < |polls| && Leaves(polls[i])
                then w.phase.Closed? && |w.calls| == 1 && w.calls[0].Finish? else w == FRESH)
  {
    if polls == [] {
    } else {
      var init, poll := polls[..|polls| - 1], polls[|polls| - 1];
      PollsInVain(s, id, init);
      PollInVain(PollAll(FRESH, s, id, init).0, s, id, poll);
      assert (exists i :: 0 <= i < |polls| && Leaves(polls[i])) <==>
             Leaves(poll) || exists i :: 0 <= i < |init| && Leaves(init[i]) by {
        hide Leaves, PollAll;
        assert polls == init + [poll];
      }
      hide PollOnce, Leaves;
    }
  }

  lemma PollInVain(w: Writer, s: Store, id: nat, poll: Poll)
    requires id !in s.cursors && (w.phase.Polling? ==> w == FRESH)
    ensures PollOnce(w, s, id, poll).1 == s
    ensures var v := PollOnce(w, s, id, poll).0;
            if w == FRESH && Leaves(poll) then v.phase.Closed? && |v.calls| == 1 && v.calls[0].Finish? else v == w
  {
  }

  /** The first polls over a store: no call as long as none leaves and either nothing is pending or the loop has
      polled once at most. */
  predicate PollsQuietly(s: Store, id: nat, polls: seq<Poll>) {
    (forall i :: 0 <= i < |polls| ==> !Leaves(polls[i])) && (Pending(s, id) == [] || |polls| <= 1)
  }

  lemma {:induction false} SilentPollsExactly(s: Store, id: nat, polls: seq<Poll>)
    ensures PollAll(FRESH, s, id, polls).0.calls == [] <==> PollsQuietly(s, id, polls)
    ensures var (w, t) := PollAll(FRESH, s, id, polls);
            PollsQuietly(s, id, polls) ==>
              && w.phase.Polling? && !w.writeInProgress
              && (w.queue != [] <==> Pending(s, id) != [] && polls != [])
              && (w.queue == [] ==> t == s)
  {
    if polls == [] {
    } else {
      var init, poll := polls[..|polls| - 1], polls[|polls| - 1];
      SilentPollsExactly(s, id, init);
      var (w, t) := PollAll(FRESH, s, id, init);
      QuietPollsSnoc(s, id, init, poll);
      assert polls == init + [poll];
      hide PollsQuietly, PollAll, Pending;
      PollSilently(w, t, id, poll);
    }
  }

  lemma QuietPollsSnoc(s: Store, id: nat, init: seq<Poll>, poll: Poll)
    ensures PollsQuietly(s, id, init + [poll]) <==>
            PollsQuietly(s, id, init) && !Leaves(poll) && (Pending(s, id) == [] || init == [])
  {
    hide Leaves, Pending;
    assert (init + [poll])[|init|] == poll;
    assert forall i :: 0 <= i < |init| ==> (init + [poll])[i] == init[i];
    if PollsQuietly(s, id, init + [poll]) {
      forall i | 0 <= i < |init| ensures !Leaves(init[i]) {
        assert !Leaves((init + [poll])[i]);
      }
    }
  }

  lemma PollSilently(w: Writer, s: Store, id: nat, poll: Poll)
    ensures w.calls <= PollOnce(w, s, id, poll).0.calls
    ensures w.phase.Polling? && !w.writeInProgress ==>
              var (v, t) := PollOnce(w, s, id, poll);
              && (v.calls == w.calls <==> !Leaves(poll) && w.queue == [])
              && (v.calls == w.calls ==>
                  && v.phase.Polling? && !v.writeInProgress
                  && (v.queue != [] <==> Pending(s, id) != [])
                  && (v.queue == [] ==> t == s))
  {
    if Pending(s, id) == [] {
      NothingToRead(s, id);
    }
    hide Pending, Apply;
  }

  lemma NothingToRead(s: Store, id: nat)
    requires Pending(s, id) == []
    ensures Apply(s, Read(id, MAXIMUM_QUEUE_SIZE)) == s
  {
    assert id in s.cursors ==> s.cursors[id := s.cursors[id]] == s.cursors;
  }

  /** The whole constructor, exactly: it keeps the protocol if the subscriber was not refused, or was refused for one
      reason, no poll leaves, and nothing is pending for it or the loop polls once at most.  Here `s` is the store
      after the subscription, which takes effect unless the start is refused. */
  lemma ConstructorExactly(refusals: seq<Status>, s: Store, id: nat, polls: seq<Poll>)
    ensures CleanProtocol(PollAll(Opening(refusals), s, id, polls).0.calls) <==>
            refusals == [] || (|refusals| == 1 && PollsQuietly(s, id, polls))
  {
    OpeningIs(refusals);
    PollAllAfterCalls(Finishes(refusals), FRESH, s, id, polls);
    OpeningIs([]);
    PollAllOrderly(FRESH, s, id, polls);
    SilentPollsExactly(s, id, polls);
    hide PollAll, PollsQuietly, Steady;
    CleanAfterFinishes(refusals, PollAll(FRESH, s, id, polls).0.calls);
  }

  /** The whole constructor of a subscriber the store refuses, and for no other reason: the RPC is finished once
      exactly as long as the loop does not leave, and otherwise twice. */
  lemma RefusedFinishesTwice(s: Store, id: nat, polls: seq<Poll>)
    requires id !in s.cursors
    ensures var calls := PollAll(Opening([Internal]), s, id, polls).0.calls;
            && (CleanProtocol(calls) <==> forall i :: 0 <= i < |polls| ==> !Leaves(polls[i]))
            && (!CleanProtocol(calls) ==> |calls| == 2 && calls[0] == Finish(Internal) && calls[1].Finish?)
  {
    OpeningIs([Internal]);
    PollAllAfterCalls(Finishes([Internal]), FRESH, s, id, polls);
    PollsInVain(s, id, polls);
    hide PollAll;
    CleanAfterFinishes([Internal], PollAll(FRESH, s, id, polls).0.calls);
  }

  /** The reasons for which the constructor refuses a subscriber, in the order it looks at them. */
  function Refusals(full: bool, unauthorized: bool, inFuture: bool): seq<Status> {
    (if full then [ResourceExhausted] else []) + (if unauthorized then [Unauthenticated] else [])
    + if inFuture then [Internal] else []
  }

  lemma RefusalsFinish(full: bool, unauthorized: bool, inFuture: bool)
    ensures Finishes(Refusals(full, unauthorized, inFuture)) ==
            (if full then [Finish(ResourceExhausted)] else [])
            + (if unauthorized then [Finish(Unauthenticated)] else [])
            + if inFuture then [Finish(Internal)] else []
  {
  }

  /** The writer of one subscriber.  The clock of the server and the events of the RPC are inputs; the
      calls it issues are recorded in `calls`. */
  class AsynchronousWriter {
    const store: PickStore
    const contextAddress: nat
    var picksQueue: seq<Pick>
    var writeInProgress: bool
    var registered: bool
    var calls: seq<Call>
    ghost var phase: Phase
    ghost var fetched: seq<Pick>

    ghost function Snapshot(): Writer
      reads this
    {
      Writer(picksQueue, writeInProgress, registered, phase, calls, fetched)
    }

    ghost predicate Valid()
      reads this
    {
      Steady(Snapshot())
    }

    /** Subscribes, with a start if the request asks for a backfill, and starts the loop.  `full` and `unauthorized`
        say what the checks before that find; `now` and `storeNow` are the constructor's own reading of the clock
        and the later one of the store, which refuses a start after it. */
    constructor (store: PickStore, contextAddress: nat, full: bool, unauthorized: bool, backfill: Option<int>,
                 now: int, storeNow: int, polls: seq<Poll>)
      modifies store`cursorMap
      ensures Valid() && this.store == store && this.contextAddress == contextAddress
      ensures var start := if backfill.Some? then now - backfill.value else MAX_TIME;
              var inFuture := backfill.Some? && storeNow < start != MAX_TIME;
              var refusals := Refusals(full, unauthorized, inFuture);
              var before := old(store.Snapshot());
              && (Snapshot(), store.Snapshot()) ==
                 PollAll(Opening(refusals),
                         if inFuture then before else Apply(before, Subscribe(contextAddress, start)),
                         contextAddress, polls)
              && (refusals == [] ==> Orderly(Snapshot()))
    {
      this.store := store;
      this.contextAddress := contextAddress;
      picksQueue, writeInProgress, registered, calls := [], false, false, [];
      phase, fetched := Polling, [];
      new;
      hide PollAll, Steady, Orderly, Opening;
      ghost var refusals := Admit(full, unauthorized, backfill, now, storeNow);
      OpeningIs(refusals);
      ghost var s := store.Snapshot();
      NextWrite(polls);
      if refusals == [] {
        PollAllOrderly(FRESH, s, contextAddress, polls);
      }
    }

    /** The part of the constructor before the loop: the checks, each of which finishes the RPC and goes on, and the
        subscription. */
    method Admit(full: bool, unauthorized: bool, backfill: Option<int>, now: int, storeNow: int)
      returns (ghost refusals: seq<Status>)
      requires Snapshot() == FRESH.(registered := false)
      modifies this`calls, this`registered, store`cursorMap
      ensures Snapshot() == Opening(refusals) && registered
      ensures calls == old(calls)
                       + (if full then [Finish(ResourceExhausted)] else [])
                       + (if unauthorized then [Finish(Unauthenticated)] else [])
                       + (if backfill.Some? && storeNow < now - backfill.value != 9223372036854775807
                          then [Finish(Internal)] else [])
      ensures var start := if backfill.Some? then now - backfill.value else MAX_TIME;
              var inFuture := backfill.Some? && storeNow < start != MAX_TIME;
              && refusals == Refusals(full, unauthorized, inFuture)
              && store.Snapshot() ==
                 if inFuture then old(store.Snapshot())
                 else Apply(old(store.Snapshot()), Subscribe(contextAddress, start))
    {
      hide Apply, Finishes, Refusals;
      if full {
        calls := calls + [Finish(ResourceExhausted)];
      }
      if unauthorized {
        calls := calls + [Finish(Unauthenticated)];
      }
      ghost var inFuture := false;
      if backfill.Some? {
        var r := store.SubscribeFrom(contextAddress, now - backfill.value, storeNow);
        inFuture := r.Failure?;
        if r.Failure? {
          calls := calls + [Finish(Internal)];
        }
      } else {
        store.SubscribeNext(contextAddress);
      }
      registered := true;
      refusals := Refusals(full, unauthorized, inFuture);
      RefusalsFinish(full, unauthorized, inFuture);
    }

    /** Starts the write of the front of the queue. */
    method StartNext(ghost poll: Poll)
      requires Valid() && phase.Polling? && poll.keepRunning && !poll.cancelled && picksQueue != []
      modifies this`writeInProgress, this`calls, this`phase
      ensures Valid() && !phase.Polling?
      ensures old(Orderly(Snapshot())) ==> Orderly(Snapshot())
      ensures calls == old(calls) + [StartWrite(picksQueue[0])] && writeInProgress
      ensures picksQueue == old(picksQueue) && registered == old(registered)
      ensures (Snapshot(), store.Snapshot()) == PollOnce(old(Snapshot()), old(store.Snapshot()), contextAddress, poll)
    {
      hide FinishedOnce, NothingDropped, StartedPicks;
      MoveSteady(Snapshot(), Polled(poll, []));
      MoveFinishesIf(Snapshot(), Polled(poll, []));
      var pick := picksQueue[0];
      writeInProgress := true;
      calls := calls + [StartWrite(pick)];
      phase := AwaitingWrite;
    }

    /** Fetches the next chunk from the store and pushes it pick by pick. */
    method Refill(ghost poll: Poll)
      requires Valid() && phase.Polling? && poll.keepRunning && !poll.cancelled && picksQueue == []
      modifies this`picksQueue, this`fetched, store`cursorMap
      ensures Valid() && phase.Polling?
      ensures old(Orderly(Snapshot())) ==> Orderly(Snapshot())
      ensures picksQueue == PicksOf(Chunk(old(store.Snapshot()), contextAddress, 32))
      ensures fetched == old(fetched) + picksQueue && calls == old(calls) && !writeInProgress
      ensures (Snapshot(), store.Snapshot()) == PollOnce(old(Snapshot()), old(store.Snapshot()), contextAddress, poll)
    {
      hide FinishedOnce, NothingDropped, StartedPicks, Pending, Apply;
      ghost var before := Snapshot();
      var r := store.GetPicks(contextAddress, MAXIMUM_QUEUE_SIZE);
      var newPicks := r.value;
      ghost var shelf := store.Snapshot();
      for j := 0 to |newPicks|
        invariant picksQueue == newPicks[..j] && fetched == before.fetched
        invariant store.Snapshot() == shelf
      {
        picksQueue := picksQueue + [newPicks[j]];
      }
      assert newPicks[..|newPicks|] == newPicks;
      fetched := fetched + newPicks;
      MoveSteady(before, Polled(poll, newPicks));
      MoveFinishesIf(before, Polled(poll, newPicks));
    }

    /** Leaves the loop for good. */
    method Leave(poll: Poll)
      requires Valid() && phase.Polling? && (!poll.keepRunning || poll.cancelled)
      modifies this`calls, this`phase
      ensures Valid() && !phase.Polling?
      ensures old(Orderly(Snapshot())) ==> Orderly(Snapshot())
      ensures calls == old(calls) + [Finish(if poll.cancelledAtExit then Cancelled else Okay)]
      ensures picksQueue == old(picksQueue) && registered == old(registered)
      ensures (Snapshot(), store.Snapshot()) == PollOnce(old(Snapshot()), old(store.Snapshot()), contextAddress, poll)
    {
      hide FinishedOnce, NothingDropped, StartedPicks;
      MoveSteady(Snapshot(), Polled(poll, []));
      MoveFinishesIf(Snapshot(), Polled(poll, []));
      if poll.cancelledAtExit {
        calls := calls + [Finish(Cancelled)];
      } else {
        calls := calls + [Finish(Okay)];
      }
      phase := Closed;
    }

    method NextWrite(polls: seq<Poll>)
      requires Valid() && phase.Polling?
      modifies this, store`cursorMap
      ensures Valid()
      ensures old(Orderly(Snapshot())) ==> Orderly(Snapshot())
      ensures (Snapshot(), store.Snapshot()) ==
              PollAll(old(Snapshot()), old(store.Snapshot()), contextAddress, polls)
    {
      hide PollOnce, NothingDropped;
      ghost var w, s := Snapshot(), store.Snapshot();
      if Orderly(w) {
        PollAllOrderly(w, s, contextAddress, polls);
      }
      var i := 0;
      while i < |polls| && polls[i].keepRunning
        invariant 0 <= i <= |polls|
        invariant Valid() && phase.Polling?
        invariant (Snapshot(), store.Snapshot()) == PollAll(w, s, contextAddress, polls[..i])
      {
        PollSnoc(w, s, contextAddress, polls, i);
        if polls[i].cancelled {
          break;
        }
        if picksQueue != [] && !writeInProgress {
          StartNext(polls[i]);
          PollingStops(w, s, contextAddress, polls, i + 1);
          return;
        }
        if picksQueue == [] {
          Refill(polls[i]);
        }
        i := i + 1;
      }
      if i < |polls| {
        PollSnoc(w, s, contextAddress, polls, i);
        Leave(polls[i]);
        PollingStops(w, s, contextAddress, polls, i + 1);
      } else {
        assert polls[..i] == polls;
      }
    }

    method OnWriteDone(ok: bool, keepRunning: bool, cancelled: bool, polls: seq<Poll>)
      requires Valid() && phase.AwaitingWrite?
      modifies this, store`cursorMap
      ensures Valid()
      ensures old(Orderly(Snapshot())) ==> Orderly(Snapshot())
      ensures !ok ==> calls == old(calls) + [Finish(if cancelled then Cancelled else UnknownError)]
      ensures ok && !keepRunning ==> calls == old(calls) + [Finish(Unavailable)]
      ensures !ok || !keepRunning ==> picksQueue == old(picksQueue) && store.Snapshot() == old(store.Snapshot())
      ensures ok && keepRunning ==>
                old(picksQueue) != []
                && (Snapshot(), store.Snapshot()) ==
                   PollAll(old(Snapshot()).(writeInProgress := false, queue := old(picksQueue)[1..], phase := Polling),
                           old(store.Snapshot()), contextAddress, polls)
      ensures (Snapshot(), store.Snapshot()) ==
              PollAll(Move(old(Snapshot()), WriteDone(ok, keepRunning, cancelled)), old(store.Snapshot()),
                      contextAddress, polls)
    {
      hide FinishedOnce, NothingDropped, StartedPicks;
      ghost var before := Snapshot();
      MoveSteady(before, WriteDone(ok, keepRunning, cancelled));
      MoveFinishesIf(before, WriteDone(ok, keepRunning, cancelled));
      if !ok {
        if cancelled {
          calls := calls + [Finish(Cancelled)];
        } else {
          calls := calls + [Finish(UnknownError)];
        }
        phase := Closed;
        PollingStops(Snapshot(), store.Snapshot(), contextAddress, polls, 0);
        return;
      }
      if !keepRunning {
        calls := calls + [Finish(Unavailable)];
        phase := Closed;
        PollingStops(Snapshot(), store.Snapshot(), contextAddress, polls, 0);
        return;
      }
      writeInProgress := false;
      picksQueue := picksQueue[1..];
      phase := Polling;
      NextWrite(polls);
    }

    method OnCancel()
      requires Valid()
      modifies this`registered, store`cursorMap
      ensures Valid() && Snapshot() == Move(old(Snapshot()), CancelSeen)
      ensures old(Orderly(Snapshot())) ==> Orderly(Snapshot())
      ensures !registered && (old(registered) ==> contextAddress !in store.cursorMap)
      ensures calls == old(calls) && picksQueue == old(picksQueue)
      ensures store.Snapshot() ==
              if old(registered) then Apply(old(store.Snapshot()), Unsubscribe(contextAddress))
              else old(store.Snapshot())
    {
      MoveSteady(Snapshot(), CancelSeen);
      MoveFinishesIf(Snapshot(), CancelSeen);
      if registered {
        store.UnsubscribeContext(contextAddress);
        registered := false;
      }
    }

    method OnDone()
      requires Valid() && phase.Closed?
      modifies this`registered, store`cursorMap
      ensures Valid() && Snapshot() == Move(old(Snapshot()), Done)
      ensures old(Orderly(Snapshot())) ==> Orderly(Snapshot())
      ensures !registered && (old(registered) ==> contextAddress !in store.cursorMap)
      ensures calls == old(calls) && picksQueue == old(picksQueue)
      ensures store.Snapshot() ==
              if old(registered) then Apply(old(store.Snapshot()), Unsubscribe(contextAddress))
              else old(store.Snapshot())
    {
      MoveSteady(Snapshot(), Done);
      MoveFinishesIf(Snapshot(), Done);
      if registered {
        store.UnsubscribeContext(contextAddress);
        registered := false;
      }
    }
  }
}
