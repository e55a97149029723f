# The pick broker, modelled and proved

The broker takes seismic phase picks from publishers, brings each into a normal form, queues it, gives it a
received time, persists it in a table of unique picks, and hands what was new to an in-memory store from which
every subscriber reads at its own pace.  This project models that pipeline as a retained, deduplicated log with
one cursor per subscriber, and proves what publishers and subscribers may rely on.

`dafny verify dfyconfig.toml` checks everything.

## How the model is laid out

Each stateful part exists twice: as a class that does what the C++ object does, statement by statement, and as a
value-level machine whose steps are the critical sections.  The methods of the classes are proved to take exactly
those steps; the guarantees are proved about every run of the machines.

- `NormalForm`: blank removal, capitalisation, defaults; when two submissions are the same pick.
- `TimeOrder`: sorting by received time and the entries at or above a time.
- `StoreModel`, `PickStores`: the store machine and the class.  An insertion carries the deque it left, because
  the library sort may order equal times as it likes.
- `StoreProperties`, `Sessions`, `Guarantees`, `Agreement`: retention, chunked reading, the fate of every entry a
  subscriber asked for, delivery guarantees, and how subscribers relate to each other.
- `Databases`: the table of received times and unique picks.
- `Pipeline`, `PipelineInvariants`, `PipelineTheorems`, `Brokers`: the broker as a transition system of nine kinds
  of atomic step that interleave freely, its invariants, its theorems, and the class.
- `Writers`: the loop that sends picks to one subscriber.
- `EndToEnd`: broker, store, one subscription and its writer, all interleaving.

Clock readings are inputs of the steps.  They may run backwards, except where a theorem says otherwise: the
hypotheses `StampsForward` (a received time is never behind a reading that has already taken effect) and
`PromptlyAdded` (no purge between stamping a pick and adding it) appear only where they are needed.  Cleans, purges
and submissions may always act on stale readings, since the code reads the clock outside the lock.

## Where code and documentation differ, and what turned out not to hold

The model follows the code.

- `src/broker.cpp:51` writes the capitalised characters to the end of the string being read; the model
  capitalises in place, as the name of the function says.
- `include/uFilterPickerPickBroker/pickStoreOptions.hpp:24-25` says picks younger than the retention time may be
  purged when there are many.  They never are (`UnexpiredKept`), so the capacity is no bound on the size: the deque
  reaches any size (`AnySizeReached`), and an enqueue leaves more than the capacity under an exact condition
  (`OverCapacityExactly`).  The bound that does hold is `StoreSizeBound`.
- `include/uFilterPickerPickBroker/pickStore.hpp:54` promises picks received after the start time; the code also
  delivers those received exactly at it: what arrives in `ArrivedFromStart` and is delivered in `LosslessInOrder`
  includes the start.
- The debug assertion at `src/pickStore.cpp:214` fails exactly when nothing in the deque is above the cursor, or as
  many entries as are asked for lie at the cursor itself (`DebugAssertionExactly`); this is what the first read
  after waiting for the next pick finds (`DebugAssertionFailsAfterWaking`).
- Delivery is not always complete.  Exactly when it is can be read off the run (`CompleteExactly`): no effective
  clean may find an entry unread below its cutoff, none may be inserted below the cursor, and no full chunk may end
  on the time of an entry still unread.
- Picks received at the same nanosecond are lost to a subscriber when a full chunk ends between them; chunked
  reading equals reading at once exactly when none does (`ReadsCompose`, `TieLostExample`).
- A subscriber waiting for the next pick starts with that pick alone exactly when it arrived later than the back
  of the deque (`WakingUp`).  Later than the back at every arrival is not enough for it to receive all of them,
  because a clean may have emptied the deque (`LaterThanBackNotEnough`); it receives all of them if and only if
  their received times strictly increase (`NewPicksOnly`).
- Two subscriptions with the same start made at different moments may disagree; the exact condition is
  `LateJoinerAgreesExactly`.
- The constructor at `src/subscribeService.cpp:98-163` finishes the RPC of a subscriber it refuses and then starts the
  polling loop all the same.  `Finish` at most once, and no call after it, holds exactly for subscribers that are
  not refused, or are refused for one reason while no turn of their loop has left and none has followed a turn that
  was handed picks (`ProtocolExactly`).  In the constructor this means: no poll leaves, and nothing is pending or the
  loop polls once at most (`ConstructorExactly`).  A start is refused exactly when it lies after the store's own
  reading of the clock; that subscriber's RPC is finished twice as soon as its loop leaves (`RefusedFinishesTwice`).
- The loop at `src/database.cpp:194` takes any step that yields no row for the end of the table.  A load cut short by
  an engine error succeeds with the earliest rows only; what the rebuilt store then lacks is said by
  `CutShortExactly`.  The steps called restart in `Pipeline` are those with a complete load.

## Model

| member | source | states |
|---|---|---|
| NormalForm.CapitalizeAndRemoveBlanks | src/broker.cpp:46-53 | removes exactly the blanks, keeps the order, and capitalises |
| NormalForm.CanonicalOfCharacter | src/broker.cpp:46-53 | character by character, with each blank and each of the 26 letters named: a blank disappears, a small letter becomes its own capital, anything else stays |
| NormalForm.CheckAndFixStreamIdentifier | src/broker.cpp:55-100 | which identifiers are refused, with which message and in which order of checks, and each part of the fixed identifier otherwise, the location being "--" when absent or blank |
| NormalForm.CheckAndFixAlgorithm | src/broker.cpp:102-115 | a missing name becomes "uFilterPicker", a missing version is refused, nothing else changes |
| NormalForm.CanonicalIdempotent | src/broker.cpp:46-53 | fixing a code a second time changes nothing |
| NormalForm.CanonicalIdentifies | src/broker.cpp:46-53 | two codes become the same exactly when they agree up to blanks and up to small and capital forms of the 26 letters |
| NormalForm.CanonicalEmpty | src/broker.cpp:64-88 | a code counts as empty exactly when it is all blanks |
| NormalForm.AcceptedExactly | src/broker.cpp:421-441 | a submission is refused before the clock is read exactly when a part it must carry is missing or blank |
| NormalForm.NormalizeReachesNormalForm | src/broker.cpp:436-441 | what is queued is in normal form, and the picks in normal form are exactly those that fixing leaves alone |
| NormalForm.NormalizeIdempotent | src/broker.cpp:436-441 | resubmitting a fixed pick gives the same pick |
| NormalForm.LocationIdentified | src/broker.cpp:83-98 | absent, blank and "--" locations are one location, others agree up to blanks and case, and nothing else is identified |
| NormalForm.SameKeyIffSamePick | src/broker.cpp:436-441 | two accepted submissions become the same database key if and only if they describe the same pick |
| TimeOrder.SortingUnique | src/pickStore.cpp:166-170 | although the sort is not stable, with distinct times its outcome is determined |
| StoreModel.ApplySound | src/pickStore.cpp:79-223 | every critical section keeps the deque in time order and the cursors no later than the sentinel |
| StoreModel.RunSound | src/pickStore.cpp:79-223 | so does every run |
| PickStores.PickStore.constructor | src/pickStore.cpp:45-77 | the store built from a backfill holds a sorting of it, cleaned, and has no subscribers |
| PickStores.PickStore.SubscribeNext | src/pickStore.cpp:79-83 | the cursor becomes the largest 64-bit count, whatever it was; nothing else changes |
| PickStores.PickStore.SubscribeFrom | src/pickStore.cpp:85-98 | refused exactly for a start in the future other than the sentinel, and then nothing changes |
| PickStores.PickStore.UnsubscribeContext | src/pickStore.cpp:100-104 | the cursor is gone and every other one as it was; nothing else changes |
| PickStores.PickStore.CleanBefore | src/pickStore.cpp:108-125 | the pop-front loop with its two early exits is one clean step |
| PickStores.PickStore.CleanDeque | src/pickStore.cpp:127-135 | cleans at the retention time before now |
| PickStores.PickStore.Append | src/pickStore.cpp:156-177 | append, sort when out of order and wake the waiting subscribers: one insertion step, the deque sorted again |
| PickStores.PickStore.Enqueue | src/pickStore.cpp:138-178 | an enqueue is a clean step and then an insertion step |
| PickStores.PickStore.GetPicks | src/pickStore.cpp:180-223 | refused exactly for a count below one; else returns the first picks at or above the cursor, moves only that cursor, and nothing for an unknown subscriber |
| PickStores.PickStore.GetAllPicks | src/pickStore.cpp:312-316 | never refused; reads with the count 32767 |
| PickStores.Scan | src/pickStore.cpp:196-210 | the scan that breaks when the chunk is full returns the first so many entries at or above the cursor and the time of the last |
| StoreProperties.CleanAllOrNothing | src/pickStore.cpp:106-125 | a clean removes either nothing, while the deque is below half its capacity, or exactly the entries older than its cutoff |
| StoreProperties.DequeConserved | src/pickStore.cpp:106-171 | over every run, out-of-order arrivals included, the deque stays sorted and what was there or arrived is still there or was removed by a clean, copies counted |
| StoreProperties.RemovedWasExpired | src/pickStore.cpp:106-123 | whatever was removed was below the cutoff of some clean |
| StoreProperties.UnexpiredKept | src/pickStore.cpp:106-123 | no copy of an entry at or above every cutoff used so far is ever lost, whatever the capacity |
| StoreProperties.EnqueueSizeBound | src/pickStore.cpp:110-163 | after an enqueue the deque holds at most half the capacity, or the unexpired entries and the new one |
| StoreProperties.OverCapacityExactly | src/pickStore.cpp:110-163 | an enqueue leaves more entries than the capacity if and only if the deque was at least half full and as many entries as the capacity were unexpired |
| StoreProperties.AnySizeReached | src/pickStore.cpp:108-178 | whatever the capacity, a run of enqueues reaches a deque of any size |
| StoreProperties.ChunkIsSlice | src/pickStore.cpp:196-210 | a chunk is a contiguous slice of the deque from the first entry at or above the cursor, as long as asked for unless the deque ends |
| StoreProperties.CursorGrows | src/pickStore.cpp:211-220 | a non-empty read moves the cursor strictly forward, past all it returned and never onto the sentinel |
| StoreProperties.DebugAssertionExactly | src/pickStore.cpp:213-215 | the debug assertion fails if and only if, before the read, nothing in the deque is above the cursor or at least as many entries as asked for lie at the cursor |
| StoreProperties.DebugAssertionFailsAfterWaking | src/pickStore.cpp:172-215 | it fails on the first read of a subscriber woken by a pick that arrived in order |
| StoreProperties.PendingAfterRead | src/pickStore.cpp:196-220 | what stays pending after a read is the rest without the entries tied with the last one returned |
| StoreProperties.ReadsCompose | src/pickStore.cpp:196-220 | reading `a` and then `b` gives the picks of reading `a + b` if and only if no tie straddles the boundary, and then the same cursor |
| StoreProperties.TieLostExample | src/pickStore.cpp:205-219 | two picks of one nanosecond read one at a time: the second is never delivered |
| StoreProperties.SubscribeExactly | src/pickStore.cpp:85-98 | a subscription, also one made anew, is offered what the deque holds at or above its start, and nobody else is affected |
| StoreProperties.UnsubscribeExactly | src/pickStore.cpp:100-104 | after unsubscribing reads return nothing and change nothing, and nobody else is affected |
| StoreProperties.WaitingReadsNothing | src/pickStore.cpp:79-83 | a subscriber waiting for the next pick reads nothing and goes on waiting, however often it asks |
| StoreProperties.WakingUp | src/pickStore.cpp:172-176 | the next insertion replaces the sentinel by a real time; the new pick alone is then pending if and only if it arrived later than the back of the deque |
| Sessions.AccountKept | src/pickStore.cpp:108-223 | every step of the store keeps the account of a subscription: the partition of what arrived, the order of what was delivered, and where the cursor stands |
| Sessions.FatesKept | src/pickStore.cpp:108-223 | so does every run |
| Sessions.CompleteWithoutLosses | src/pickStore.cpp:180-223 | with nothing lost and distinct times, the delivered stream followed by the pending entries is what arrived, in order |
| Guarantees.FatePartition | src/pickStore.cpp:108-223 | every entry that arrived for a subscription is in exactly one class, copies counted: delivered, pending, evicted unread, late or tied; nothing is missing if and only if no event of the run loses anything |
| Guarantees.CompleteExactly | src/pickStore.cpp:108-223 | for an explicit start, on the run alone: the chunks read and the pending entries hold everything at or above the start that was there or came later if and only if no clean evicts one unread, none comes below the cursor, and no full chunk ends on the time of an unread one |
| Guarantees.ArrivedFromStart | src/pickStore.cpp:85-178 | what arrived is every entry at or above the start that was there at the subscription or was inserted later |
| Guarantees.ArrivedSinceWoken | src/pickStore.cpp:172-178 | what arrived for a subscriber that waited: what the deque held at or above its back just after the first insertion, and what was inserted later at or above that |
| Guarantees.ArrivedWithinHistory | src/pickStore.cpp:79-178 | whether it waited or not, nothing arrived for a subscriber that the store did not hold or receive, copies counted |
| Guarantees.AwakeStaysAwake | src/pickStore.cpp:172-219 | a cursor that is a real time never moves back and never becomes the sentinel again |
| Guarantees.EvictedReason | src/pickStore.cpp:108-123 | an entry booked as evicted was pending when a clean took effect with a cutoff above its time |
| Guarantees.LateReason | src/pickStore.cpp:158-171 | an entry booked as late was inserted below the cursor |
| Guarantees.TiedReason | src/pickStore.cpp:196-219 | an entry booked as tied was left behind by a full chunk whose last entry has its time |
| Guarantees.AtMostOnce | src/pickStore.cpp:158-220 | without any clock hypothesis, for waiting subscribers too: the stream is in time order and no entry is delivered more often than the store held or received it |
| Guarantees.NothingReceivedExactly | src/pickStore.cpp:196-220 | a subscriber has received nothing if and only if each of its reads found nothing pending |
| Guarantees.ChunksIncrease | src/pickStore.cpp:196-220 | received times strictly increase from any chunk to any later one, even with ties, late arrivals and re-sorts |
| Guarantees.DequeIsRecent | src/pickStore.cpp:108-171 | with strictly increasing received times the deque is always the latest part of everything that arrived |
| Guarantees.RecentFrom | src/pickStore.cpp:108-171 | the same of the entries at or above any time, if only their times strictly increase |
| Guarantees.NothingLost | src/pickStore.cpp:138-223 | waiting or not, if times of what arrived for the subscriber strictly increase and no clean passes an unread entry, what was delivered followed by what is pending is what arrived |
| Guarantees.LosslessInOrder | src/pickStore.cpp:138-223 | if the received times of the entries at or above the start strictly increase and no clean passes an unread entry, all chunks followed by the pending entries are exactly those entries, in arrival order, for every interleaving and all chunk sizes; earlier entries may have any ties |
| Guarantees.NewPicksOnly | src/pickStore.cpp:79-219 | a subscriber waiting for the next pick has the sentinel as cursor if and only if nothing has been inserted; with each insertion later than the back and no clean passing an unread entry it receives exactly what is inserted after it subscribed if and only if the times of the insertions strictly increase, whatever ties the old deque has |
| Guarantees.LaterFromFirst | src/pickStore.cpp:158-176 | with strictly increasing insertions it is enough that the first is later than the back: all others then are |
| Guarantees.NewPicksFromFirst | src/pickStore.cpp:79-219 | a waiting subscriber receives exactly what is inserted after it subscribed if the pick that wakes it is later than the back, times strictly increase from there and no clean passes an unread entry |
| Agreement.OthersInvisible | src/pickStore.cpp:79-223 | leaving out everything other subscribers do changes neither the deque, nor this cursor, nor anything this subscriber received or lost |
| Agreement.SameArrived | src/pickStore.cpp:172-200 | what arrives for a subscription depends on its start alone |
| Agreement.SameStartAgrees | src/pickStore.cpp:188-220 | of two subscriptions with the same start in the same store, explicit or waiting, one stream is always a prefix of the other, if the times of what arrives for them strictly increase and no clean passes an unread entry |
| Agreement.LateJoinerAgreesExactly | src/pickStore.cpp:85-220 | a subscription joining later with the same start agrees in this way if and only if no entry at or above the start was cleaned away before it joined, or each read of one of the two found nothing pending |
| Agreement.LateJoinerExample | src/pickStore.cpp:85-220 | a run satisfying all hypotheses of that theorem in which they disagree |
| Agreement.LaterThanBackNotEnough | src/pickStore.cpp:158-220 | a run in which each arrival is later than the back of the deque and no clean passes an unread entry, and one arrival is still never delivered |
| Databases.InsertKeepsUnique | src/database.cpp:128-177 | an insertion keeps picks unique and adds a row exactly when the pick was not there |
| Databases.DeleteKeepsUnique | src/database.cpp:213-232 | a deletion keeps picks unique and leaves exactly the rows at or above the time |
| Databases.TakenAgainOnceDeleted | src/database.cpp:154-232 | a stored pick is taken as new again exactly when its row was deleted |
| Databases.Database.constructor | src/database.cpp:57-126 | an open database over no rows if its table was just created, over the rows on disk otherwise |
| Databases.Database.Open | src/database.cpp:57-143 | which failures of the file system and the engine make opening fail, and whether the rows on disk survive it |
| Databases.Database.Add | src/database.cpp:145-177 | every outcome with its exact condition: added, duplicate, or refused with the table unchanged |
| Databases.Database.Load | src/database.cpp:179-211 | all rows in order of received time, or the earliest ones if the engine stops yielding; refused exactly when closed, when the statement is refused, or when a row yielded cannot be parsed |
| Databases.Database.DeletePicksBefore | src/database.cpp:213-232 | removes the rows below the time and returns how many; refused exactly when closed or when the statement is refused; a deletion not carried out leaves the table and reports an earlier count |
| Databases.Database.Close | src/database.cpp:236-245 | the database is closed afterwards |
| Pipeline.MadeRoomIsSuffix | src/broker.cpp:457-462 | making room pops the oldest picks only, and as few as needed; it ends because the capacity is positive |
| Pipeline.SubmissionExactly | src/broker.cpp:421-454 | a submission is accepted if and only if its parts are complete and its pick is not after the reading of the clock; it is then queued in its normal form |
| Brokers.Broker.constructor | src/broker.cpp:155-178 | a new broker has an empty queue, zero counters, no subscribers and its store rebuilt from what was loaded, cleaned at the retention time of the store; with all rows loaded it is an initial state |
| Brokers.Broker.Create | src/broker.cpp:122-178 | refused exactly for a missing or closed database, unset options of the services or their servers, or a failing load, with the kind of exception; else just started, and in an initial state if the load was complete |
| Brokers.Broker.AddPickCallback | src/broker.cpp:419-466 | accepts exactly the complete picks no later than the clock reading; the exception of each refusal, which changes nothing; the queue afterwards is the latest picks that leave room, then the fixed pick, and the counters say so; one accept step |
| Brokers.Broker.Push | src/broker.cpp:455-464 | drop-oldest push, each dropped pick counted |
| Brokers.Broker.TakeAndPersist | src/broker.cpp:321-359 | takes the front of the queue and stamps it with the clock reading; the row is added and the pick forwarded exactly when the database neither fails nor holds it; only a pick it holds counts as a duplicate |
| Brokers.Broker.EnqueuePick | src/broker.cpp:360-375 | the store cleans at its retention time before its own clock reading and inserts the pick; these are the processor's last two steps |
| Brokers.Broker.ProcessNext | src/broker.cpp:319-382 | one turn of the loop: nothing for an empty queue, else the front is taken, and a pick that is new and does not fail is in the table with the stamp and in the cleaned store, and in no other case anything changes there; exactly the steps its observations call for |
| Brokers.Broker.ProcessPick | src/broker.cpp:314-383 | the loop is a run of the machine that takes one pick off the front of the queue per turn until the flag falls or the queue is empty |
| Brokers.Broker.PurgeOnce | src/broker.cpp:391-408 | leaves exactly the rows within the retention interval before the clock reading; one purge step, or none if the deletion is refused or not carried out |
| Brokers.Broker.CleanDatabase | src/broker.cpp:385-416 | leaves exactly the rows recent enough for every deletion carried out before the flag falls or a deletion is refused, whose exception ends the loop; a run of one purge per tick carried out |
| PipelineInvariants.FifoStep | src/broker.cpp:323-331 | every step keeps the queue the latest accepted picks and the taken ones an ordered selection of those that left it |
| PipelineInvariants.ConservedStep | src/broker.cpp:332-375 | every step keeps the books of accepted, dropped, queued, taken, duplicate, failed and stored picks |
| PipelineInvariants.CacheStep | src/broker.cpp:334-399 | every step keeps store and table in agreement inside the window, the pick in flight excepted |
| PipelineInvariants.HistoryStep | src/broker.cpp:339-399 | every step keeps: a row stays until a purge above its time, and a pick is added again only after one |
| PipelineInvariants.LoggedStep | src/broker.cpp:339-399 | every step keeps: every row was added at some point and not purged since |
| PipelineInvariants.OnlyAddedStep | src/broker.cpp:339-375 | every step keeps: table and store hold no copy that was not added |
| PipelineInvariants.PurgeExactly | src/broker.cpp:393-399 | a purge leaves exactly the rows within the retention interval before its reading, and all else as it was |
| PipelineInvariants.ReachableInvariant | src/broker.cpp:314-465 | all of this holds in every state the broker can reach, restarts included |
| PipelineTheorems.QueueAndCounters | src/broker.cpp:323-465 | in every reachable state the queue is a suffix of the accepted picks within the capacity, accepted = dropped + queued + taken, taken = duplicates + failures + stored + at most one, and the counters say so |
| PipelineTheorems.CacheMatchesTable | src/broker.cpp:334-399 | in every reachable state, whatever the clock did, deque and table hold the same entries from the window on, except for at most the one pick between the database and the store |
| PipelineTheorems.CacheMatchesTableNow | src/broker.cpp:393-399 | the same from the shorter retention time before any `now` that no clock reading so far exceeds |
| PipelineTheorems.StoreInsideBroker | src/broker.cpp:360-375 | between restarts the store in the broker makes an ordinary run of the store, so its guarantees hold there |
| PipelineTheorems.StoredAreAdded | src/broker.cpp:339-375 | between restarts, in order: the pick in flight and the rows the table accepts are what the store receives, and the pick then in flight |
| PipelineTheorems.RestartTransparent | src/broker.cpp:167-173 | a store rebuilt from the table at any moment offers, for every start inside the window, what the lost one offered plus at most the pick in flight, in the same order when times are distinct |
| PipelineTheorems.RestartSameChunks | src/broker.cpp:167-173 | with nothing in flight and distinct times, a subscriber returning with such a start reads the same chunks as before, for every series of reads |
| PipelineTheorems.CutShortExactly | src/database.cpp:194-210 | a store rebuilt from a load cut short has every row at or above a time if and only if the last row is before that time or nothing was cut off |
| PipelineTheorems.ExpiryExactly | src/pickStore.cpp:108-135 | in every reachable state, once the deque is half full, the clean before an insertion leaves exactly the entries within the retention time of the store |
| PipelineTheorems.RowsCarryStamps | src/broker.cpp:335-342 | over every run, each row of the table was there at first or was added with the latest reading of the clock for a received time as its received time |
| PipelineTheorems.OldRowsGone | src/broker.cpp:385-416 | over every run, a row older than the retention interval before the reading of some purge was added after that purge |
| PipelineTheorems.AddedTwiceOnlyAfterPurge | src/database.cpp:145-232 | in every interleaving and across restarts, a pick is added twice only if a purge with a cutoff above the first copy's received time came between |
| PipelineTheorems.DuplicateExactly | src/database.cpp:145-232 | in every reachable state a pick is refused as a duplicate if and only if the database does not fail and a copy was added that no purge since had a cutoff above; the counter of duplicates moves in no other case |
| PipelineTheorems.CopiesFarApart | src/broker.cpp:335-399 | with the history in clock order the copies were received more than the retention interval apart |
| PipelineTheorems.InitialClockOrder | src/broker.cpp:122-178 | a freshly constructed broker's history is in clock order |
| PipelineTheorems.ForwardIsChronological | src/broker.cpp:335-399 | received times never behind a reading in effect, and no purge between stamp and insertion, keep the history in clock order |
| PipelineTheorems.CausalAlways | src/broker.cpp:335-453 | if received times never fall behind a reading in effect, every persisted and stored pick is in normal form and no later than its received time |
| PipelineTheorems.NormalAlways | src/broker.cpp:436-463 | whatever the clock does, every queued, persisted and stored pick is in normal form |
| PipelineTheorems.StoreSizeBound | src/pickStore.cpp:110-163 | if at most `r` entries are ever unexpired at once, the deque never exceeds half its capacity or `r + 1` |
| PipelineTheorems.InitialSize | src/pickStore.cpp:66-76 | a freshly started broker is within that bound |
| Writers.MoveOrderly | src/subscribeService.cpp:181-295 | every turn of the writer of a subscriber that was not refused keeps its protocol and its books |
| Writers.MoveSteady | src/subscribeService.cpp:181-295 | every turn of any writer keeps one write outstanding at most, of the front of the queue, and the books of picks fetched and started |
| Writers.WriterProtocol | src/subscribeService.cpp:181-295 | over every run of polls, completions, cancellations and shutdowns: `Finish` at most once and no call after it, picks started followed by queued ones not yet started are exactly those fetched, at most 32 queued |
| Writers.FrontUntouched | src/subscribeService.cpp:189-195 | while a write is outstanding the queue, whose front is being written, is not touched by anything but the completion, and no other write starts |
| Writers.SilentExactly | src/subscribeService.cpp:181-295 | over every run, the loop has called nothing if and only if no turn of it left and none followed a turn that was handed picks |
| Writers.ProtocolExactly | src/subscribeService.cpp:98-295 | over every run, `Finish` at most once and no call after it, if and only if the subscriber was not refused, or was refused for one reason, no turn of its loop left and none followed a turn that was handed picks |
| Writers.SilentPollsExactly | src/subscribeService.cpp:181-237 | the loop over the store calls nothing if and only if no poll leaves, and nothing is pending for the subscriber or it polls once at most |
| Writers.ConstructorExactly | src/subscribeService.cpp:98-237 | the constructor keeps the protocol if and only if it does not refuse, or refuses for one reason, no poll leaves, and nothing is pending or it polls once at most |
| Writers.RefusedFinishesTwice | src/subscribeService.cpp:135-237 | the RPC of a subscriber whose start the store refuses is finished twice if and only if its loop leaves |
| Writers.AsynchronousWriter.constructor | src/subscribeService.cpp:98-179 | the refusals with their exact conditions, the subscription with the requested start or waiting, and the loop started in any case |
| Writers.AsynchronousWriter.Admit | src/subscribeService.cpp:98-177 | one `Finish` per reason to refuse, in the order of the checks; a start is refused exactly when it is after the store's own clock reading, and then there is no subscription |
| Writers.AsynchronousWriter.StartNext | src/subscribeService.cpp:188-196 | starts the write of the front, leaves it in the queue and leaves the loop; one turn of the polling machine |
| Writers.AsynchronousWriter.Refill | src/subscribeService.cpp:197-216 | the queue becomes the next chunk of at most 32 picks of the store, and nothing is called; one turn of the polling machine |
| Writers.AsynchronousWriter.Leave | src/subscribeService.cpp:223-236 | leaving the loop issues one `Finish`, cancelled if the client is found to have cancelled and in order otherwise |
| Writers.AsynchronousWriter.NextWrite | src/subscribeService.cpp:181-237 | the polling loop, for any sequence of observations, computes the polling machine over the store |
| Writers.AsynchronousWriter.OnWriteDone | src/subscribeService.cpp:239-265 | a failed write finishes as cancelled if the client cancelled and as an unknown error otherwise, a completed one after the server stopped as unavailable, and neither touches queue or store; else the front is popped and the loop polls on |
| Writers.AsynchronousWriter.OnCancel | src/subscribeService.cpp:285-295 | unsubscribes once, so that no cursor is left; the queue and the calls are untouched |
| Writers.AsynchronousWriter.OnDone | src/subscribeService.cpp:267-273 | unsubscribes if that has not happened yet; the queue and the calls are untouched |
| EndToEnd.HappensKept | src/subscribeService.cpp:181-295 | every step of broker, client and writer keeps: what was fetched is what the account says was delivered, and nothing was delivered that was not added to the table, copies counted |
| EndToEnd.SentFromDelivered | src/subscribeService.cpp:181-265 | the picks sent, then those the writer holds, are the delivered stream |
| EndToEnd.CancelledFetchesNothing | src/subscribeService.cpp:285-295 | once the client has cancelled, nothing more is fetched for it, whatever happens next |
| EndToEnd.SentTwiceOnlyAfterPurge | src/broker.cpp:314-416 | in every interleaving, one subscription is sent the same pick twice only if the table added the two copies delivered, with a purge above the first copy's received time between |
| EndToEnd.SentTwiceFarApart | src/broker.cpp:335-399 | with the history in clock order, the two copies sent were received more than the retention interval apart |
| EndToEnd.SentTwiceFarApartByClock | src/broker.cpp:335-399 | the same from hypotheses on the clock readings alone |
| EndToEnd.LedgerIsFates | src/subscribeService.cpp:181-237 | while the subscription lasts, its account is the one determined by the store's run alone |
| EndToEnd.LosslessEndToEnd | src/subscribeService.cpp:181-265 | picks sent, held by the writer and pending are, in this order, exactly the picks at or above the start that the store held or received, if their times strictly increase and no clean passes an unread entry |
| EndToEnd.CompleteEndToEnd | src/subscribeService.cpp:181-265 | without any hypothesis on clocks, ties or cleans: nothing at or above the start is missing from what was sent, held and pending if and only if no event of the store lost an entry to the subscription |
| EndToEnd.RowsEndToEnd | src/broker.cpp:339-375 | under the same hypotheses, with the pick in flight they are those the store held or that were in flight at the subscription, then the rows the table accepted since; inside the window, exactly the rows the table held or accepted since |
| EndToEnd.NewPicksEndToEnd | src/subscribeService.cpp:148-265 | for a subscriber without backfill, when each insertion is later than the back: delivered and pending are exactly what the store received after it subscribed if and only if its times strictly increase, and then, with the pick in flight, exactly what the table accepted |

## Left out

- The gRPC server, TLS, access tokens, peer names, logging, export of metrics, option classes, INI files and the
  command line: plumbing.  Of the options only "capacities and retention times are positive" is used
  (src/brokerOptions.cpp:122-144, src/pickStoreOptions.cpp:57-79).
- SQLite and protobuf: rows are keyed by the pick itself, that is, serialisation is injective and parsing undoes
  it.  Whether the file system and the engine do what they are asked to are inputs; an insertion that fails leaves
  the table as it was.
- NormalForm.SameKeyIffSamePick: a pick's time is one count of nanoseconds, so timestamps are taken to be canonical;
  the code would keep two spellings of one instant in seconds and nanoseconds as two keys.
- The publishers' reader in src/publishService.cpp: after finishing for too many invalid messages it may go on, so a
  clean protocol is not what the code does.
- Subscriber and publisher limits: whether the limit is reached and whether the token is wrong are inputs of the
  writer's constructor.  No bound on the number of subscribers is claimed, because the constructor goes on after
  refusing (src/subscribeService.cpp:99-123) and the count is never taken back (src/subscribeService.cpp:274).
- Writers.AsynchronousWriter.OnDone: only after a `Finish` of the loop; what the RPC does with a writer finished
  twice is not modelled.  `EndToEnd` follows subscribers that were not refused.
- Writers.AsynchronousWriter.NextWrite: runs over the store alone; what the rest of the broker does between two
  polls is in `EndToEnd`, which shares the writer's step functions.  A read of the store never raises here, since
  it asks for 32 picks.
- Brokers.Broker.AddPickCallback: the counter of received picks moves with the push; the code increments it just
  after releasing the lock.
- Brokers.Broker.ProcessPick: the loops of the broker and of the writer see finite sequences of observations (flag,
  clock, failures) instead of running until shutdown; sleeping is a turn that does nothing.
- Starting and stopping threads and their futures, weak memory and real scheduling: interleavings of critical
  sections only.
- 64-bit overflow: times are unbounded integers.  The guarantees about runs require received times below
  `MAX_TIME - 1`, so that no entry meets the sentinel; the methods of the store do not.
- The store's constructor without backfill and `purgeOldPicksWhileMutexLocked` (src/pickStore.cpp:31-43,
  src/pickStore.cpp:239-248): the broker uses neither.
- TimeOrder.SortByTime: one possible sort; callers rely only on its result being a sorting, so the unspecified order
  of equal times is covered.
- `toupper` and `isspace` are those of the C locale on single characters.
