/** The messages that flow through the broker, and the time axis they are ordered on. */
module Picks {
  import opened Wrappers

  /** Each field is optional because the messages track explicit presence. */
  datatype StreamIdentifier = StreamIdentifier(
    network: Option<string>, station: Option<string>, channel: Option<string>, locationCode: Option<string>)

  datatype Algorithm = Algorithm(name: Option<string>, version: Option<string>, tag: Option<string>)

  datatype PhaseHint = Unknown | P | S

  /** `time` is the pick's own time in nanoseconds since the epoch. */
  datatype Pick = Pick(
    streamIdentifier: Option<StreamIdentifier>, time: Option<int>, phaseHint: Option<PhaseHint>,
    algorithm: Option<Algorithm>)

  /** The exceptions the modelled operations raise. */
  datatype Error =
    | InvalidArgument(message: string)
    | DuplicatePick
    | RuntimeError(message: string)

  /** A pick together with the time at which the broker received it. */
  datatype Entry = Entry(time: int, pick: Pick)

  /** The largest signed 64-bit nanosecond count; as a cursor it means "start at the next pick". */
  const MAX_TIME: int := 0x7FFF_FFFF_FFFF_FFFF

  /** Received times this early leave room for the cursor step past them without meeting the sentinel. */
  predicate InRange(e: Entry) {
    e.time < MAX_TIME - 1
  }

  /** Capacities and retention times; the setters of the options refuse anything else. */
  type Positive = n: int | 0 < n witness 1

  function PicksOf(entries: seq<Entry>): (picks: seq<Pick>)
    ensures |picks| == |entries|
    ensures forall i :: 0 <= i < |entries| ==> picks[i] == entries[i].pick
  {
    seq(|entries|, i requires 0 <= i < |entries| => entries[i].pick)
  }

  lemma PicksOfAppend(a: seq<Entry>, b: seq<Entry>)
    ensures PicksOf(a + b) == PicksOf(a) + PicksOf(b)
  {
  }

  function Max(a: int, b: int): int {
    if a < b then b else a
  }

  function Min(a: int, b: int): int {
    if a < b then a else b
  }
}
