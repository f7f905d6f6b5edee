/** Replaying a journal: what an entry can say, and what the loop over the entries computes. */
module Replays {
  import opened Types
  import opened Matching
  import opened Engine
  import opened Runs

  /** What a journal can hold. Orders and updates carry no time; market orders carry no user and
      no limit; there is no entry for the kill switch or the market close. */
  datatype Entry =
    | AddEntry(order: Order)
    | CancelEntry(id: Id)
    | UpdateEntry(update: Update)
    | MarketEntry(id: Id, quantity: nat, side: Side)
    | AmountEntry(id: Id, amount: nat, side: Side)
    | CancelAllEntry
    | CancelSideEntry(side: Side)
    | CancelUserEntry(user: User)
    | CancelRangeEntry(side: Side, low: Price, high: Price)
    | EvictEntry(now: nat)

  /** The entry a command leaves; the time it read is lost. */
  function EntryOf(cmd: Command): Option<Entry> {
    match cmd
    case Submit(o, _) => Some(AddEntry(o))
    case CancelOne(id) => Some(CancelEntry(id))
    case Change(u, _) => Some(UpdateEntry(u))
    case Market(id, user, side, stop) =>
      if user != ANONYMOUS then None
      else if stop.BaseQty? then Some(MarketEntry(id, stop.remaining, side))
      else Some(AmountEntry(id, stop.remaining, side))
    case Execute(_, _) => None
    case CancelEverything => Some(CancelAllEntry)
    case CancelSide(s) => Some(CancelSideEntry(s))
    case CancelUser(u) => Some(CancelUserEntry(u))
    case CancelRange(s, low, high) => Some(CancelRangeEntry(s, low, high))
    case Evict(now) => Some(EvictEntry(now))
    case SetKillSwitch(_) => None
    case SetClose(_) => None
  }

  /** The command an entry stands for on a book whose clock reads `now`. An eviction uses its
      own time. */
  function At(e: Entry, now: nat): Command {
    match e
    case AddEntry(o) => Submit(o, now)
    case CancelEntry(id) => CancelOne(id)
    case UpdateEntry(u) => Change(u, now)
    case MarketEntry(id, q, side) => Market(id, ANONYMOUS, side, BaseQty(q))
    case AmountEntry(id, a, side) => Market(id, ANONYMOUS, side, QuoteAmount(a))
    case CancelAllEntry => CancelEverything
    case CancelSideEntry(s) => CancelSide(s)
    case CancelUserEntry(u) => CancelUser(u)
    case CancelRangeEntry(s, low, high) => CancelRange(s, low, high)
    case EvictEntry(t) => Evict(t)
  }

  /** A command as it would be at another time. */
  function Retimed(cmd: Command, now: nat): Command {
    match cmd
    case Submit(o, _) => Submit(o, now)
    case Change(u, _) => Change(u, now)
    case _ => cmd
  }

  /** An entry stands for its command at the time of the replay, and every entry is the entry of
      a command. */
  lemma EntryRoundTrip(cmd: Command, e: Entry, now: nat)
    ensures EntryOf(cmd).Some? ==> At(EntryOf(cmd).value, now) == Retimed(cmd, now)
    ensures EntryOf(At(e, now)) == Some(e)
  {
  }

  /** A journal record; `rejected` is the recorded result of the live execution. */
  datatype Record = Record(number: nat, entry: Entry, rejected: bool)

  datatype ReplayError =
    | SequenceGap(expected: nat, found: nat)
    | BookFailed(number: nat, error: Error)
    | SequenceOverflow(at: nat)

  datatype Replayed = Replayed(book: Book, last: nat, error: Option<ReplayError>)

  /** What the book's clock reads when the record of a number is applied. */
  type Clock = nat -> nat

  function CommandOf(clock: Clock, r: Record): Command {
    At(r.entry, clock(r.number))
  }

  /** Apply the records in turn: numbers must be consecutive, rejected ones are skipped and a
      command that fails ends the replay. */
  function Replay(clock: Clock, b: Book, last: nat, expected: nat, records: seq<Record>): Replayed
    decreases |records|
  {
    if records == [] then Replayed(b, last, None)
    else
      var r, cmd := records[0], CommandOf(clock, records[0]);
      var next := if r.rejected then b else Step(b, cmd);
      if r.number != expected then Replayed(b, last, Some(SequenceGap(expected, r.number)))
      else if !r.rejected && Failure(b.core, cmd).Some? then
        Replayed(next, last, Some(BookFailed(r.number, Failure(b.core, cmd).value)))
      else if expected == U64_MAX then Replayed(next, last, Some(SequenceOverflow(expected)))
      else Replay(clock, next, if r.rejected then last else r.number, expected + 1, records[1..])
  }

  function Accepted(clock: Clock, records: seq<Record>): seq<Command> {
    if records == [] then []
    else (if records[0].rejected then [] else [CommandOf(clock, records[0])]) + Accepted(clock, records[1..])
  }

  lemma RunCons(b: Book, cmd: Command, rest: seq<Command>)
    ensures Run(b, [cmd] + rest) == Run(Step(b, cmd), rest)
  {
    hide Step;
    assert ([cmd] + rest)[1..] == rest;
  }

  /** Without an error the numbers are consecutive and the book is the run of the records that
      were not rejected. */
  lemma {:induction false} ReplaySucceeds(clock: Clock, b: Book, last: nat, expected: nat, records: seq<Record>)
    requires Replay(clock, b, last, expected, records).error.None?
    ensures Replay(clock, b, last, expected, records).book == Run(b, Accepted(clock, records))
    ensures forall i :: 0 <= i < |records| ==> records[i].number == expected + i
    decreases |records|
  {
    hide Step, Run, Failure, CommandOf;
    if records == [] {
      RunEmpty(b);
    } else {
      var r, cmd, rest := records[0], CommandOf(clock, records[0]), records[1..];
      var next := if r.rejected then b else Step(b, cmd);
      ReplaySucceeds(clock, next, if r.rejected then last else r.number, expected + 1, rest);
      RunCons(b, cmd, Accepted(clock, rest));
      assert [] + Accepted(clock, rest) == Accepted(clock, rest);
    }
  }

  /** A reported gap is the first number that does not follow. */
  lemma {:induction false} GapReported(clock: Clock, b: Book, last: nat, expected: nat, records: seq<Record>) returns (k: nat)
    requires var x := Replay(clock, b, last, expected, records); x.error.Some? && x.error.value.SequenceGap?
    ensures k < |records| && records[k].number != expected + k
    ensures forall i :: 0 <= i < k ==> records[i].number == expected + i
    ensures Replay(clock, b, last, expected, records).error == Some(SequenceGap(expected + k, records[k].number))
    decreases |records|
  {
    hide Step, Failure, CommandOf;
    var r := records[0];
    if r.number != expected {
      k := 0;
    } else {
      var next := if r.rejected then b else Step(b, CommandOf(clock, r));
      var rest := GapReported(clock, next, if r.rejected then last else r.number, expected + 1, records[1..]);
      k := rest + 1;
    }
  }
}
