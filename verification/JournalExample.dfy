/** Short live runs whose journals do not rebuild the book, one for each way in which a command
    is not kept. */
module JournalExample {
  import opened Types
  import opened Seqs
  import opened Orders
  import opened Stp
  import opened Effects
  import opened Matching
  import opened Engine
  import opened Runs
  import opened MassCancelLaws
  import opened CornerCases
  import opened Replays
  import opened FailureLaws
  import opened JournalLaws

  /** A clock that stands still. */
  function Still(t: nat): Clock {
    (n: nat) => t
  }

  // ---- A rejected order that traded ----

  function Greedy(): Order { Order(Tag(2, 2, Buy, 100), Ioc, Standard, 10, 0) }

  /** The immediate order takes the ask and is answered with an error. */
  lemma GreedyFails(b: Book)
    requires Queued(b, [Ask(1)], [1]) && 2 !in b.core.locations
    ensures Failure(b.core, Submit(Greedy(), 0)).Some? && Step(b, Submit(Greedy(), 0)).core.asks == []
  {
    hide Match;
    assert Refusal(b.core, Greedy(), 0).None?;
    AskTaken(b.core, TakerOf(Greedy()), 10);
  }

  lemma AskAccepted()
    ensures Failure(Empty(Plain(false)).core, Submit(Ask(1), 0)).None?
  {
    hide Add;
    assert Sum(Total, []) == 0;
    QuietAdd(Empty(Plain(false)).core, Ask(1));
  }

  /** Two commands, the second of which fails: the replay ends with the first. */
  lemma SecondSkipped(clock: Clock, b: Book, cmds: seq<Command>)
    requires |cmds| == 2 && EntryOf(cmds[0]).Some? && EntryOf(cmds[1]).Some?
    requires Failure(b.core, cmds[0]).None? && Failure(b.core, Retimed(cmds[0], clock(0))).None?
    requires Failure(Step(b, cmds[0]).core, cmds[1]).Some?
    ensures Replay(clock, b, 0, 0, Journal(b, 0, cmds)) == Replayed(Step(b, Retimed(cmds[0], clock(0))), 0, None)
    ensures Run(b, cmds) == Step(Step(b, cmds[0]), cmds[1])
  {
    hide Step, Failure, EntryOf, Retimed, Replay, Journal, Run;
    var b1 := Step(b, cmds[0]);
    var x1, b2 := Step(b, Retimed(cmds[0], clock(0))), Step(b1, cmds[1]);
    assert cmds[1..] == [cmds[1]] && [cmds[1]][1..] == [];
    ReplayFirst(clock, b, b, 0, 0, cmds);
    ReplayFirst(clock, b1, x1, 0, 1, [cmds[1]]);
    NothingWritten(clock, b2, x1, 0, 2);
    RunFirst(b, cmds);
    RunFirst(b1, [cmds[1]]);
    RunEmpty(b2);
  }

  /** A partly filled immediate order is journalled as rejected; its replay leaves the ask
      that it took. */
  lemma SkippedFillDiverges() returns (cfg: Config, cmds: seq<Command>)
    ensures cfg.stp.Off? && OnTime(Still(0), 0, cmds) && forall cmd <- cmds :: Wellformed(cfg, cmd)
    ensures var x := Replay(Still(0), Empty(cfg), 0, 0, Journal(Empty(cfg), 0, cmds));
            x.error.None? && x.book.core.asks != [] && Run(Empty(cfg), cmds).core.asks == []
  {
    hide Step, Failure, Sound, Replay, Journal, Run;
    cfg, cmds := Plain(false), [Submit(Ask(1), 0), Submit(Greedy(), 0)];
    OneAsk();
    AskAccepted();
    GreedyFails(Step(Empty(cfg), cmds[0]));
    SecondSkipped(Still(0), Empty(cfg), cmds);
    TwoOnTime(cmds);
  }

  lemma TwoOnTime(cmds: seq<Command>)
    requires |cmds| == 2 && cmds[0].Submit? && cmds[1].Submit? && cmds[0].now == cmds[1].now == 0
    ensures OnTime(Still(0), 0, cmds)
  {
    assert cmds[1..] == [cmds[1]] && [cmds[1]][1..] == [];
    assert OnTime(Still(0), 2, []);
    assert OnTime(Still(0), 1, [cmds[1]]);
  }

  // ---- Self-trade prevention that cancels both sides ----

  function Guarded(): Config { Plain(false).(stp := CancelBoth) }
  function Own(): Order { Limit(2, 1, Buy, 100, 5) }

  lemma GuardedAsk()
    ensures var b := Step(Empty(Guarded()), Submit(Ask(1), 0));
            && b.core == Empty(Guarded()).core.(asks := [Level(100, [Ask(1)])], locations := map[1 := Location(100, Sell)])
            && Failure(Empty(Guarded()).core, Submit(Ask(1), 0)).None?
  {
    hide Step, Add;
    assert Sum(Total, []) == 0;
    QuietSubmit(Empty(Guarded()), Ask(1));
    QuietAdd(Empty(Guarded()).core, Ask(1));
  }

  lemma OwnVisit(cfg: Config, level: Level)
    requires cfg == Guarded() && level == Level(100, [Ask(1)])
    ensures var v := VisitLevel(cfg, TakerOf(Own()), level, 5); v.orders == [] && v.fills == [] && v.executed == 0 && v.halts
  {
    assert level.orders[..0] == [] && Sum(Visible, []) == 0;
    assert FirstOwned(level.orders, 1) == 0;
    assert [Ask(1)][1..] == [];
    NothingAsked([Ask(1)]);
  }

  /** The buyer is stopped, its resting ask is cancelled and the answer is an error. */
  lemma OwnFails(b: Book)
    requires b.core == Empty(Guarded()).core.(asks := [Level(100, [Ask(1)])], locations := map[1 := Location(100, Sell)])
    ensures Failure(b.core, Submit(Own(), 0)).Some? && Step(b, Submit(Own(), 0)).core.asks == []
  {
    hide Match, VisitLevel, Commit;
    var c, tk := b.core, TakerOf(Own());
    OwnVisit(c.cfg, c.asks[0]);
    var v := VisitLevel(c.cfg, tk, c.asks[0], 5);
    assert Sum(Total, []) == 0;
    assert Refusal(c, Own(), 0).None?;
    assert MatchWalk(c, tk, BaseQty(5)) == Walk([v], BaseQty(5), true, false);
    OneVisit(c.asks, v);
    assert c.asks[1..] == [] && Priced(100, []) == [];
    assert [Level(100, [])] + [] == [Level(100, [])] && [Level(100, [])][1..] == [];
    assert Prune([Level(100, [])]) == Prune([]) == [];
    MatchSettles(c, tk, BaseQty(5));
    StoppedEmpty(c, tk, BaseQty(5));
    CommitCore(b, Add(c, Own(), 0).core, Add(c, Own(), 0).effects);
  }

  lemma StoppedEmpty(c: Core, tk: Taker, stop: StopCondition)
    requires MatchWalk(c, tk, stop).stpCancelled && Trades(SideOf(c, tk.side.Opposite()), MatchWalk(c, tk, stop).visits) == []
    ensures Match(c, tk, stop).reply.Err?
  {
    hide Sweep;
  }

  /** A taker that is stopped before it trades is journalled as rejected; its replay leaves the
      ask that was cancelled with it. */
  lemma SkippedCancelDiverges() returns (cfg: Config, cmds: seq<Command>)
    ensures cfg.stp == CancelBoth && OnTime(Still(0), 0, cmds) && forall cmd <- cmds :: Wellformed(cfg, cmd)
    ensures var x := Replay(Still(0), Empty(cfg), 0, 0, Journal(Empty(cfg), 0, cmds));
            x.error.None? && x.book.core.asks != [] && Run(Empty(cfg), cmds).core.asks == []
  {
    hide Step, Failure, Replay, Journal, Run;
    cfg, cmds := Guarded(), [Submit(Ask(1), 0), Submit(Own(), 0)];
    GuardedAsk();
    OwnFails(Step(Empty(cfg), cmds[0]));
    SecondSkipped(Still(0), Empty(cfg), cmds);
    TwoOnTime(cmds);
  }

  // ---- A market close that is not journalled ----

  function DayAsk(): Order { Order(Tag(1, 1, Sell, 100), Day, Standard, 5, 0) }

  function Closing(close: Option<nat>): Book {
    var b := Empty(Plain(false)); b.(core := b.core.(close := close))
  }

  lemma DayRests(close: Option<nat>)
    requires close.Some? ==> close.value > 0
    ensures var b := Step(Closing(close), Submit(DayAsk(), 0));
            && Sound(b) && b.core.asks == [Level(100, [DayAsk()])] && b.core.close == close
            && Failure(Closing(close).core, Submit(DayAsk(), 0)).None?
  {
    hide Step, Sound, Add;
    var b := Closing(close);
    assert Sound(b) by { ClosingSound(close); }
    StepSound(b, Submit(DayAsk(), 0));
    assert Sum(Total, []) == 0;
    QuietSubmit(b, DayAsk());
    QuietAdd(b.core, DayAsk());
  }

  lemma ClosingSound(close: Option<nat>)
    ensures Sound(Closing(close))
  {
    EmptyInv(Plain(false));
    SettingSound(Empty(Plain(false)), Closing(close).core);
  }

  lemma DayEvicted(b: Book, now: nat)
    requires Sound(b) && b.core.asks == [Level(100, [DayAsk()])]
    ensures var closed := b.core.close.Some? && now >= b.core.close.value;
            Step(b, Evict(now)).core.asks == if closed then [] else b.core.asks
  {
    hide EvictExpired, Commit;
    UnfoldSound(b);
    EvictExact(b.core, b.registry, now);
    var x := EvictExpired(b.core, now);
    CommitCore(b, x.core, x.effects);
    DayPurged(now, b.core.close);
  }

  lemma DayPurged(now: nat, close: Option<nat>)
    ensures Purged(Not(ExpiredAt(now, close)), [Level(100, [DayAsk()])])
            == if close.Some? && now >= close.value then [] else [Level(100, [DayAsk()])]
  {
    var keep, orders, levels := Not(ExpiredAt(now, close)), [DayAsk()], [Level(100, [DayAsk()])];
    assert orders[1..] == [] && levels[1..] == [] && Filter(keep, []) == [] && Purged(keep, []) == [];
    assert keep(DayAsk()) <==> !Expired(Day, now, close);
    assert Filter(keep, orders) == if keep(DayAsk()) then orders else [];
  }

  /** The close is set, a day order rests and is evicted at the close. No command fails, but the
      replay knows no close and keeps the order. */
  lemma CloseNotJournalled() returns (cfg: Config, cmds: seq<Command>)
    ensures cfg.stp.Off? && OnTime(Still(0), 0, cmds) && forall cmd <- cmds :: Wellformed(cfg, cmd)
    ensures AllSteady(Empty(cfg), cmds)
    ensures var x := Replay(Still(0), Empty(cfg), 0, 0, Journal(Empty(cfg), 0, cmds));
            x.error.None? && x.book.core.asks != [] && Run(Empty(cfg), cmds).core.asks == []
  {
    hide Step, Failure, Sound, Replay, Journal, Run, Steady;
    cfg, cmds := Plain(false), [SetClose(Some(10)), Submit(DayAsk(), 0), Evict(10)];
    var b0, b1 := Empty(cfg), Closing(Some(10));
    var b2, x2 := Step(b1, cmds[1]), Step(b0, cmds[1]);
    var b3, x3 := Step(b2, cmds[2]), Step(x2, cmds[2]);
    assert Step(b0, cmds[0]) == b1 by { CloseStep(b0, Some(10)); }
    assert Closing(None) == b0;
    DayRests(Some(10));
    DayRests(None);
    DayEvicted(b2, 10);
    DayEvicted(x2, 10);
    EvictSucceeds(b2.core, 10);
    EvictSucceeds(x2.core, 10);
    var late := cmds[1..];
    assert late == [cmds[1], cmds[2]] && late[1..] == [cmds[2]] && [cmds[2]][1..] == [];
    ReplayFirst(Still(0), b0, b0, 0, 0, cmds);
    ReplayFirst(Still(0), b1, b0, 0, 0, late);
    ReplayFirst(Still(0), b2, x2, 0, 1, [cmds[2]]);
    NothingWritten(Still(0), b3, x3, 1, 2);
    RunFirst(b0, cmds);
    RunFirst(b1, late);
    RunFirst(b2, [cmds[2]]);
    RunEmpty(b3);
    assert OnTime(Still(0), 2, []) && AllSteady(b3, []);
    assert OnTime(Still(0), 1, [cmds[2]]) && AllSteady(b2, [cmds[2]]);
    assert OnTime(Still(0), 0, late) && AllSteady(b1, late);
  }

  lemma CloseStep(b: Book, close: Option<nat>)
    ensures Step(b, SetClose(close)) == b.(core := b.core.(close := close))
  {
  }

  lemma EvictSucceeds(c: Core, now: nat)
    ensures Failure(c, Evict(now)).None?
  {
  }

  // ---- A clock that has moved on ----

  function Dated(): Order { Order(Tag(1, 1, Sell, 100), Gtd(5), Standard, 5, 0) }

  lemma DatedAccepted()
    ensures Failure(Empty(Plain(false)).core, Submit(Dated(), 0)).None?
    ensures Failure(Empty(Plain(false)).core, Submit(Dated(), 5)) == Some(InvalidOperation)
  {
    hide Match;
    assert Sum(Total, []) == 0;
    QuietAdd(Empty(Plain(false)).core, Dated());
  }

  /** An order that was accepted live is refused by a replay that reads a later clock, and the
      replay ends with an error. */
  lemma LateReplayFails() returns (cfg: Config, cmds: seq<Command>)
    ensures OnTime(Still(0), 0, cmds) && forall cmd <- cmds :: Wellformed(cfg, cmd)
    ensures Replay(Still(5), Empty(cfg), 0, 0, Journal(Empty(cfg), 0, cmds)).error.Some?
    ensures Replay(Still(0), Empty(cfg), 0, 0, Journal(Empty(cfg), 0, cmds)).error.None?
  {
    hide Step, Failure, Replay, Journal;
    cfg, cmds := Plain(false), [Submit(Dated(), 0)];
    var b := Empty(cfg);
    DatedAccepted();
    assert cmds[1..] == [] && OnTime(Still(0), 1, []);
    ReplayFirst(Still(5), b, b, 0, 0, cmds);
    ReplayFirst(Still(0), b, b, 0, 0, cmds);
    NothingWritten(Still(0), Step(b, cmds[0]), Step(b, cmds[0]), 0, 1);
  }
}
