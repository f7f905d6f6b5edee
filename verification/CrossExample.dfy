/** Why a crossed book is ruled out only for orders that stay matchable and in whole lots: two
    runs of three submissions that cross it. The second also misleads the self-cross check. */
module CrossExample {
  import opened Types
  import opened Seqs
  import opened Orders
  import opened Levels
  import opened Stp
  import opened Effects
  import opened Matching
  import opened Engine
  import opened CoreLaws
  import opened Runs
  import opened CrossLaws
  import opened CornerCases
  import opened LotLaws
  import opened SelfCross
  import opened Arith

  function Dim(): Order { Order(Tag(2, 2, Buy, 100), Gtc, Reserve(None, false), 5, 5) }
  function Cheap(): Order { Limit(3, 3, Sell, 99, 5) }

  lemma DimRests(c: Core)
    requires c.asks == [Level(100, [Ask(1)])] && c.bids == [] && c.cfg == Plain(false) && !c.killed && c.close == None
    requires 2 !in c.locations && 3 !in c.locations
    ensures var x := Add(c, Dim(), 0).core;
            x.asks == [] && x.bids == [Level(100, [Dim().(visible := 0)])] && x.cfg == Plain(false) && !x.killed && x.close == None
            && 3 !in x.locations
  {
    hide Match, Refusal, Add, Rest, Residual;
    var o := Dim();
    var m := Match(c, TakerOf(o), BaseQty(10));
    AskTaken(c, TakerOf(o), 10);
    DimAdmitted(c);
    AddFinishes(c, o);
    RestsAlone(m.core, o.(visible := 0));
    FoldPair(LocateStep, c.locations, m.effects[0], m.effects[1]);
  }

  lemma DimAdmitted(c: Core)
    requires c.bids == [] && c.cfg == Plain(false) && !c.killed && c.close == None && 2 !in c.locations
    ensures Refusal(c, Dim(), 0).None? && Residual(Dim(), 5) == Dim().(visible := 0)
  {
    assert Sum(Total, []) == 0;
  }

  lemma CheapVisit(cfg: Config, level: Level)
    requires cfg == Plain(false) && level == Level(100, [Dim().(visible := 0)])
    ensures VisitLevel(cfg, TakerOf(Cheap()), level, 5) == Visit(5, level.orders, [], [], [], 0, [], false)
  {
    SumCons(Drawable, level.orders[0], []);
    assert [level.orders[0]] + [] == level.orders;
    MatchNothing(5, level.orders, false);
  }

  lemma CheapSweep(c: Core)
    requires c.asks == [] && c.bids == [Level(100, [Dim().(visible := 0)])] && c.cfg == Plain(false)
    ensures var m := Match(c, TakerOf(Cheap()), BaseQty(5));
            && m.reply.Ok? && !m.reply.value.rejected && !m.reply.value.stpCancelled
            && m.reply.value.result.remaining == 5 && m.core.asks == []
  {
    hide VisitLevel, Match;
    var tk := TakerOf(Cheap());
    CheapVisit(c.cfg, c.bids[0]);
    var v := VisitLevel(c.cfg, tk, c.bids[0], 5);
    assert c.bids[1..] == [];
    assert Sweep(c.cfg, tk, [], BaseQty(5)) == Walk([], BaseQty(5), false, false);
    assert MatchWalk(c, tk, BaseQty(5)) == Walk([v], BaseQty(5), false, false);
    OneVisitMatch(c, tk, 5, v, 5);
  }

  lemma CheapBlocked(c: Core)
    requires c.bids == [Level(100, [Dim().(visible := 0)])] && c.cfg == Plain(false)
    ensures Blocked(c, Cheap())
  {
    var dim := Dim().(visible := 0);
    assert Drawable(dim) == 0 && !Matchable(dim);
    assert !Active(c.cfg.stp, Cheap().tag.user);
    FilterAll(Not(Matchable), [dim]);
    assert Filter(Not(Matchable), [dim]) == [dim];
    assert Stuck(c.cfg, Cheap().tag.user, [dim]) == [dim];
    assert c.bids[0] in SideOf(c, Buy);
  }

  lemma CheapRests(c: Core)
    requires c.asks == [] && c.bids == [Level(100, [Dim().(visible := 0)])] && c.cfg == Plain(false) && !c.killed && c.close == None
    requires 3 !in c.locations
    ensures !CrossFree(Add(c, Cheap(), 0).core)
  {
    hide Match, Add, CrossFree, Blocked;
    var o, dim := Cheap(), Dim().(visible := 0);
    assert Sum(Total, [dim]) == 5;
    CheapSweep(c);
    assert ComesToRest(c, o, 0);
    CheapBlocked(c);
    assert CrossFree(c) by { CrossFreeBySide(c, Sell); }
    NoLots(c.cfg, c.bids);
    RestCrossesExactly(c, o, 0);
  }

  /** A reserve that neither replenishes nor knows an amount can rest with nothing
      displayed. Here one does, and the next sell rests below its price. */
  lemma DimReserveCrosses() returns (cmds: seq<Command>)
    ensures forall cmd <- cmds :: Wellformed(Plain(false), cmd)
    ensures LotSize(Plain(false)) <= 1
    ensures !CrossFree(Run(Empty(Plain(false)), cmds).core)
  {
    hide Add, CrossFree;
    cmds := [Submit(Ask(1), 0), Submit(Dim(), 0), Submit(Cheap(), 0)];
    var b0 := Empty(Plain(false));
    FirstRests(false, Ask(1));
    var b1 := Step(b0, cmds[0]);
    DimRests(b1.core);
    var b2 := Step(b1, cmds[1]);
    CheapRests(b2.core);
    assert cmds[1..][1..] == [cmds[2]] && [cmds[2]][1..] == [];
    assert Run(b2, [cmds[2]]) == Step(b2, cmds[2]);
    assert Run(b1, cmds[1..]) == Run(b2, cmds[1..][1..]);
  }

  // ---- A reserve that displays less than a lot ----

  function Lotted(stp: StpMode): Config { Plain(false).(lot := Some(10), stp := stp) }
  function Uneven(): Order { Order(Tag(1, 1, Buy, 101), Gtc, Reserve(Some(7), false), 3, 7) }
  function Even(): Order { Limit(2, 2, Buy, 100, 10) }
  function Seller(): Order { Limit(3, 3, Sell, 100, 10) }

  lemma UnevenVisit(cfg: Config, tk: Taker, level: Level)
    requires cfg == Lotted(cfg.stp) && level == Level(101, [Uneven()]) && tk.side == Sell && tk.user != 1
    ensures VisitLevel(cfg, tk, level, 10)
            == Visit(10, [], [Fill(1, 1, 3)], [Uneven()], [], 3, [LevelChanged(Buy, 101, 0)], false)
  {
    assert [Uneven()][1..] == [];
    EmptyQueue(7, false);
  }

  /** The reserve gives 3 of 10; the rest is less than a lot and stops before the next level. */
  lemma UnevenWalk(cfg: Config, tk: Taker, levels: seq<Level>)
    requires cfg == Lotted(cfg.stp) && levels == [Level(101, [Uneven()]), Level(100, [Even()])]
    requires tk.side == Sell && tk.user != 1 && tk.limit == Some(100) && !tk.postOnly
    ensures Sweep(cfg, tk, levels, BaseQty(10)) == Walk([VisitLevel(cfg, tk, levels[0], 10)], BaseQty(7), false, false)
  {
    hide VisitLevel;
    UnevenVisit(cfg, tk, levels[0]);
    assert levels[1..] == [Level(100, [Even()])];
    assert Sweep(cfg, tk, levels[1..], BaseQty(7)) == Walk([], BaseQty(7), false, false);
  }

  lemma UnevenSweep(c: Core)
    requires c.cfg == Lotted(Off) && c.bids == [Level(101, [Uneven()]), Level(100, [Even()])]
    ensures var m := Match(c, TakerOf(Seller()), BaseQty(10));
            && m.reply.Ok? && !m.reply.value.rejected && !m.reply.value.stpCancelled && m.reply.value.result.remaining == 7
            && m.core.bids == [Level(100, [Even()])] && m.core.asks == c.asks
  {
    hide VisitLevel, Match, Sweep;
    var tk := TakerOf(Seller());
    UnevenVisit(c.cfg, tk, c.bids[0]);
    UnevenWalk(c.cfg, tk, c.bids);
    OneVisitMatch(c, tk, 10, VisitLevel(c.cfg, tk, c.bids[0], 10), 7);
    assert c.bids[1..] == [Level(100, [Even()])];
    assert [Level(101, [])] + c.bids[1..] == [Level(101, []), Level(100, [Even()])];
    KeptLevel(Level(101, []), Level(100, [Even()]));
  }

  lemma KeptLevel(gone: Level, kept: Level)
    requires gone.orders == [] && kept.orders != []
    ensures Prune([gone, kept]) == [kept]
  {
    assert [gone, kept][1..] == [kept] && [kept][1..] == [];
    assert Prune([kept]) == [kept] + Prune([]);
  }

  lemma SellerCrosses(c: Core)
    requires c.cfg == Lotted(Off) && c.bids == [Level(101, [Uneven()]), Level(100, [Even()])] && c.asks == []
    requires !c.killed && c.close == None && 3 !in c.locations
    ensures !CrossFree(Add(c, Seller(), 0).core)
  {
    hide Match, Refusal, Add, Rest;
    var m := Match(c, TakerOf(Seller()), BaseQty(10));
    UnevenSweep(c);
    SellerAdmitted(c);
    AddFinishes(c, Seller());
    RestsAlone(m.core, Seller().(visible := 7));
    var x := Add(c, Seller(), 0).core;
    assert x.asks == [Level(100, [Seller().(visible := 7)])] && x.bids == m.core.bids;
    assert x.bids[0] in x.bids && x.asks[0] in x.asks;
  }

  lemma SellerAdmitted(c: Core)
    requires c.cfg == Lotted(Off) && c.asks == [] && !c.killed && c.close == None && 3 !in c.locations
    ensures Refusal(c, Seller(), 0).None?
  {
    assert Sum(Total, []) == 0;
  }

  lemma UnevenFirst(stp: StpMode)
    ensures var b := Step(Empty(Lotted(stp)), Submit(Uneven(), 0));
            && CoreOk(b.core)
            && b.core == Empty(Lotted(stp)).core.(bids := [Level(101, [Uneven()])], locations := map[1 := Location(101, Buy)])
  {
    hide Step, Rest, Inv;
    var b := Empty(Lotted(stp));
    assert Sum(Total, []) == 0;
    QuietSubmit(b, Uneven());
    EmptyInv(Lotted(stp));
    StepInv(b, Submit(Uneven(), 0));
    UnfoldInv(Step(b, Submit(Uneven(), 0)));
  }

  lemma EvenFollows(c: Core, stp: StpMode)
    requires c == Empty(Lotted(stp)).core.(bids := [Level(101, [Uneven()])], locations := map[1 := Location(101, Buy)])
    ensures Quiet(c, Even()) && Room(c.bids, Even())
    ensures Place(Buy, c.bids, Even()) == [Level(101, [Uneven()]), Level(100, [Even()])]
  {
    assert c.bids[1..] == [];
    assert LevelAt(c.bids[1..], 100).None?;
    assert QueueAt(c.bids, 100) == [] && Sum(Total, []) == 0;
    assert Place(Buy, [], Even()) == [Level(100, [Even()])];
  }

  lemma UnevenRests(stp: StpMode)
    ensures var b := Run(Empty(Lotted(stp)), [Submit(Uneven(), 0), Submit(Even(), 0)]);
            && b.core.cfg == Lotted(stp) && !b.core.killed && b.core.close == None && 3 !in b.core.locations
            && b.core.bids == [Level(101, [Uneven()]), Level(100, [Even()])] && b.core.asks == []
  {
    hide Step, Run, Quiet, Room, Place;
    var b0, cmds := Empty(Lotted(stp)), [Submit(Uneven(), 0), Submit(Even(), 0)];
    var b1 := Step(b0, cmds[0]);
    UnevenFirst(stp);
    EvenFollows(b1.core, stp);
    QuietSubmit(b1, Even());
    RunOne(b0, [], cmds[0]);
    RunOne(b0, [cmds[0]], cmds[1]);
    assert [] + [cmds[0]] == [cmds[0]] && [cmds[0]] + [cmds[1]] == cmds;
    assert Run(b0, []) == b0 by { RunEmpty(b0); }
  }

  /** A reserve admitted with a display of less than a lot can leave a taker with less than a
      lot, which rests against the next level. */
  lemma UnevenReserveCrosses() returns (cfg: Config, cmds: seq<Command>)
    ensures forall cmd <- cmds :: Wellformed(cfg, cmd) && (cmd.Submit? ==> Lit(cmd.order))
    ensures !CrossFree(Run(Empty(cfg), cmds).core)
  {
    hide Run, Add, CrossFree;
    var first := [Submit(Uneven(), 0), Submit(Even(), 0)];
    cfg, cmds := Lotted(Off), first + [Submit(Seller(), 0)];
    UnevenRests(Off);
    RunOne(Empty(cfg), first, Submit(Seller(), 0));
    SellerCrosses(Run(Empty(cfg), first).core);
  }

  /** On the same two bids the self-cross check of a modify turns away a seller that the sweep
      would not stop: it counts less than a lot as reaching the seller's own bid. */
  lemma UnevenReserveBlocks() returns (cfg: Config, cmds: seq<Command>, tk: Taker)
    ensures forall cmd <- cmds :: Wellformed(cfg, cmd)
    ensures StopsTaker(cfg.stp, tk.user) && !tk.postOnly && Whole(Unit(cfg), 10)
    ensures var c := Run(Empty(cfg), cmds).core;
            Reaches(tk, c.bids, 10) && !Sweep(c.cfg, tk, c.bids, BaseQty(10)).stpCancelled
  {
    hide Run, Sweep;
    cfg, cmds := Lotted(CancelTaker), [Submit(Uneven(), 0), Submit(Even(), 0)];
    tk := TakerOf(Limit(3, 2, Sell, 100, 10));
    UnevenRests(CancelTaker);
    var c := Run(Empty(cfg), cmds).core;
    UnevenWalk(c.cfg, tk, c.bids);
    assert c.bids[1..] == [Level(100, [Even()])];
    SumCons(Drawable, Uneven(), []);
    assert [Uneven()] + [] == [Uneven()];
    assert Even() in c.bids[1..][0].orders;
    assert Reaches(tk, c.bids[1..], 7);
  }
}
