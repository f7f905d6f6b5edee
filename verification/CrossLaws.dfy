/** The book is never crossed: the best bid stays strictly below the best ask. */
module CrossLaws {
  import opened Types
  import opened Seqs
  import opened Arith
  import opened Orders
  import opened Levels
  import opened Stp
  import opened Effects
  import opened Matching
  import opened VisitLaws
  import opened SweepLaws
  import opened BudgetLaws
  import opened Engine
  import opened LotLaws
  import opened SideLaws
  import opened CoreLaws
  import opened OpLaws
  import opened Runs

  predicate CrossFree(c: Core) {
    forall b <- c.bids, a <- c.asks :: b.price < a.price
  }

  /** What a sweep with quantity to spare leaves of a level: the unmatchable orders. */
  function Stuck(cfg: Config, user: User, orders: seq<Order>): seq<Order> {
    Filter(Not(Matchable),
           if Decide(orders, user, cfg.stp).RemoveMakers? then Filter(Not(Mine(user)), orders) else orders)
  }

  lemma VisitStuck(cfg: Config, tk: Taker, level: Level, cap: nat)
    requires !VisitLevel(cfg, tk, level, cap).halts
    requires Reach(cfg, tk.user, level.orders) <= cap
    ensures VisitLevel(cfg, tk, level, cap).orders == Stuck(cfg, tk.user, level.orders)
  {
    var orders := if Decide(level.orders, tk.user, cfg.stp).RemoveMakers? then Filter(Not(Mine(tk.user)), level.orders) else level.orders;
    VisitExecutes(cfg, tk, level, cap);
    MatchLeavesUnmatchable(cap, orders, cfg.requeueBack);
  }

  /** A level with more in reach than the cap keeps something. */
  lemma VisitKeepsDepth(cfg: Config, tk: Taker, level: Level, cap: nat)
    requires !VisitLevel(cfg, tk, level, cap).halts
    requires Reach(cfg, tk.user, level.orders) > cap
    ensures VisitLevel(cfg, tk, level, cap).orders != []
  {
    var orders := if Decide(level.orders, tk.user, cfg.stp).RemoveMakers? then Filter(Not(Mine(tk.user)), level.orders) else level.orders;
    VisitExecutes(cfg, tk, level, cap);
    MatchExecutes(cap, orders, cfg.requeueBack);
    assert Sum(Drawable, []) == 0;
  }

  /** A taker for whole lots left with quantity has walked every level within its limit and
      left there only what nobody can match. */
  lemma {:induction false} SweepStuck(cfg: Config, tk: Taker, levels: seq<Level>, r: nat, i: nat)
    requires !tk.postOnly && BestFirst(tk.side.Opposite(), levels)
    requires Whole(Unit(cfg), r) && SideInLots(Unit(cfg), levels)
    requires i < |levels|
    requires var w := Sweep(cfg, tk, levels, BaseQty(r)); w.stop.remaining > 0 && !w.stpCancelled
    ensures var visits := Sweep(cfg, tk, levels, BaseQty(r)).visits;
            if Within(tk.side, tk.limit, levels[i].price)
            then i < |visits| && visits[i].orders == Stuck(cfg, tk.user, levels[i].orders)
            else i >= |visits|
  {
    hide Sweep, VisitLevel, Decide, LotSize, Stuck, LevelCap, Whole, Unit, AllInLots;
    var w := Sweep(cfg, tk, levels, BaseQty(r));
    SweepStep(cfg, tk, levels, BaseQty(r));
    CapWhole(cfg, BaseQty(r), levels[0].price);
    if w.visits == [] {
      assert i > 0 ==> Better(tk.side.Opposite(), levels[0].price, levels[i].price);
    } else {
      var v := w.visits[0];
      VisitExecutes(cfg, tk, levels[0], v.cap);
      VisitStuck(cfg, tk, levels[0], v.cap);
      if i > 0 {
        assert AllInLots(Unit(cfg), levels[0].orders) && SideInLots(Unit(cfg), levels[1..]) by {
          assert levels[0] in levels && forall l <- levels[1..] :: l in levels;
        }
        ReachWhole(cfg, tk.user, levels[0].orders);
        WholeSum(Unit(cfg), r, v.executed);
        SweepStuck(cfg, tk, levels[1..], r - v.executed, i - 1);
      }
    }
  }

  /** Some level within the taker's limit holds an order nobody can match. */
  predicate Blocked(c: Core, o: Order) {
    exists l :: l in SideOf(c, o.tag.side.Opposite())
             && Within(o.tag.side, Some(o.tag.price), l.price)
             && Stuck(c.cfg, o.tag.user, l.orders) != []
  }

  /** The submitted order comes to rest, in part or whole. */
  predicate ComesToRest(c: Core, o: Order, now: nat) {
    Refusal(c, o, now).None? &&
    var m := Match(c, TakerOf(o), BaseQty(TotalQuantity(o)));
    && m.reply.Ok?
    && !m.reply.value.rejected
    && !m.reply.value.stpCancelled
    && m.reply.value.result.remaining > 0
    && !Immediate(o)
    && Room(SideOf(m.core, o.tag.side), Residual(o, m.reply.value.result.remaining))
  }

  lemma PruneBlocked(cfg: Config, tk: Taker, levels: seq<Level>, after: seq<Level>)
    requires |after| == |levels|
    requires forall i :: 0 <= i < |levels| ==> after[i].price == levels[i].price
    requires forall i :: 0 <= i < |levels| && Within(tk.side, tk.limit, levels[i].price) ==>
               after[i].orders == Stuck(cfg, tk.user, levels[i].orders)
    ensures (exists l :: l in levels && Within(tk.side, tk.limit, l.price) && Stuck(cfg, tk.user, l.orders) != [])
            <==> exists l :: l in Prune(after) && Within(tk.side, tk.limit, l.price)
  {
    hide Stuck, Within;
    if l :| l in levels && Within(tk.side, tk.limit, l.price) && Stuck(cfg, tk.user, l.orders) != [] {
      var i :| 0 <= i < |levels| && levels[i] == l;
      FilterMember(Occupied, after, after[i]);
      assert after[i] in Prune(after) && Within(tk.side, tk.limit, after[i].price);
    }
    if l :| l in Prune(after) && Within(tk.side, tk.limit, l.price) {
      FilterMember(Occupied, after, l);
      var i :| 0 <= i < |after| && after[i] == l;
      assert levels[i] in levels && Stuck(cfg, tk.user, levels[i].orders) != [];
    }
  }

  /** A resting order finds on the other side, within its limit, exactly the levels that
      hold unmatchable orders. */
  lemma RestMeets(c: Core, o: Order, now: nat)
    requires CoreOk(c) && SideInLots(Unit(c.cfg), SideOf(c, o.tag.side.Opposite())) && ComesToRest(c, o, now)
    requires Proper(o)
    ensures var opposite := SideOf(Match(c, TakerOf(o), BaseQty(TotalQuantity(o))).core, o.tag.side.Opposite());
            && (Blocked(c, o) <==> exists l :: l in opposite && Within(o.tag.side, Some(o.tag.price), l.price))
            && (forall l <- opposite :: exists m :: m in SideOf(c, o.tag.side.Opposite()) && m.price == l.price)
  {
    hide Sweep, VisitLevel, Stuck, Validate, Headroom, Within, Unit, Whole, SideInLots;
    AdmittedWhole(c, o, now);
    var tk, side := TakerOf(o), o.tag.side.Opposite();
    var levels, q := SideOf(c, side), TotalQuantity(o);
    var w := MatchWalk(c, tk, BaseQty(q));
    var after := After(levels, w.visits);
    MatchResultLaws(c, tk, BaseQty(q));
    SweepVisits(c.cfg, tk, levels, BaseQty(q));
    SweptOk(c.cfg, tk, levels, w.visits);
    forall i | 0 <= i < |levels| && Within(tk.side, tk.limit, levels[i].price)
      ensures after[i].orders == Stuck(c.cfg, tk.user, levels[i].orders)
    {
      if tk.postOnly {
        PostOnlyClear(c, o, now, i);
      } else {
        SweepStuck(c.cfg, tk, levels, q, i);
      }
    }
    PruneBlocked(c.cfg, tk, levels, after);
  }

  /** A post-only order that passed validation has nothing within its limit. */
  lemma PostOnlyClear(c: Core, o: Order, now: nat, i: nat)
    requires CoreOk(c) && Refusal(c, o, now).None? && o.kind.PostOnly?
    requires i < |SideOf(c, o.tag.side.Opposite())|
    ensures var levels := SideOf(c, o.tag.side.Opposite());
            && !Within(o.tag.side, Some(o.tag.price), levels[i].price)
            && MatchWalk(c, TakerOf(o), BaseQty(TotalQuantity(o))).visits == []
  {
    var side, levels := o.tag.side.Opposite(), SideOf(c, o.tag.side.Opposite());
    assert !WillCross(c, o.tag.price, o.tag.side);
    assert SideOk(side, levels);
    if i > 0 {
      assert Better(side, levels[0].price, levels[i].price);
    }
  }

  lemma {:induction false} PlaceHas(side: Side, levels: seq<Level>, o: Order)
    ensures exists l :: l in Place(side, levels, o) && l.price == o.tag.price
    decreases |levels|
  {
    if levels == [] || Better(side, o.tag.price, levels[0].price) || levels[0].price == o.tag.price {
      assert Place(side, levels, o)[0].price == o.tag.price;
    } else {
      PlaceHas(side, levels[1..], o);
      var l :| l in Place(side, levels[1..], o) && l.price == o.tag.price;
      assert l in Place(side, levels, o);
    }
  }

  predicate Clear(side: Side, price: Price, opposite: seq<Level>) {
    forall l <- opposite :: !Within(side, Some(price), l.price)
  }

  lemma CrossFreeBySide(c: Core, side: Side)
    ensures CrossFree(c) <==> forall l <- SideOf(c, side) :: Clear(side, l.price, SideOf(c, side.Opposite()))
  {
  }

  lemma MatchKeepsOwnSide(c: Core, tk: Taker, stop: StopCondition)
    ensures SideOf(Match(c, tk, stop).core, tk.side) == SideOf(c, tk.side)
  {
    hide Sweep;
  }

  /** A submission that comes to rest in an uncrossed book leaves it uncrossed if and only if
      its sweep left nothing within its limit. */
  lemma RestCrosses(c: Core, o: Order, now: nat)
    requires CrossFree(c) && Proper(o) && ComesToRest(c, o, now)
    requires forall l <- SideOf(Match(c, TakerOf(o), BaseQty(TotalQuantity(o))).core, o.tag.side.Opposite()) ::
               exists m :: m in SideOf(c, o.tag.side.Opposite()) && m.price == l.price
    ensures CrossFree(Add(c, o, now).core)
            <==> Clear(o.tag.side, o.tag.price, SideOf(Match(c, TakerOf(o), BaseQty(TotalQuantity(o))).core, o.tag.side.Opposite()))
  {
    hide Match, Validate, Headroom, SetTotalRemaining, CrossFree;
    var tk, q, side := TakerOf(o), TotalQuantity(o), o.tag.side;
    var m := Match(c, tk, BaseQty(q));
    var rest := Residual(o, m.reply.value.result.remaining);
    var c', own, opposite := Add(c, o, now).core, SideOf(c, side), SideOf(m.core, side.Opposite());
    MatchResultLaws(c, tk, BaseQty(q));
    ResidualConserved(o, m.reply.value.result.remaining);
    MatchKeepsOwnSide(c, tk, BaseQty(q));
    assert SideOf(c', side) == Place(side, own, rest) && SideOf(c', side.Opposite()) == opposite;
    CrossFreeBySide(c', side);
    CrossFreeBySide(c, side);
    PlaceHas(side, own, rest);
    if Clear(side, o.tag.price, opposite) {
      forall l | l in own ensures Clear(side, l.price, opposite) {
        assert Clear(side, l.price, SideOf(c, side.Opposite()));
      }
      PlacePrices((p: Price) => Clear(side, p, opposite), side, own, rest);
    }
  }

  /** A submission that comes to rest in an uncrossed book, with the other side in whole lots,
      crosses it if and only if an unmatchable order stands within its limit. */
  lemma RestCrossesExactly(c: Core, o: Order, now: nat)
    requires CoreOk(c) && SideInLots(Unit(c.cfg), SideOf(c, o.tag.side.Opposite())) && CrossFree(c)
    requires Proper(o) && ComesToRest(c, o, now)
    ensures CrossFree(Add(c, o, now).core) <==> !Blocked(c, o)
  {
    hide Match, Validate, Headroom, Blocked, SetTotalRemaining, CrossFree, SideInLots, ComesToRest;
    RestMeets(c, o, now);
    RestCrosses(c, o, now);
  }

  // ---- Any lot size, any queues ----

  /** The dry run of a sweep that empties every level within the limit: at each one a whole lot
      is left to ask for, it covers the depth in reach, and nothing unmatchable stays. */
  predicate Drains(cfg: Config, tk: Taker, levels: seq<Level>, r: nat)
    decreases |levels|
  {
    levels == [] || !Within(tk.side, tk.limit, levels[0].price) ||
    (var reach := Reach(cfg, tk.user, levels[0].orders);
     && 0 < RoundLot(r, LotSize(cfg))
     && reach <= RoundLot(r, LotSize(cfg))
     && Stuck(cfg, tk.user, levels[0].orders) == []
     && Drains(cfg, tk, levels[1..], SatSub(r, reach)))
  }

  /** The walk left something at a level within the limit. */
  predicate LeavesAt(tk: Taker, levels: seq<Level>, visits: seq<Visit>, i: nat)
    requires |visits| <= |levels| && i < |levels|
  {
    Within(tk.side, tk.limit, levels[i].price) && (i < |visits| ==> visits[i].orders != [])
  }

  lemma {:induction false} SweepDrainsExactly(cfg: Config, tk: Taker, levels: seq<Level>, r: nat)
    requires !tk.postOnly && BestFirst(tk.side.Opposite(), levels)
    requires var w := Sweep(cfg, tk, levels, BaseQty(r)); w.stop.remaining > 0 && !w.stpCancelled
    ensures Drains(cfg, tk, levels, r)
            <==> forall i :: 0 <= i < |levels| ==> !LeavesAt(tk, levels, Sweep(cfg, tk, levels, BaseQty(r)).visits, i)
  {
    hide Sweep, VisitLevel, Decide, LotSize, Stuck, Reach, RoundLot, Within;
    var w := Sweep(cfg, tk, levels, BaseQty(r));
    SweepStep(cfg, tk, levels, BaseQty(r));
    RoundLotLaws(r, LotSize(cfg));
    if levels == [] {
    } else if !Within(tk.side, tk.limit, levels[0].price) {
      forall i | 0 <= i < |levels| ensures !Within(tk.side, tk.limit, levels[i].price) {
        WorseOutside(tk.side, tk.limit, levels, i);
      }
    } else if w.visits == [] {
      assert LeavesAt(tk, levels, w.visits, 0);
    } else {
      var v := w.visits[0];
      VisitExecutes(cfg, tk, levels[0], v.cap);
      if Reach(cfg, tk.user, levels[0].orders) > v.cap {
        VisitKeepsDepth(cfg, tk, levels[0], v.cap);
        assert LeavesAt(tk, levels, w.visits, 0);
      } else {
        VisitStuck(cfg, tk, levels[0], v.cap);
        var rest := Sweep(cfg, tk, levels[1..], BaseQty(r - v.executed)).visits;
        SweepDrainsExactly(cfg, tk, levels[1..], r - v.executed);
        assert w.visits == [v] + rest;
        forall i | 0 <= i < |levels[1..]| ensures LeavesAt(tk, levels[1..], rest, i) <==> LeavesAt(tk, levels, w.visits, i + 1) {
        }
        LeavesTail(tk, levels, v, rest);
      }
    }
  }

  lemma WorseOutside(side: Side, limit: Option<Price>, levels: seq<Level>, i: nat)
    requires BestFirst(side.Opposite(), levels) && i < |levels| && !Within(side, limit, levels[0].price)
    ensures !Within(side, limit, levels[i].price)
  {
    assert i > 0 ==> Better(side.Opposite(), levels[0].price, levels[i].price);
  }

  lemma LeavesTail(tk: Taker, levels: seq<Level>, v: Visit, rest: seq<Visit>)
    requires levels != [] && |rest| <= |levels| - 1
    ensures (forall i :: 0 <= i < |levels| ==> !LeavesAt(tk, levels, [v] + rest, i))
            <==> !LeavesAt(tk, levels, [v] + rest, 0) && forall i :: 0 <= i < |levels| - 1 ==> !LeavesAt(tk, levels[1..], rest, i)
  {
    hide Within;
    var visits := [v] + rest;
    if (forall i :: 0 <= i < |levels| ==> !LeavesAt(tk, levels, visits, i)) {
      forall i | 0 <= i < |levels| - 1 ensures !LeavesAt(tk, levels[1..], rest, i) {
        assert !LeavesAt(tk, levels, visits, i + 1);
      }
    }
    if !LeavesAt(tk, levels, visits, 0) && forall i :: 0 <= i < |levels| - 1 ==> !LeavesAt(tk, levels[1..], rest, i) {
      forall i | 0 <= i < |levels| ensures !LeavesAt(tk, levels, visits, i) {
        if i > 0 {
          assert !LeavesAt(tk, levels[1..], rest, i - 1);
        }
      }
    }
  }

  /** The dry run is right about the walk of an order that comes to rest. */
  lemma DrainsWalk(c: Core, o: Order, now: nat)
    requires CoreOk(c) && Proper(o) && ComesToRest(c, o, now)
    ensures var tk, levels := TakerOf(o), SideOf(c, o.tag.side.Opposite());
            Drains(c.cfg, tk, levels, TotalQuantity(o))
            <==> forall i :: 0 <= i < |levels| ==> !LeavesAt(tk, levels, MatchWalk(c, tk, BaseQty(TotalQuantity(o))).visits, i)
  {
    hide Sweep, Validate, Headroom, Within, Drains, Residual, Room, AddTrades, Prune;
    var tk, levels, q := TakerOf(o), SideOf(c, o.tag.side.Opposite()), TotalQuantity(o);
    MatchResultLaws(c, tk, BaseQty(q));
    if tk.postOnly {
      forall i | 0 <= i < |levels| ensures !Within(tk.side, tk.limit, levels[i].price) {
        PostOnlyClear(c, o, now, i);
      }
      OutsideDrains(c.cfg, tk, levels, q);
    } else {
      SweepDrainsExactly(c.cfg, tk, levels, q);
    }
  }

  /** What a resting order finds within its limit, whatever the lot size. */
  lemma RestFinds(c: Core, o: Order, now: nat)
    requires CoreOk(c) && Proper(o) && ComesToRest(c, o, now)
    ensures var opposite := SideOf(Match(c, TakerOf(o), BaseQty(TotalQuantity(o))).core, o.tag.side.Opposite());
            && (Drains(c.cfg, TakerOf(o), SideOf(c, o.tag.side.Opposite()), TotalQuantity(o))
                <==> Clear(o.tag.side, o.tag.price, opposite))
            && (forall l <- opposite :: exists m :: m in SideOf(c, o.tag.side.Opposite()) && m.price == l.price)
  {
    hide Sweep, VisitLevel, Drains, LeavesAt, ComesToRest, Clear, Prune;
    var tk, side, q := TakerOf(o), o.tag.side.Opposite(), BaseQty(TotalQuantity(o));
    var levels, w := SideOf(c, side), MatchWalk(c, tk, q);
    DrainsWalk(c, o, now);
    SweepVisits(c.cfg, tk, levels, q);
    SweptOk(c.cfg, tk, levels, w.visits);
    PrunedClear(tk, side, levels, w.visits);
  }

  lemma OutsideDrains(cfg: Config, tk: Taker, levels: seq<Level>, r: nat)
    requires levels != [] ==> !Within(tk.side, tk.limit, levels[0].price)
    ensures Drains(cfg, tk, levels, r)
  {
  }

  lemma PrunedClear(tk: Taker, side: Side, levels: seq<Level>, visits: seq<Visit>)
    requires |visits| <= |levels| && SideOk(side, levels) && tk.limit.Some?
    ensures Clear(tk.side, tk.limit.value, Prune(After(levels, visits)))
            <==> forall i :: 0 <= i < |levels| ==> !LeavesAt(tk, levels, visits, i)
  {
    hide Within;
    var after := After(levels, visits);
    if i :| 0 <= i < |levels| && LeavesAt(tk, levels, visits, i) {
      assert levels[i] in levels && LevelOk(side, levels[i]);
      FilterMember(Occupied, after, after[i]);
    }
    if !Clear(tk.side, tk.limit.value, Prune(after)) {
      var l :| l in Prune(after) && Within(tk.side, tk.limit, l.price);
      FilterMember(Occupied, after, l);
      var i :| 0 <= i < |after| && after[i] == l;
      assert LeavesAt(tk, levels, visits, i);
    }
  }

  /** For every lot size and every book: a submission that comes to rest in an uncrossed book
      leaves it uncrossed if and only if the dry run drains the levels within its limit. */
  lemma RestDrainsExactly(c: Core, o: Order, now: nat)
    requires CoreOk(c) && CrossFree(c) && Proper(o) && ComesToRest(c, o, now)
    ensures CrossFree(Add(c, o, now).core) <==> Drains(c.cfg, TakerOf(o), SideOf(c, o.tag.side.Opposite()), TotalQuantity(o))
  {
    hide Match, Validate, Headroom, SetTotalRemaining, CrossFree, ComesToRest, Drains;
    RestFinds(c, o, now);
    RestCrosses(c, o, now);
  }

  // ---- Every run ----

  /** The order stays matchable and in whole lots. */
  predicate Bright(u: nat, o: Order)
    requires u > 0
  {
    Lit(o) && InLots(u, o)
  }

  predicate AllBright(u: nat, orders: seq<Order>)
    requires u > 0
  {
    forall o <- orders :: Bright(u, o)
  }

  predicate Lively(u: nat, levels: seq<Level>)
    requires u > 0
  {
    forall l <- levels :: AllBright(u, l.orders)
  }

  predicate Calm(c: Core) {
    CrossFree(c) && Lively(Unit(c.cfg), c.bids) && Lively(Unit(c.cfg), c.asks)
  }

  lemma {:induction false} PlaceLively(u: nat, side: Side, levels: seq<Level>, o: Order)
    requires u > 0 && Lively(u, levels) && Bright(u, o)
    ensures Lively(u, Place(side, levels, o))
    decreases |levels|
  {
    hide Bright;
    if levels != [] {
      assert levels[0] in levels && Lively(u, levels[1..]);
      PlaceLively(u, side, levels[1..], o);
    }
  }

  lemma {:induction false} PutLively(u: nat, levels: seq<Level>, price: Price, orders: seq<Order>)
    requires u > 0 && Lively(u, levels) && AllBright(u, orders)
    ensures Lively(u, PutQueue(levels, price, orders))
    ensures forall l <- PutQueue(levels, price, orders) :: exists m :: m in levels && m.price == l.price
    decreases |levels|
  {
    hide Bright;
    if levels != [] {
      assert levels[0] in levels && Lively(u, levels[1..]);
      PutLively(u, levels[1..], price, orders);
      assert levels == [levels[0]] + levels[1..];
    }
  }

  lemma FilterBright(u: nat, p: Order -> bool, orders: seq<Order>)
    requires u > 0 && AllBright(u, orders)
    ensures AllBright(u, Filter(p, orders))
  {
    hide Bright;
    forall o | o in Filter(p, orders) ensures Bright(u, o) {
      FilterMember(p, orders, o);
    }
  }

  lemma BrightParts(u: nat, orders: seq<Order>)
    requires u > 0
    ensures AllBright(u, orders) <==> AllLit(orders) && AllInLots(u, orders)
  {
    hide Lit, InLots;
    if AllLit(orders) && AllInLots(u, orders) {
      assert forall o <- orders :: Lit(o) && InLots(u, o);
    }
    if AllBright(u, orders) {
      assert forall o <- orders :: Bright(u, o);
    }
  }

  lemma FilterLit(p: Order -> bool, orders: seq<Order>)
    requires AllLit(orders)
    ensures AllLit(Filter(p, orders))
  {
    forall o | o in Filter(p, orders) ensures Lit(o) {
      FilterMember(p, orders, o);
    }
  }

  lemma VisitLit(cfg: Config, tk: Taker, level: Level, cap: nat)
    requires AllLit(level.orders)
    ensures AllLit(VisitLevel(cfg, tk, level, cap).orders)
  {
    var orders, back := level.orders, cfg.requeueBack;
    match Decide(orders, tk.user, cfg.stp)
    case NoConflict => MatchKeepsLit(cap, orders, back);
    case StopTaker(safe) => MatchKeepsLit(Min(cap, safe), orders, back);
    case RemoveMakers =>
      FilterLit(Not(Mine(tk.user)), orders);
      MatchKeepsLit(cap, Filter(Not(Mine(tk.user)), orders), back);
    case StopBoth(safe, maker) =>
      MatchKeepsLit(Min(cap, safe), orders, back);
      FilterLit(Not(HasId(maker)), MatchLevel(Min(cap, safe), orders, back).orders);
  }

  lemma VisitBright(cfg: Config, tk: Taker, level: Level, cap: nat)
    requires AllBright(Unit(cfg), level.orders) && Whole(Unit(cfg), cap) && Sum(Total, level.orders) <= U64_MAX
    ensures AllBright(Unit(cfg), VisitLevel(cfg, tk, level, cap).orders)
  {
    hide VisitLevel, Unit, AllBright, AllLit, AllInLots, Whole;
    var u, after := Unit(cfg), VisitLevel(cfg, tk, level, cap).orders;
    BrightParts(u, level.orders);
    VisitLit(cfg, tk, level, cap);
    VisitInLots(cfg, tk, level, cap);
    BrightParts(u, after);
  }

  lemma SweptLively(cfg: Config, tk: Taker, levels: seq<Level>, visits: seq<Visit>)
    requires AreVisits(cfg, tk, levels, visits) && SideOk(tk.side.Opposite(), levels) && Lively(Unit(cfg), levels)
    requires forall k :: 0 <= k < |visits| ==> Whole(Unit(cfg), visits[k].cap)
    ensures Lively(Unit(cfg), Prune(After(levels, visits)))
  {
    hide VisitLevel, Unit, AllBright, Whole;
    var after := After(levels, visits);
    forall l | l in Prune(after) ensures AllBright(Unit(cfg), l.orders) {
      FilterMember(Occupied, after, l);
      var i :| 0 <= i < |after| && after[i] == l;
      assert AllBright(Unit(cfg), levels[i].orders) && LevelOk(tk.side.Opposite(), levels[i]);
      if i < |visits| && !tk.postOnly {
        VisitBright(cfg, tk, levels[i], visits[i].cap);
      }
    }
  }

  lemma MatchCalm(c: Core, tk: Taker, stop: StopCondition)
    requires CoreOk(c) && Calm(c)
    ensures Calm(Match(c, tk, stop).core)
  {
    hide Sweep, VisitLevel, Unit, Lively, Whole;
    var side := tk.side.Opposite();
    var levels, w := SideOf(c, side), MatchWalk(c, tk, stop);
    SweepVisits(c.cfg, tk, levels, stop);
    SweptOk(c.cfg, tk, levels, w.visits);
    SweepCapsWhole(c.cfg, tk, levels, stop);
    SweptLively(c.cfg, tk, levels, w.visits);
  }

  /** Removing or resizing orders of one queue keeps the book calm. */
  lemma PutCalm(c: Core, side: Side, price: Price, orders: seq<Order>, es: seq<Effect>)
    requires Calm(c) && AllBright(Unit(c.cfg), orders)
    ensures Calm(Settle(c, side, PutQueue(SideOf(c, side), price, orders), es))
  {
    hide Unit, AllBright;
    PutLively(Unit(c.cfg), SideOf(c, side), price, orders);
  }

  lemma {:induction false} QueueBright(u: nat, levels: seq<Level>, price: Price)
    requires u > 0 && Lively(u, levels)
    ensures AllBright(u, QueueAt(levels, price))
  {
    hide Bright;
    if levels != [] && levels[0].price != price {
      QueueBright(u, levels[1..], price);
    }
  }

  lemma RemoveCalm(c: Core, id: Id, mark: Tag -> Effect)
    requires Calm(c)
    ensures Calm(Remove(c, id, mark).core)
  {
    hide Calm, Unit, AllBright, Lively;
    if GetOrder(c, id).Some? {
      var u, side, price := Unit(c.cfg), c.locations[id].side, c.locations[id].price;
      assert Lively(u, SideOf(c, side)) by { UnfoldCalm(c); }
      QueueBright(u, SideOf(c, side), price);
      FilterBright(u, Not(HasId(id)), QueueAt(SideOf(c, side), price));
      PutCalm(c, side, price, Filter(Not(HasId(id)), QueueAt(SideOf(c, side), price)), Remove(c, id, mark).effects);
    }
  }

  lemma UnfoldCalm(c: Core)
    requires Calm(c)
    ensures CrossFree(c) && Lively(Unit(c.cfg), c.bids) && Lively(Unit(c.cfg), c.asks)
  {
  }

  /** A submission whose order stays matchable keeps the book calm. */
  lemma AddCalm(c: Core, r: map<Id, Tag>, o: Order, now: nat)
    requires Good(c, r) && Calm(c)
    requires Proper(o) && Lit(o) && Tranched(Unit(c.cfg), o)
    ensures Calm(Add(c, o, now).core)
  {
    hide Match, Validate, Headroom, CrossFree, SetTotalRemaining, Lively, Unit, Tranched, Lit;
    var tk, q := TakerOf(o), TotalQuantity(o);
    if Refusal(c, o, now).None? {
      var m := Match(c, tk, BaseQty(q));
      MatchCalm(c, tk, BaseQty(q));
      MatchResultLaws(c, tk, BaseQty(q));
      if m.reply.Ok? {
        ResidualConserved(o, m.reply.value.result.remaining);
      }
      if ComesToRest(c, o, now) {
        var rest := Residual(o, m.reply.value.result.remaining);
        assert m.core.cfg == c.cfg by { MatchKeepsSetup(c, tk, BaseQty(q)); }
        RestBright(c, o, now);
        PlaceLively(Unit(c.cfg), o.tag.side, SideOf(m.core, o.tag.side), rest);
        NotBlocked(c, o);
        assert SideInLots(Unit(c.cfg), SideOf(c, o.tag.side.Opposite())) by { LivelyInLots(Unit(c.cfg), SideOf(c, o.tag.side.Opposite())); }
        RestCrossesExactly(c, o, now);
      }
    }
  }

  lemma MatchKeepsSetup(c: Core, tk: Taker, stop: StopCondition)
    ensures SameSetup(c, Match(c, tk, stop).core)
  {
    hide Sweep;
  }

  lemma LivelyInLots(u: nat, levels: seq<Level>)
    requires u > 0 && Lively(u, levels)
    ensures SideInLots(u, levels)
  {
    forall l | l in levels ensures AllInLots(u, l.orders) {
      BrightParts(u, l.orders);
    }
  }

  /** What the sweep of a whole quantity leaves over is whole. */
  lemma {:induction false} LeftoverWhole(cfg: Config, tk: Taker, levels: seq<Level>, r: nat)
    requires Whole(Unit(cfg), r) && SideInLots(Unit(cfg), levels) && forall l <- levels :: Sum(Total, l.orders) <= U64_MAX
    ensures Whole(Unit(cfg), Sweep(cfg, tk, levels, BaseQty(r)).stop.remaining)
  {
    hide Sweep, VisitLevel, LevelCap, Whole, Unit, AllInLots;
    SweepStep(cfg, tk, levels, BaseQty(r));
    var w := Sweep(cfg, tk, levels, BaseQty(r));
    if w.visits != [] {
      assert levels[0] in levels && forall l <- levels[1..] :: l in levels;
      var v, u := w.visits[0], Unit(cfg);
      if tk.postOnly {
        LeftoverWhole(cfg, tk, levels[1..], r);
      } else {
        CapWhole(cfg, BaseQty(r), levels[0].price);
        VisitInLots(cfg, tk, levels[0], v.cap);
        VisitExecutes(cfg, tk, levels[0], v.cap);
        WholeSum(u, r, v.executed);
        LeftoverWhole(cfg, tk, levels[1..], r - v.executed);
      }
    }
  }

  /** What rests of a submission stays matchable and in whole lots. */
  lemma RestBright(c: Core, o: Order, now: nat)
    requires CoreOk(c) && Lively(Unit(c.cfg), SideOf(c, o.tag.side.Opposite())) && ComesToRest(c, o, now)
    requires Proper(o) && Lit(o) && Tranched(Unit(c.cfg), o)
    ensures Bright(Unit(c.cfg), Residual(o, Match(c, TakerOf(o), BaseQty(TotalQuantity(o))).reply.value.result.remaining))
  {
    hide Match, MatchWalk, Validate, Headroom, SetTotalRemaining, Lively, Unit, Tranched, Lit, InLots, Whole, Sweep, Room;
    var u, q, tk := Unit(c.cfg), TotalQuantity(o), TakerOf(o);
    var levels := SideOf(c, o.tag.side.Opposite());
    var remaining := Match(c, tk, BaseQty(q)).reply.value.result.remaining;
    AdmittedWhole(c, o, now);
    ValidInLots(c, o, now);
    MatchResultLaws(c, tk, BaseQty(q));
    assert Whole(u, remaining) by {
      LivelyInLots(u, levels);
      WholeLeft(c, tk, q);
    }
    ResidualInLots(u, o, remaining);
    ResidualLit(o, remaining);
  }

  lemma WholeLeft(c: Core, tk: Taker, q: nat)
    requires CoreOk(c) && Whole(Unit(c.cfg), q) && SideInLots(Unit(c.cfg), SideOf(c, tk.side.Opposite()))
    ensures Whole(Unit(c.cfg), MatchWalk(c, tk, BaseQty(q)).stop.remaining)
  {
    hide Sweep, Whole, Unit, SideInLots;
    var levels := SideOf(c, tk.side.Opposite());
    assert forall l <- levels :: LevelOk(tk.side.Opposite(), l);
    LeftoverWhole(c.cfg, tk, levels, q);
  }

  lemma NotBlocked(c: Core, o: Order)
    requires Lively(Unit(c.cfg), SideOf(c, o.tag.side.Opposite()))
    ensures !Blocked(c, o)
  {
    hide Decide, Within, Unit;
    forall l | l in SideOf(c, o.tag.side.Opposite()) ensures Stuck(c.cfg, o.tag.user, l.orders) == [] {
      BrightParts(Unit(c.cfg), l.orders);
      FilterLit(Not(Mine(o.tag.user)), l.orders);
      FilterAll(Not(Matchable), l.orders);
      FilterAll(Not(Matchable), Filter(Not(Mine(o.tag.user)), l.orders));
    }
  }

  /** Commands whose orders stay matchable: submitted ones are, a reserve hides and refreshes
      whole lots, updates ask for a positive quantity. */
  predicate Shining(cfg: Config, cmd: Command) {
    match cmd
    case Submit(o, _) => Lit(o) && Tranched(Unit(cfg), o)
    case Change(UpdateQuantity(_, q), _) => q > 0
    case Change(UpdatePriceAndQuantity(_, _, q), _) => q > 0
    case Change(Replace(_, _, q, _), _) => q > 0
    case _ => true
  }

  lemma RevisedLit(cfg: Config, o: Order, u: Update)
    requires Proper(o) && Lit(o) && Shining(cfg, Change(u, 0))
    ensures Lit(Revised(o, u))
  {
  }

  lemma ResizeCalm(c: Core, prior: Order, o: Order, now: nat)
    requires Calm(c) && (Validate(c, o, now).None? ==> Bright(Unit(c.cfg), o))
    ensures Calm(Resize(c, prior, o, now).core)
  {
    hide Calm, Validate, Unit, Bright, Lively;
    var u, side, price := Unit(c.cfg), o.tag.side, o.tag.price;
    var levels := SideOf(c, side);
    var queue := QueueAt(levels, price);
    assert Lively(u, levels) by { UnfoldCalm(c); }
    QueueBright(u, levels, price);
    FilterBright(u, Not(HasId(o.tag.id)), queue);
    SubstituteMembers(queue, o);
    var x := Resize(c, prior, o, now);
    if x.effects != [] {
      var next := if c.cfg.dropZero && Total(o) == 0 then Filter(Not(HasId(o.tag.id)), queue) else Resized(queue, o, Total(o) > Total(prior));
      PutCalm(c, side, price, next, x.effects);
    }
  }

  /** A resting order of a calm book is bright and its total fits a u64. */
  lemma FoundBright(c: Core, r: map<Id, Tag>, id: Id)
    requires Good(c, r) && Calm(c) && GetOrder(c, id).Some?
    ensures Bright(Unit(c.cfg), GetOrder(c, id).value) && CheckedTotal(GetOrder(c, id).value).Some?
  {
    hide Calm, Good, Unit, Bright, Lively;
    var o, side, price := GetOrder(c, id).value, c.locations[id].side, c.locations[id].price;
    var queue := QueueAt(SideOf(c, side), price);
    assert Lively(Unit(c.cfg), SideOf(c, side)) by { UnfoldCalm(c); }
    QueueBright(Unit(c.cfg), SideOf(c, side), price);
    FindFilter(queue, id);
    FilterMember(HasId(id), queue, o);
    UnfoldGood(c, r);
    QueueFacts(side, SideOf(c, side), price);
    var i :| 0 <= i < |queue| && queue[i] == o;
    SumElement(Total, queue, i);
  }

  lemma UpdateCalm(c: Core, r: map<Id, Tag>, u: Update, now: nat)
    requires Good(c, r) && Calm(c)
    requires Sized(u) && Shining(c.cfg, Change(u, now))
    ensures Calm(UpdateOrder(c, u, now).core)
  {
    hide Calm, Good, Add, Resize, Validate, Lit, Unit, InLots, Tranched, Revised;
    RemoveCalm(c, u.id, ByUpdate);
    if GetOrder(c, u.id).Some? {
      var prior := GetOrder(c, u.id).value;
      var o := Revised(prior, u);
      FoundFits(c, r, u.id);
      FoundBright(c, r, u.id);
      RevisedLit(c.cfg, prior, u);
      RevisionProper(prior, u);
      if Validate(c, o, now).None? {
        RevisedInLots(c, prior, u, now);
        InLotsTranched(Unit(c.cfg), o);
      }
      ResizeCalm(c, prior, o, now);
      ModifyCalm(c, r, o, now);
    }
  }

  lemma RevisionProper(o: Order, u: Update)
    requires Proper(o) && Sized(u)
    ensures Proper(Revised(o, u)) && Revised(o, u).tag.id == o.tag.id
  {
  }

  lemma InLotsTranched(u: nat, o: Order)
    requires u > 0 && InLots(u, o)
    ensures Tranched(u, o)
  {
  }

  lemma ModifyCalm(c: Core, r: map<Id, Tag>, o: Order, now: nat)
    requires Good(c, r) && Calm(c) && Proper(o) && Lit(o)
    requires Validate(c, o, now).None? ==> Tranched(Unit(c.cfg), o)
    ensures Calm(Modify(c, o, now).core)
  {
    hide Calm, Good, Add, Validate, Lit, Unit, Tranched, Cancel;
    if Validate(c, o, now).None? {
      var cut := Cancel(c, o.tag.id);
      CancelMoves(c, r, o.tag.id);
      assert Calm(cut.core) by { CutCalm(c, o.tag.id); }
      assert Good(cut.core, Register(r, cut.effects)) && cut.core.cfg == c.cfg by { UnfoldMoves(c, r, cut.effects, cut.core); }
      AddCalm(cut.core, Register(r, cut.effects), o, now);
    }
  }

  lemma CutCalm(c: Core, id: Id)
    requires Calm(c)
    ensures Calm(Cancel(c, id).core)
  {
    hide Calm;
    RemoveCalm(c, id, ByCancel);
  }

  lemma {:induction false} CancelEachCalm(c: Core, ids: seq<Id>)
    requires Calm(c)
    ensures Calm(CancelEach(c, ids).core)
    decreases |ids|
  {
    hide Calm, Remove;
    if ids != [] {
      RemoveCalm(c, ids[0], ByCancel);
      CancelEachCalm(Cancel(c, ids[0]).core, ids[1..]);
    }
  }

  lemma StepCalm(b: Book, cmd: Command)
    requires Sound(b) && Calm(b.core)
    requires Wellformed(b.core.cfg, cmd) && Shining(b.core.cfg, cmd)
    ensures Calm(Step(b, cmd).core)
  {
    hide Calm, Good, Add, UpdateOrder, Match, Cancel, CancelEach, Unit, Lit, Tranched;
    var c, r := b.core, b.registry;
    match cmd
    case Submit(o, now) => AddCalm(c, r, o, now);
    case CancelOne(id) => CancelEachCalm(c, [id]); CancelOneEach(c, id);
    case Change(u, now) => UpdateCalm(c, r, u, now);
    case Execute(tk, stop) => assert Calm(Match(c, tk, stop).core) by { UnfoldGood(c, r); MatchCalm(c, tk, stop); }
    case Market(id, user, side, stop) =>
      assert Calm(Match(c, MarketTaker(id, user, side), stop).core) by { UnfoldGood(c, r); MatchCalm(c, MarketTaker(id, user, side), stop); }
    case CancelEverything => ClearedCalm(c);
    case CancelUser(u) => CancelEachCalm(c, ListOf(b.users, u));
    case CancelSide(s) => CancelEachCalm(c, Ids(Ascending(s, SideOf(c, s))));
    case CancelRange(s, low, high) => CancelEachCalm(c, Ids(Filter(InRange(low, high), Ascending(s, SideOf(c, s)))));
    case Evict(now) => CancelEachCalm(c, Ids(Filter(ExpiredAt(now, c.close), AllAscending(c))));
    case SetKillSwitch(on) => SetupCalm(c, c.(killed := on));
    case SetClose(close) => SetupCalm(c, c.(close := close));
  }

  lemma CancelOneEach(c: Core, id: Id)
    ensures CancelEach(c, [id]).core == Cancel(c, id).core
  {
    hide Cancel;
    assert CancelEach(Cancel(c, id).core, []).core == Cancel(c, id).core;
    assert [id][1..] == [];
  }

  lemma ClearedCalm(c: Core)
    requires Calm(c)
    ensures Calm(CancelAll(c).core)
  {
  }

  lemma SetupCalm(c: Core, c': Core)
    requires Calm(c) && c'.bids == c.bids && c'.asks == c.asks && c'.cfg == c.cfg
    ensures Calm(c')
  {
  }

  /** In every run whose orders stay matchable, whatever the lot size, the best bid is below
      the best ask. */
  lemma {:induction false} RunCalm(b: Book, cmds: seq<Command>)
    requires Sound(b) && Calm(b.core)
    requires forall cmd <- cmds :: Wellformed(b.core.cfg, cmd) && Shining(b.core.cfg, cmd)
    ensures CrossFree(Run(b, cmds).core)
    decreases |cmds|
  {
    hide Sound, Step;
    if cmds == [] {
      UnfoldCalm(b.core);
    } else {
      assert cmds[0] in cmds && forall cmd <- cmds[1..] :: cmd in cmds;
      StepSound(b, cmds[0]);
      StepCalm(b, cmds[0]);
      RunCalm(Step(b, cmds[0]), cmds[1..]);
    }
  }

  lemma NeverCrossed(cfg: Config, cmds: seq<Command>)
    requires forall cmd <- cmds :: Wellformed(cfg, cmd) && Shining(cfg, cmd)
    ensures CrossFree(Run(Empty(cfg), cmds).core)
  {
    EmptyInv(cfg);
    RunCalm(Empty(cfg), cmds);
  }
}
