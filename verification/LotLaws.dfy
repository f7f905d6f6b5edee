/** Lot sizes: admission asks for whole lots, every cap is a whole number of them, and so
    everything that rests stays in whole lots. */
module LotLaws {
  import opened Types
  import opened Seqs
  import opened Arith
  import opened Orders
  import opened Levels
  import opened Stp
  import opened Matching
  import opened VisitLaws
  import opened SweepLaws
  import opened SelfCross
  import opened Engine

  /** The unit of quantities; sizes 0 and 1 do not round. */
  function Unit(cfg: Config): (u: nat)
    ensures u > 0
  {
    if LotSize(cfg) <= 1 then 1 else LotSize(cfg)
  }

  predicate InLots(u: nat, o: Order)
    requires u > 0
  {
    Whole(u, o.visible) && Whole(u, o.hidden) && Tranched(u, o)
  }

  /** What admission leaves open: it checks only the total of a reserve. */
  predicate Tranched(u: nat, o: Order)
    requires u > 0
  {
    o.kind.Reserve? ==> Whole(u, o.hidden) && (o.kind.amount.Some? ==> Whole(u, o.kind.amount.value))
  }

  predicate AllInLots(u: nat, orders: seq<Order>)
    requires u > 0
  {
    forall o <- orders :: InLots(u, o)
  }

  predicate SideInLots(u: nat, levels: seq<Level>)
    requires u > 0
  {
    forall l <- levels :: AllInLots(u, l.orders)
  }

  /** Without a lot size everything is in whole lots. */
  lemma NoLots(cfg: Config, levels: seq<Level>)
    requires LotSize(cfg) <= 1
    ensures SideInLots(Unit(cfg), levels)
  {
    forall l, o | l in levels && o in l.orders ensures InLots(1, o) {
      AnyInLots(o);
    }
  }

  lemma AnyInLots(o: Order)
    ensures InLots(1, o)
  {
    WholeTrivial(1, o.visible);
    WholeTrivial(1, o.hidden);
    if o.kind.Reserve? && o.kind.amount.Some? {
      WholeTrivial(1, o.kind.amount.value);
    }
  }

  // ---- Caps ----

  /** Every cap is a whole number of lots, and a whole budget is not rounded. */
  lemma CapWhole(cfg: Config, stop: StopCondition, price: Price)
    ensures Whole(Unit(cfg), LevelCap(stop, price, LotSize(cfg)))
    ensures stop.BaseQty? && Whole(Unit(cfg), stop.remaining) ==> LevelCap(stop, price, LotSize(cfg)) == stop.remaining
  {
    var u, cap := Unit(cfg), LevelCap(stop, price, LotSize(cfg));
    WholeTrivial(u, cap);
    if u > 1 {
      match stop
      case BaseQty(r) => WholeRounded(u, r);
      case QuoteAmount(r) => if price > 0 { WholeRounded(u, Sat64(r / price)); }
    }
  }

  /** Every level is visited for a whole number of lots. */
  lemma {:induction false} SweepCapsWhole(cfg: Config, tk: Taker, levels: seq<Level>, stop: StopCondition)
    ensures forall k :: 0 <= k < |Sweep(cfg, tk, levels, stop).visits| ==> Whole(Unit(cfg), Sweep(cfg, tk, levels, stop).visits[k].cap)
  {
    hide Sweep, VisitLevel, LevelCap, Whole, Unit;
    var w := Sweep(cfg, tk, levels, stop);
    SweepStep(cfg, tk, levels, stop);
    if w.visits != [] {
      var v := w.visits[0];
      CapWhole(cfg, stop, levels[0].price);
      WholeTrivial(Unit(cfg), 0);
      SweepCapsWhole(cfg, tk, levels[1..], StopAfter(tk, stop, v, levels[0].price));
      assert forall k :: 0 < k < |w.visits| ==> w.visits[k] == w.visits[1..][k - 1];
    }
  }

  // ---- Levels ----

  lemma TakeWhole(u: nat, o: Order, q: nat)
    requires u > 0 && InLots(u, o) && Whole(u, q) && q <= o.visible
    ensures InLots(u, o.(visible := o.visible - q))
  {
    WholeSum(u, o.visible, q);
  }

  lemma RefreshedInLots(u: nat, o: Order)
    requires u > 0 && InLots(u, o)
    ensures InLots(u, Refreshed(o))
  {
    hide Whole;
    WholeSum(u, o.hidden, Refreshed(o).visible);
  }

  lemma DisplayedInLots(u: nat, o: Order)
    requires u > 0 && InLots(u, o)
    ensures InLots(u, Displayed(o))
  {
    hide InLots;
    RefreshedInLots(u, o);
  }

  lemma {:induction false} MatchInLots(u: nat, q: nat, orders: seq<Order>, back: bool)
    requires u > 0 && AllInLots(u, orders) && Whole(u, q)
    ensures AllInLots(u, MatchLevel(q, orders, back).orders)
    decreases q, |orders|
  {
    hide InLots, Displayed, Whole, Refreshed;
    if q != 0 && orders != [] {
      assert InLots(u, orders[0]) && AllInLots(u, orders[1..]);
      if !Matchable(orders[0]) {
        MatchInLots(u, q, orders[1..], back);
      } else {
        DisplayedSame(orders[0]);
        DisplayedInLots(u, orders[0]);
        var o := Displayed(orders[0]);
        if q < o.visible {
          TakeWhole(u, o, q);
        } else {
          RefreshedInLots(u, o);
          assert Whole(u, q - o.visible) by { DisplayWhole(u, o); WholeSum(u, q, o.visible); }
          MatchInLots(u, q - o.visible, Exhausted(o, orders[1..], back), back);
        }
      }
    }
  }

  lemma DisplayWhole(u: nat, o: Order)
    requires u > 0 && InLots(u, o)
    ensures Whole(u, o.visible) && Whole(u, Drawable(o))
  {
    WholeSum(u, o.visible, o.hidden);
  }

  lemma {:induction false} SumWhole(u: nat, orders: seq<Order>)
    requires u > 0 && AllInLots(u, orders)
    ensures Whole(u, Sum(Visible, orders)) && Whole(u, Sum(Drawable, orders))
  {
    hide Whole, InLots, Drawable;
    if orders == [] {
      WholeTrivial(u, 0);
    } else {
      assert InLots(u, orders[0]) && AllInLots(u, orders[1..]);
      SumWhole(u, orders[1..]);
      DisplayWhole(u, orders[0]);
      WholeSum(u, orders[0].visible, Sum(Visible, orders[1..]));
      WholeSum(u, Drawable(orders[0]), Sum(Drawable, orders[1..]));
    }
  }

  lemma FilterInLots(u: nat, p: Order -> bool, orders: seq<Order>)
    requires u > 0 && AllInLots(u, orders)
    ensures AllInLots(u, Filter(p, orders))
  {
    forall o | o in Filter(p, orders) ensures InLots(u, o) {
      FilterMember(p, orders, o);
    }
  }

  /** The quantity displayed ahead of an own order is whole. */
  lemma SafeWhole(u: nat, orders: seq<Order>, k: nat)
    requires u > 0 && k <= |orders| && AllInLots(u, orders) && Sum(Total, orders) <= U64_MAX
    ensures Whole(u, Sat64(Sum(Visible, orders[..k])))
  {
    SumWhole(u, orders[..k]);
    SumBelow(Visible, Total, orders[..k]);
    SumAppend(Total, orders[..k], orders[k..]);
    assert orders == orders[..k] + orders[k..];
  }

  /** The reach of a taker that is not stopped is whole. */
  lemma ReachWhole(cfg: Config, user: User, orders: seq<Order>)
    requires AllInLots(Unit(cfg), orders)
    requires !Decide(orders, user, cfg.stp).StopTaker? && !Decide(orders, user, cfg.stp).StopBoth?
    ensures Whole(Unit(cfg), Reach(cfg, user, orders))
  {
    hide Unit, AllInLots, Whole;
    SumWhole(Unit(cfg), orders);
    FilterInLots(Unit(cfg), Not(Mine(user)), orders);
    SumWhole(Unit(cfg), Filter(Not(Mine(user)), orders));
  }

  lemma VisitInLots(cfg: Config, tk: Taker, level: Level, cap: nat)
    requires AllInLots(Unit(cfg), level.orders) && Whole(Unit(cfg), cap) && Sum(Total, level.orders) <= U64_MAX
    ensures AllInLots(Unit(cfg), VisitLevel(cfg, tk, level, cap).orders)
    ensures Whole(Unit(cfg), VisitLevel(cfg, tk, level, cap).executed)
  {
    hide Unit, AllInLots, MatchLevel, Whole;
    var u, orders, back := Unit(cfg), level.orders, cfg.requeueBack;
    VisitExecutes(cfg, tk, level, cap);
    match Decide(orders, tk.user, cfg.stp)
    case NoConflict =>
      SumWhole(u, orders);
      MatchInLots(u, cap, orders, back);
    case StopTaker(safe) =>
      SafeWhole(u, orders, FirstOwned(orders, tk.user));
      MatchInLots(u, Min(cap, safe), orders, back);
    case RemoveMakers =>
      FilterInLots(u, Not(Mine(tk.user)), orders);
      SumWhole(u, Filter(Not(Mine(tk.user)), orders));
      MatchInLots(u, cap, Filter(Not(Mine(tk.user)), orders), back);
    case StopBoth(safe, maker) =>
      SafeWhole(u, orders, FirstOwned(orders, tk.user));
      MatchInLots(u, Min(cap, safe), orders, back);
      FilterInLots(u, Not(HasId(maker)), MatchLevel(Min(cap, safe), orders, back).orders);
  }

  // ---- Orders that are admitted, reduced and rested ----

  lemma ValidLots(c: Core, o: Order, now: nat)
    requires Proper(o) && Validate(c, o, now).None?
    ensures if o.kind.Iceberg? then Whole(Unit(c.cfg), o.visible) && Whole(Unit(c.cfg), o.hidden) else Whole(Unit(c.cfg), Total(o))
    ensures CheckedTotal(o).Some?
  {
    hide Fillable, WillCross, Expired;
    WholeTrivial(1, o.visible);
    WholeTrivial(1, o.hidden);
    WholeTrivial(1, Total(o));
  }

  /** A validated order is in whole lots; a reserve when its hidden part is. */
  lemma ValidInLots(c: Core, o: Order, now: nat)
    requires Proper(o) && Validate(c, o, now).None? && Tranched(Unit(c.cfg), o)
    ensures InLots(Unit(c.cfg), o) && Whole(Unit(c.cfg), TotalQuantity(o))
  {
    hide Validate, Whole, Unit;
    var u := Unit(c.cfg);
    ValidLots(c, o, now);
    WholeTrivial(u, 0);
    if o.kind.Reserve? {
      WholeSum(u, Total(o), o.hidden);
    }
    WholeSum(u, o.visible, o.hidden);
  }

  lemma AdmittedWhole(c: Core, o: Order, now: nat)
    requires Proper(o) && Refusal(c, o, now).None?
    ensures Validate(c, o, now).None? && Whole(Unit(c.cfg), TotalQuantity(o))
  {
    hide Validate, Whole, Unit, Headroom;
    ValidLots(c, o, now);
    if o.kind.Iceberg? {
      WholeSum(Unit(c.cfg), o.visible, o.hidden);
    }
  }

  lemma ReducedInLots(u: nat, o: Order, newTotal: nat)
    requires u > 0 && o.kind.Reserve? && Proper(o) && CheckedTotal(o).Some? && InLots(u, o)
    requires newTotal < Total(o) ==> Whole(u, newTotal)
    ensures InLots(u, ReduceReserve(o, newTotal))
  {
    hide Whole;
    WholeTrivial(u, 0);
    if newTotal < Total(o) {
      WholeSum(u, o.visible, o.hidden);
      var cut := Total(o) - newTotal;
      WholeSum(u, Total(o), newTotal);
      if cut <= o.visible {
        WholeSum(u, o.visible, cut);
        RefreshWhole(u, o, o.visible - cut, o.hidden);
      } else {
        WholeSum(u, cut, o.visible);
        WholeSum(u, o.hidden, cut - o.visible);
        RefreshWhole(u, o, 0, o.hidden - (cut - o.visible));
      }
    } else {
      RefreshWhole(u, o, o.visible, o.hidden);
    }
  }

  lemma RefreshWhole(u: nat, o: Order, visible: nat, hidden: nat)
    requires u > 0 && o.kind.Reserve? && InLots(u, o) && Whole(u, visible) && Whole(u, hidden)
    ensures var refresh := Min(if o.kind.amount.Some? then o.kind.amount.value else 0, hidden);
            InLots(u, o.(visible := visible, hidden := hidden)) && InLots(u, o.(visible := refresh, hidden := hidden - refresh))
  {
    hide Whole;
    WholeTrivial(u, 0);
    WholeSum(u, hidden, Min(if o.kind.amount.Some? then o.kind.amount.value else 0, hidden));
  }

  /** What is left of a whole order after a whole execution rests in whole lots. */
  lemma ResidualInLots(u: nat, o: Order, remaining: nat)
    requires u > 0 && Proper(o) && CheckedTotal(o).Some? && InLots(u, o)
    requires Whole(u, remaining) && remaining <= TotalQuantity(o)
    ensures InLots(u, SetTotalRemaining(o, remaining))
  {
    hide Whole, ReduceReserve;
    if o.kind.Reserve? {
      ReducedInLots(u, o, remaining);
    } else if o.kind.Iceberg? {
      WholeSum(u, remaining, Min(o.visible, remaining));
    }
  }

  /** An update of an order in lots that validates is in lots. */
  lemma RevisedInLots(c: Core, prior: Order, u: Update, now: nat)
    requires Proper(prior) && CheckedTotal(prior).Some? && InLots(Unit(c.cfg), prior)
    requires Proper(Revised(prior, u)) && Validate(c, Revised(prior, u), now).None?
    ensures InLots(Unit(c.cfg), Revised(prior, u))
  {
    hide Validate, Whole, Unit, ReduceReserve;
    var unit, o := Unit(c.cfg), Revised(prior, u);
    if u.UpdatePriceAndQuantity? && prior.kind.Reserve? {
      ReducedRevision(c, prior, u, now);
    } else {
      ValidInLots(c, o, now);
    }
  }

  lemma ReducedRevision(c: Core, prior: Order, u: Update, now: nat)
    requires Proper(prior) && CheckedTotal(prior).Some? && InLots(Unit(c.cfg), prior)
    requires u.UpdatePriceAndQuantity? && prior.kind.Reserve?
    requires Proper(Revised(prior, u)) && Validate(c, Revised(prior, u), now).None?
    ensures InLots(Unit(c.cfg), Revised(prior, u))
  {
    hide Validate, Whole, Unit;
    var moved := prior.(tag := prior.tag.(price := u.price));
    ValidLots(c, Revised(prior, u), now);
    if u.quantity < Total(prior) {
      ReducedTotal(moved, u.quantity);
    }
    ReducedInLots(Unit(c.cfg), moved, u.quantity);
  }

  lemma ReducedTotal(o: Order, newTotal: nat)
    requires o.kind.Reserve? && Proper(o) && CheckedTotal(o).Some? && newTotal <= Total(o)
    ensures Total(ReduceReserve(o, newTotal)) == newTotal && ReduceReserve(o, newTotal).kind == o.kind
  {
    ResidualConserved(o, newTotal);
  }

  // ---- The self-cross check ----

  /** For whole quantities and levels in whole lots the check rejects exactly the sweeps that
      cancel the taker, whatever the lot size. */
  lemma {:induction false} ReachesWholeExactly(cfg: Config, tk: Taker, levels: seq<Level>, r: nat)
    requires StopsTaker(cfg.stp, tk.user) && !tk.postOnly
    requires Whole(Unit(cfg), r) && SideInLots(Unit(cfg), levels)
    ensures Reaches(tk, levels, r) <==> Sweep(cfg, tk, levels, BaseQty(r)).stpCancelled
  {
    hide Sweep, VisitLevel, Decide, LotSize, Reach, LevelCap, Whole, Unit, AllInLots;
    SweepStep(cfg, tk, levels, BaseQty(r));
    var w := Sweep(cfg, tk, levels, BaseQty(r));
    if levels != [] {
      CapWhole(cfg, BaseQty(r), levels[0].price);
    }
    if w.visits != [] {
      var v, orders := w.visits[0], levels[0].orders;
      VisitExecutes(cfg, tk, levels[0], v.cap);
      DecideStops(orders, tk.user, cfg.stp);
      NoConflictReach(cfg, tk.user, orders);
      if NoneOwned(orders, tk.user) {
        assert AllInLots(Unit(cfg), orders) && SideInLots(Unit(cfg), levels[1..]) by {
          assert levels[0] in levels && forall l <- levels[1..] :: l in levels;
        }
        ReachWhole(cfg, tk.user, orders);
        WholeSum(Unit(cfg), r, v.executed);
        ReachesWholeExactly(cfg, tk, levels[1..], r - v.executed);
      }
    }
  }
}
