/** The self-cross check that a modify runs before it gives up the resting order. */
module SelfCross {
  import opened Types
  import opened Seqs
  import opened Orders
  import opened Levels
  import opened Stp
  import opened Matching
  import opened VisitLaws
  import opened SweepLaws
  import opened BudgetLaws

  /** Only these modes cancel the taker. */
  predicate StopsTaker(mode: StpMode, user: User) {
    user != ANONYMOUS && (mode.CancelTaker? || mode.CancelBoth?)
  }

  /** Walk the crossable levels with the remaining quantity: does it reach one that holds
      an order of the taker's own user while quantity is left? */
  predicate Reaches(tk: Taker, levels: seq<Level>, remaining: nat) {
    if remaining == 0 || levels == [] || !Within(tk.side, tk.limit, levels[0].price) then false
    else if !NoneOwned(levels[0].orders, tk.user) then true
    else Reaches(tk, levels[1..], SatSub(remaining, Executed(remaining, levels[0].orders)))
  }

  lemma DecideStops(orders: seq<Order>, user: User, mode: StpMode)
    requires StopsTaker(mode, user)
    ensures var d := Decide(orders, user, mode);
            if NoneOwned(orders, user) then d.NoConflict? else d.StopTaker? || d.StopBoth?
  {
    var k := FirstOwned(orders, user);
    assert k < |orders| ==> orders[k] in orders;
  }

  /** Without a mode that stops the taker no sweep cancels it. */
  lemma {:induction false} NeverStopped(cfg: Config, tk: Taker, levels: seq<Level>, stop: StopCondition)
    requires tk.postOnly || !StopsTaker(cfg.stp, tk.user)
    ensures !Sweep(cfg, tk, levels, stop).stpCancelled
  {
    hide Sweep, VisitLevel;
    SweepStep(cfg, tk, levels, stop);
    var w := Sweep(cfg, tk, levels, stop);
    if w.visits != [] {
      if !tk.postOnly {
        VisitExecutes(cfg, tk, levels[0], w.visits[0].cap);
      }
      NeverStopped(cfg, tk, levels[1..], StopAfter(tk, stop, w.visits[0], levels[0].price));
    }
  }

  /** A sweep that cancels the taker was announced by the check, whatever the lot size;
      without lots the check rejects exactly the sweeps that cancel the taker. */
  lemma {:induction false} ReachesExactly(cfg: Config, tk: Taker, levels: seq<Level>, r: nat)
    requires StopsTaker(cfg.stp, tk.user)
    ensures Sweep(cfg, tk, levels, BaseQty(r)).stpCancelled ==> Reaches(tk, levels, r)
    ensures LotSize(cfg) <= 1 && !tk.postOnly ==> (Reaches(tk, levels, r) <==> Sweep(cfg, tk, levels, BaseQty(r)).stpCancelled)
  {
    hide Sweep, VisitLevel, Decide, LotSize, Reach;
    if tk.postOnly {
      NeverStopped(cfg, tk, levels, BaseQty(r));
    } else {
      SweepStep(cfg, tk, levels, BaseQty(r));
      var w := Sweep(cfg, tk, levels, BaseQty(r));
      RoundLotLaws(r, LotSize(cfg));
      if w.visits != [] {
        var v, orders := w.visits[0], levels[0].orders;
        VisitExecutes(cfg, tk, levels[0], v.cap);
        DecideStops(orders, tk.user, cfg.stp);
        NoConflictReach(cfg, tk.user, orders);
        if NoneOwned(orders, tk.user) {
          ReachesExactly(cfg, tk, levels[1..], r - v.executed);
          if v.executed == v.cap {
            SweepStep(cfg, tk, levels[1..], BaseQty(r - v.executed));
          }
        }
      }
    }
  }

  lemma NoConflictReach(cfg: Config, user: User, orders: seq<Order>)
    ensures Decide(orders, user, cfg.stp).NoConflict? ==> Reach(cfg, user, orders) == Sum(Drawable, orders)
  {
  }
}
