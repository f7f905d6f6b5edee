/** What the budget of a walk guarantees: exact accounting, and dry runs that predict what a
    base-quantity or notional walk executes. */
module BudgetLaws {
  import opened Types
  import opened Seqs
  import opened Arith
  import opened Orders
  import opened Levels
  import opened Stp
  import opened Matching
  import opened VisitLaws
  import opened SweepLaws

  // ---- Accounting ----

  lemma RoundLotLaws(raw: nat, lot: nat)
    ensures RoundLot(raw, lot) <= raw
    ensures RoundLot(raw - RoundLot(raw, lot), lot) == 0
    ensures lot > 1 ==> raw - RoundLot(raw, lot) < lot
    ensures lot <= 1 ==> RoundLot(raw, lot) == raw
  {
    if lot > 1 {
      RemainderLaws(raw, lot);
    }
  }

  /** The cap is affordable: neither saturating operation of `Consume` can saturate. */
  lemma CapAffordable(r: nat, price: Price, lot: nat)
    ensures price * LevelCap(QuoteAmount(r), price, lot) <= r
    ensures LevelCap(BaseQty(r), price, lot) <= r
    ensures LevelCap(QuoteAmount(r), price, lot) <= U64_MAX
  {
    RoundLotLaws(r, lot);
    if price != 0 && r >= price {
      RoundLotLaws(Sat64(r / price), lot);
      TimesMonotone(price, LevelCap(QuoteAmount(r), price, lot), r / price);
      QuotientTimes(price, r);
    }
  }

  lemma ConsumeExact(r: nat, price: Price, lot: nat, executed: nat)
    requires r <= U128_MAX && executed <= LevelCap(QuoteAmount(r), price, lot)
    ensures price * executed <= r
    ensures Consume(QuoteAmount(r), executed, price) == QuoteAmount(r - price * executed)
  {
    hide LevelCap;
    CapAffordable(r, price, lot);
    TimesMonotone(price, executed, LevelCap(QuoteAmount(r), price, lot));
  }

  /** A base-quantity walk: the remaining budget is the request less what executed. */
  lemma {:induction false} BaseAccounts(cfg: Config, tk: Taker, levels: seq<Level>, r: nat)
    ensures var w := Sweep(cfg, tk, levels, BaseQty(r));
            w.stop.BaseQty? && w.stop.remaining + TotalExecuted(w) == r
  {
    hide Sweep, VisitLevel, Decide, Reach;
    SweepStep(cfg, tk, levels, BaseQty(r));
    var w := Sweep(cfg, tk, levels, BaseQty(r));
    if w.visits != [] {
      var v := w.visits[0];
      if !tk.postOnly {
        VisitExecutes(cfg, tk, levels[0], v.cap);
        CapAffordable(r, levels[0].price, LotSize(cfg));
      }
      BaseAccounts(cfg, tk, levels[1..], r - v.executed);
      SumCons(ExecutedAt, v, Sweep(cfg, tk, levels[1..], BaseQty(r - v.executed)).visits);
      assert Sum(ExecutedAt, [v]) == v.executed;
    }
  }

  /** A notional walk: the remaining amount is the request less the value executed. */
  lemma {:induction false} QuoteAccounts(cfg: Config, tk: Taker, levels: seq<Level>, r: nat)
    requires r <= U128_MAX
    ensures var w := Sweep(cfg, tk, levels, QuoteAmount(r));
            w.stop.QuoteAmount? && w.stop.remaining + Cost(levels, w.visits) == r
  {
    hide Sweep, VisitLevel, Decide, Reach, LevelCap, Consume, LotSize;
    SweepStep(cfg, tk, levels, QuoteAmount(r));
    var w := Sweep(cfg, tk, levels, QuoteAmount(r));
    if w.visits != [] {
      var v, price := w.visits[0], levels[0].price;
      if !tk.postOnly {
        VisitExecutes(cfg, tk, levels[0], v.cap);
        ConsumeExact(r, price, LotSize(cfg), v.executed);
        QuoteAccounts(cfg, tk, levels[1..], r - price * v.executed);
      } else {
        QuoteAccounts(cfg, tk, levels[1..], r);
        assert price * v.executed == 0;
      }
    }
  }

  /** After every walked level the budget is exactly the request less the value executed
      so far, the next cap is computed from it, and the level spends no more than it. */
  lemma {:induction false} QuoteAccountsAt(cfg: Config, tk: Taker, levels: seq<Level>, r: nat, k: nat)
    requires r <= U128_MAX && !tk.postOnly
    requires k < |Sweep(cfg, tk, levels, QuoteAmount(r)).visits|
    ensures var visits := Sweep(cfg, tk, levels, QuoteAmount(r)).visits;
            && Cost(levels, visits[..k]) + levels[k].price * visits[k].executed <= r
            && visits[k].cap == LevelCap(QuoteAmount(r - Cost(levels, visits[..k])), levels[k].price, LotSize(cfg))
            && visits[k].executed <= visits[k].cap
  {
    hide Sweep, VisitLevel, Decide, Reach, LevelCap, Consume, LotSize;
    SweepStep(cfg, tk, levels, QuoteAmount(r));
    var visits := Sweep(cfg, tk, levels, QuoteAmount(r)).visits;
    var v, price := visits[0], levels[0].price;
    VisitExecutes(cfg, tk, levels[0], v.cap);
    ConsumeExact(r, price, LotSize(cfg), v.executed);
    if k > 0 {
      QuoteAccountsAt(cfg, tk, levels[1..], r - price * v.executed, k - 1);
      assert visits[..k][1..] == visits[1..][..k - 1];
    }
  }

  // ---- Fill-or-kill feasibility ----

  /** The dry run behind fill-or-kill admission. It never matches anything: per level it
      takes the lot-rounded budget or the reachable depth. */
  function FokWalk(cfg: Config, tk: Taker, levels: seq<Level>, needed: nat): nat {
    if needed == 0 || levels == [] || !Within(tk.side, tk.limit, levels[0].price) then 0
    else
      var cap := RoundLot(needed, LotSize(cfg));
      if cap == 0 then 0
      else match Decide(levels[0].orders, tk.user, cfg.stp)
        case NoConflict =>
          var e := Min(cap, Executed(cap, levels[0].orders));
          e + FokWalk(cfg, tk, levels[1..], needed - Min(e, needed))
        case RemoveMakers =>
          var e := Min(cap, Sum(Drawable, Filter(Not(Mine(tk.user)), levels[0].orders)));
          e + FokWalk(cfg, tk, levels[1..], needed - Min(e, needed))
        case StopTaker(safe) => Min(cap, safe)
        case StopBoth(safe, _) => Min(cap, safe)
  }

  lemma FokStep(cfg: Config, tk: Taker, levels: seq<Level>, needed: nat)
    requires levels != []
    ensures var cap, d := RoundLot(needed, LotSize(cfg)), Decide(levels[0].orders, tk.user, cfg.stp);
            var e := Min(cap, Reach(cfg, tk.user, levels[0].orders));
            FokWalk(cfg, tk, levels, needed) ==
            if !Within(tk.side, tk.limit, levels[0].price) || cap == 0 then 0
            else if d.StopTaker? || d.StopBoth? then e
            else e + FokWalk(cfg, tk, levels[1..], needed - e)
  {
    hide Decide;
    RoundLotLaws(needed, LotSize(cfg));
  }

  /** The dry run predicts the sweep exactly: for every book, side, limit, lot size,
      self-trade prevention mode and taker it returns what the sweep executes. */
  lemma {:induction false} FokExact(cfg: Config, tk: Taker, levels: seq<Level>, needed: nat)
    requires !tk.postOnly
    ensures FokWalk(cfg, tk, levels, needed) == TotalExecuted(Sweep(cfg, tk, levels, BaseQty(needed)))
  {
    hide Sweep, VisitLevel, Decide, Reach, FokWalk;
    SweepStep(cfg, tk, levels, BaseQty(needed));
    var w := Sweep(cfg, tk, levels, BaseQty(needed));
    if levels == [] {
      FokNothing(cfg, tk, needed);
    } else {
      FokStep(cfg, tk, levels, needed);
      if w.visits != [] {
        var v := w.visits[0];
        VisitExecutes(cfg, tk, levels[0], v.cap);
        CapAffordable(needed, levels[0].price, LotSize(cfg));
        FokExact(cfg, tk, levels[1..], needed - v.executed);
        SumCons(ExecutedAt, v, Sweep(cfg, tk, levels[1..], BaseQty(needed - v.executed)).visits);
        assert Sum(ExecutedAt, [v]) == v.executed;
        if needed == v.executed {
          BaseAccounts(cfg, tk, levels[1..], 0);
        }
      }
    }
  }

  lemma FokNothing(cfg: Config, tk: Taker, needed: nat)
    ensures FokWalk(cfg, tk, [], needed) == 0
  {
  }

  // ---- Notional dry run ----

  function Spend(price: Price, quantity: nat): nat {
    price * quantity
  }

  /** What a notional walk finds, computed from the book and the amount alone: per level the
      affordable whole lots or the reachable depth. A post-only taker takes nothing. */
  function QuoteWalk(cfg: Config, tk: Taker, levels: seq<Level>, r: nat): nat {
    if tk.postOnly || levels == [] || !Within(tk.side, tk.limit, levels[0].price) then 0
    else
      var price, d := levels[0].price, Decide(levels[0].orders, tk.user, cfg.stp);
      var e := Min(LevelCap(QuoteAmount(r), price, LotSize(cfg)), Reach(cfg, tk.user, levels[0].orders));
      if LevelCap(QuoteAmount(r), price, LotSize(cfg)) == 0 then 0
      else if d.StopTaker? || d.StopBoth? then e
      else e + QuoteWalk(cfg, tk, levels[1..], SatSub(r, Spend(price, e)))
  }

  lemma QuoteStep(cfg: Config, tk: Taker, levels: seq<Level>, r: nat)
    requires levels != []
    ensures var cap := LevelCap(QuoteAmount(r), levels[0].price, LotSize(cfg));
            var e, d := Min(cap, Reach(cfg, tk.user, levels[0].orders)), Decide(levels[0].orders, tk.user, cfg.stp);
            QuoteWalk(cfg, tk, levels, r) ==
            if tk.postOnly || !Within(tk.side, tk.limit, levels[0].price) || cap == 0 then 0
            else if d.StopTaker? || d.StopBoth? then e
            else e + QuoteWalk(cfg, tk, levels[1..], SatSub(r, Spend(levels[0].price, e)))
  {
    hide Decide, Reach, LevelCap, LotSize, Within, Spend;
  }

  lemma NothingToWalk(cfg: Config, tk: Taker, levels: seq<Level>, r: nat)
    ensures tk.postOnly || levels == [] || r == 0 ==> QuoteWalk(cfg, tk, levels, r) == 0
  {
    hide Decide, Reach, LotSize, Within, Spend;
  }

  /** One visit of a notional walk, and what the rest of the walk adds. */
  lemma QuoteVisit(cfg: Config, tk: Taker, levels: seq<Level>, r: nat)
    requires r <= U128_MAX && !tk.postOnly
    requires Sweep(cfg, tk, levels, QuoteAmount(r)).visits != []
    ensures var w := Sweep(cfg, tk, levels, QuoteAmount(r));
            var v, d := w.visits[0], Decide(levels[0].orders, tk.user, cfg.stp);
            var cap, left := LevelCap(QuoteAmount(r), levels[0].price, LotSize(cfg)), SatSub(r, Spend(levels[0].price, v.executed));
            && Within(tk.side, tk.limit, levels[0].price)
            && cap > 0
            && v.executed == Min(cap, Reach(cfg, tk.user, levels[0].orders))
            && (v.halts <==> d.StopTaker? || d.StopBoth?)
            && left <= r
            && TotalExecuted(w) == v.executed + if v.halts || left == 0 then 0 else TotalExecuted(Sweep(cfg, tk, levels[1..], QuoteAmount(left)))
  {
    hide Sweep, VisitLevel, Decide, Reach, LevelCap, LotSize, Consume, Within;
    SweepStep(cfg, tk, levels, QuoteAmount(r));
    var w := Sweep(cfg, tk, levels, QuoteAmount(r));
    var v, price := w.visits[0], levels[0].price;
    VisitExecutes(cfg, tk, levels[0], v.cap);
    ConsumeExact(r, price, LotSize(cfg), v.executed);
    SumCons(ExecutedAt, v, []);
    assert [v] + [] == [v];
    SumCons(ExecutedAt, v, Sweep(cfg, tk, levels[1..], QuoteAmount(r - price * v.executed)).visits);
  }

  lemma {:induction false} ProbesNothing(cfg: Config, tk: Taker, levels: seq<Level>, stop: StopCondition)
    requires tk.postOnly
    ensures TotalExecuted(Sweep(cfg, tk, levels, stop)) == 0
  {
    hide VisitLevel, LevelCap, LotSize;
    if levels != [] {
      ProbesNothing(cfg, tk, levels[1..], stop);
      SumCons(ExecutedAt, Untouched(levels[0]), Sweep(cfg, tk, levels[1..], stop).visits);
    }
  }

  /** The notional dry run predicts the sweep exactly. */
  lemma {:induction false} QuoteExact(cfg: Config, tk: Taker, levels: seq<Level>, r: nat)
    requires r <= U128_MAX
    ensures QuoteWalk(cfg, tk, levels, r) == TotalExecuted(Sweep(cfg, tk, levels, QuoteAmount(r)))
  {
    hide Sweep, VisitLevel, Decide, Reach, LevelCap, LotSize, Consume, QuoteWalk, Within, Spend;
    SweepStep(cfg, tk, levels, QuoteAmount(r));
    NothingToWalk(cfg, tk, levels, r);
    if tk.postOnly {
      ProbesNothing(cfg, tk, levels, QuoteAmount(r));
    } else if levels != [] {
      QuoteStep(cfg, tk, levels, r);
      if Sweep(cfg, tk, levels, QuoteAmount(r)).visits != [] {
        var v := Sweep(cfg, tk, levels, QuoteAmount(r)).visits[0];
        QuoteVisit(cfg, tk, levels, r);
        var left := SatSub(r, Spend(levels[0].price, v.executed));
        QuoteExact(cfg, tk, levels[1..], left);
        NothingToWalk(cfg, tk, levels[1..], left);
      }
    }
  }
}
