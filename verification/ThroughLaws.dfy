/** Price priority: when a walk trades at a level while a better one still holds depth. */
module ThroughLaws {
  import opened Types
  import opened Seqs
  import opened Arith
  import opened Orders
  import opened Levels
  import opened Stp
  import opened Matching
  import opened VisitLaws
  import opened SweepLaws
  import opened BudgetLaws

  /** Some visit trades although an earlier, better level is left with drawable depth. */
  predicate TradesThrough(visits: seq<Visit>) {
    exists i, k :: 0 <= i < k < |visits| && visits[k].executed > 0 && Sum(Drawable, visits[i].orders) > 0
  }

  /** A visit that lets the walk go on leaves the depth it did not execute. */
  lemma VisitLeaves(cfg: Config, tk: Taker, level: Level, cap: nat)
    requires !VisitLevel(cfg, tk, level, cap).halts
    ensures var v := VisitLevel(cfg, tk, level, cap);
            Sum(Drawable, v.orders) + v.executed == Reach(cfg, tk.user, level.orders)
  {
    VisitExecutes(cfg, tk, level, cap);
    match Decide(level.orders, tk.user, cfg.stp)
    case NoConflict => MatchExecutes(cap, level.orders, cfg.requeueBack);
    case RemoveMakers => MatchExecutes(cap, Filter(Not(Mine(tk.user)), level.orders), cfg.requeueBack);
    case StopTaker(safe) =>
    case StopBoth(safe, maker) =>
  }

  /** A base-quantity walk goes past a level only after draining it, for every lot size,
      limit and self-trade prevention mode. */
  lemma {:induction false} BaseDrains(cfg: Config, tk: Taker, levels: seq<Level>, r: nat, i: nat)
    requires !tk.postOnly
    requires i + 1 < |Sweep(cfg, tk, levels, BaseQty(r)).visits|
    ensures Sum(Drawable, Sweep(cfg, tk, levels, BaseQty(r)).visits[i].orders) == 0
  {
    hide Sweep, VisitLevel, Decide, Reach;
    SweepStep(cfg, tk, levels, BaseQty(r));
    var v := Sweep(cfg, tk, levels, BaseQty(r)).visits[0];
    VisitExecutes(cfg, tk, levels[0], v.cap);
    CapAffordable(r, levels[0].price, LotSize(cfg));
    if i > 0 {
      BaseDrains(cfg, tk, levels[1..], r - v.executed, i - 1);
    } else {
      VisitLeaves(cfg, tk, levels[0], v.cap);
      if v.executed == v.cap {
        RoundLotLaws(r, LotSize(cfg));
        SweepStep(cfg, tk, levels[1..], BaseQty(r - v.executed));
      }
    }
  }

  lemma BaseNeverThrough(cfg: Config, tk: Taker, levels: seq<Level>, r: nat)
    ensures !TradesThrough(Sweep(cfg, tk, levels, BaseQty(r)).visits)
  {
    hide Sweep, VisitLevel;
    var visits := Sweep(cfg, tk, levels, BaseQty(r)).visits;
    if tk.postOnly {
      SweepVisits(cfg, tk, levels, BaseQty(r));
      assert forall k :: 0 <= k < |visits| ==> IsVisit(cfg, tk, levels[k], visits[k]) && visits[k].executed == 0;
    } else {
      forall i | 0 <= i < |visits| - 1 ensures Sum(Drawable, visits[i].orders) == 0 {
        BaseDrains(cfg, tk, levels, r, i);
      }
    }
  }

  // ---- Notional walks ----

  /** The budget buys nothing more: it cannot pay for one lot before the next level with
      depth this taker can reach, or is stopped there. */
  predicate Starves(cfg: Config, tk: Taker, levels: seq<Level>, r: nat) {
    if levels == [] || LevelCap(QuoteAmount(r), levels[0].price, LotSize(cfg)) == 0 then true
    else if Reach(cfg, tk.user, levels[0].orders) > 0 then false
    else
      var d := Decide(levels[0].orders, tk.user, cfg.stp);
      d.StopTaker? || d.StopBoth? || Starves(cfg, tk, levels[1..], r)
  }

  /** A budget that buys whole levels until it is short of one, and then buys nothing more. */
  predicate StopsShort(cfg: Config, tk: Taker, levels: seq<Level>, r: nat) {
    if levels == [] then true
    else
      var price, reach, d := levels[0].price, Reach(cfg, tk.user, levels[0].orders), Decide(levels[0].orders, tk.user, cfg.stp);
      var cap := LevelCap(QuoteAmount(r), price, LotSize(cfg));
      if cap == 0 || d.StopTaker? || d.StopBoth? then true
      else if cap < reach then Starves(cfg, tk, levels[1..], SatSub(r, Spend(price, cap)))
      else StopsShort(cfg, tk, levels[1..], SatSub(r, Spend(price, reach)))
  }

  predicate Idles(visits: seq<Visit>) {
    forall k :: 0 <= k < |visits| ==> visits[k].executed == 0
  }

  lemma {:induction false} StarvesExactly(cfg: Config, tk: Taker, levels: seq<Level>, r: nat)
    requires !tk.postOnly && tk.limit.None? && r <= U128_MAX
    ensures Idles(Sweep(cfg, tk, levels, QuoteAmount(r)).visits) <==> Starves(cfg, tk, levels, r)
  {
    hide Sweep, VisitLevel, Decide, Reach, LevelCap, LotSize, Consume;
    var w := Sweep(cfg, tk, levels, QuoteAmount(r));
    SweepStep(cfg, tk, levels, QuoteAmount(r));
    if w.visits != [] {
      var v, price := w.visits[0], levels[0].price;
      VisitExecutes(cfg, tk, levels[0], v.cap);
      if v.executed == 0 {
        ConsumeExact(r, price, LotSize(cfg), 0);
        CapAffordable(r, price, LotSize(cfg));
        if !v.halts {
          assert r > 0 by { Penniless(cfg, tk, levels); }
          StarvesExactly(cfg, tk, levels[1..], r);
          var later := Sweep(cfg, tk, levels[1..], QuoteAmount(r)).visits;
          assert w.visits == [v] + later && w.visits[1..] == later;
        }
      }
    }
  }

  /** A market walk by notional never trades through if and only if the budget stops short. */
  lemma {:induction false} QuoteThroughExactly(cfg: Config, tk: Taker, levels: seq<Level>, r: nat)
    requires !tk.postOnly && tk.limit.None? && r <= U128_MAX
    ensures !TradesThrough(Sweep(cfg, tk, levels, QuoteAmount(r)).visits) <==> StopsShort(cfg, tk, levels, r)
  {
    hide Sweep, VisitLevel, Decide, Reach, LevelCap, LotSize, Consume, Starves, Spend, TradesThrough;
    var w := Sweep(cfg, tk, levels, QuoteAmount(r));
    SweepStep(cfg, tk, levels, QuoteAmount(r));
    ShortWalk(w.visits);
    if w.visits != [] {
      var v, price, rest := w.visits[0], levels[0].price, levels[1..];
      VisitExecutes(cfg, tk, levels[0], v.cap);
      SpentExact(r, price, LotSize(cfg), v.executed);
      if !v.halts {
        var r' := r - Spend(price, v.executed);
        var later := if r' == 0 then [] else Sweep(cfg, tk, rest, QuoteAmount(r')).visits;
        assert w.visits == [v] + later;
        VisitLeaves(cfg, tk, levels[0], v.cap);
        if r' == 0 {
          Penniless(cfg, tk, rest);
        }
        if v.cap < Reach(cfg, tk.user, levels[0].orders) {
          StarvesExactly(cfg, tk, rest, r');
          ShortBudget(v, later);
        } else {
          ThroughTail(v, later);
          QuoteThroughExactly(cfg, tk, rest, r');
        }
      }
    }
  }

  lemma ShortWalk(visits: seq<Visit>)
    ensures |visits| <= 1 ==> !TradesThrough(visits)
  {
  }

  lemma SpentExact(r: nat, price: Price, lot: nat, executed: nat)
    requires r <= U128_MAX && executed <= LevelCap(QuoteAmount(r), price, lot)
    ensures Spend(price, executed) <= r
    ensures Consume(QuoteAmount(r), executed, price) == QuoteAmount(r - Spend(price, executed))
  {
    hide LevelCap, Consume;
    ConsumeExact(r, price, lot, executed);
  }

  lemma ThroughTail(v: Visit, later: seq<Visit>)
    requires Sum(Drawable, v.orders) == 0
    ensures TradesThrough([v] + later) <==> TradesThrough(later)
  {
    var all := [v] + later;
    if TradesThrough(later) {
      var i, k :| 0 <= i < k < |later| && later[k].executed > 0 && Sum(Drawable, later[i].orders) > 0;
      assert all[k + 1] == later[k] && all[i + 1] == later[i];
    }
    if TradesThrough(all) {
      var i, k :| 0 <= i < k < |all| && all[k].executed > 0 && Sum(Drawable, all[i].orders) > 0;
      assert later[k - 1] == all[k] && later[i - 1] == all[i];
    }
  }

  lemma Penniless(cfg: Config, tk: Taker, levels: seq<Level>)
    ensures Sweep(cfg, tk, levels, QuoteAmount(0)).visits == []
    ensures StopsShort(cfg, tk, levels, 0) && Starves(cfg, tk, levels, 0)
  {
  }

  /** A level left with depth is traded through as soon as any later visit trades. */
  lemma ShortBudget(v: Visit, later: seq<Visit>)
    requires Sum(Drawable, v.orders) > 0
    ensures !TradesThrough([v] + later) <==> Idles(later)
  {
    var all := [v] + later;
    if !Idles(later) {
      var k :| 0 <= k < |later| && later[k].executed > 0;
      assert all[k + 1].executed > 0 && Sum(Drawable, all[0].orders) > 0;
    }
    if TradesThrough(all) {
      var i, k :| 0 <= i < k < |all| && all[k].executed > 0 && Sum(Drawable, all[i].orders) > 0;
      assert later[k - 1].executed > 0;
    }
  }

  lemma DustBound(r: nat, price: Price, next: Price, cap: nat, n: nat)
    requires 0 < price < next && cap <= r / price < cap + n
    ensures price * cap <= r && r - price * cap < next * n
  {
    var q := r / price;
    assert r == price * q + r % price && r % price < price;
    assert price * q - price * cap == price * (q - cap);
    assert price * (q - cap) <= price * (n - 1);
    assert price * (n - 1) + price == price * n <= next * n;
  }

  lemma SmallQuotient(a: nat, b: nat, n: nat)
    requires b > 0 && a < b * n
    ensures a / b < n
  {
  }

  lemma DustBuysNothing(r: nat, price: Price, next: Price, lot: nat)
    requires 0 < price < next && r / price <= U64_MAX
    requires LevelCap(QuoteAmount(r), price, lot) > 0
    ensures var cap := LevelCap(QuoteAmount(r), price, lot);
            price * cap <= r && LevelCap(QuoteAmount(r - price * cap), next, lot) == 0
  {
    var cap, n := LevelCap(QuoteAmount(r), price, lot), if lot <= 1 then 1 else lot;
    RoundLotLaws(r / price, lot);
    DustBound(r, price, next, cap, n);
    SmallQuotient(r - price * cap, next, n);
    Dustless((r - price * cap) / next, lot, n);
  }

  lemma Dustless(q: nat, lot: nat, n: nat)
    requires n == if lot <= 1 then 1 else lot
    requires q < n
    ensures RoundLot(Sat64(q), lot) == 0
  {
  }

  lemma QuotientFalls(r: nat, price: Price, next: Price, spent: nat)
    requires 0 < price < next && spent <= r
    ensures (r - spent) / next <= r / price
  {
    var q := r / price;
    assert r < price * (q + 1) <= next * (q + 1);
    SmallQuotient(r - spent, next, q + 1);
  }

  /** A notional buy always stops short while the quantity it could afford at the best
      ask fits a u64: it never trades through. */
  lemma {:induction false} BuysStopShort(cfg: Config, tk: Taker, levels: seq<Level>, r: nat)
    requires BestFirst(Sell, levels)
    requires levels != [] && levels[0].price > 0 ==> r / levels[0].price <= U64_MAX
    ensures StopsShort(cfg, tk, levels, r)
    decreases |levels|
  {
    hide Decide, Reach, LevelCap, LotSize;
    if |levels| > 1 {
      var price, next, reach := levels[0].price, levels[1].price, Reach(cfg, tk.user, levels[0].orders);
      var cap := LevelCap(QuoteAmount(r), price, LotSize(cfg));
      assert Better(Sell, price, next);
      FreeBuysNothing(r, price, LotSize(cfg));
      if cap > 0 {
        DustBuysNothing(r, price, next, LotSize(cfg));
        if reach <= cap {
          TimesMonotone(price, reach, cap);
          QuotientFalls(r, price, next, price * reach);
          assert BestFirst(Sell, levels[1..]);
          BuysStopShort(cfg, tk, levels[1..], r - price * reach);
        }
      }
    }
  }

  lemma FreeBuysNothing(r: nat, price: Price, lot: nat)
    ensures price == 0 ==> LevelCap(QuoteAmount(r), price, lot) == 0
  {
  }

  lemma NotionalBuyNeverThrough(cfg: Config, tk: Taker, levels: seq<Level>, r: nat)
    requires !tk.postOnly && tk.limit.None? && r <= U128_MAX
    requires BestFirst(Sell, levels)
    requires levels != [] && levels[0].price > 0 ==> r / levels[0].price <= U64_MAX
    ensures !TradesThrough(Sweep(cfg, tk, levels, QuoteAmount(r)).visits)
  {
    QuoteThroughExactly(cfg, tk, levels, r);
    BuysStopShort(cfg, tk, levels, r);
  }

  /** A notional sell of 150 against bids of 100 and 30: one unit sells at 100, the rest of
      the budget does not pay for another but still sells one unit at 30. */
  lemma NotionalSellTradesThrough() returns (cfg: Config, tk: Taker, bids: seq<Level>)
    ensures BestFirst(Buy, bids) && tk.side == Sell && tk.limit.None? && cfg.stp.Off?
    ensures TradesThrough(Sweep(cfg, tk, bids, QuoteAmount(150)).visits)
  {
    cfg := Config(None, None, None, None, Off, false, false);
    tk := Taker(9, ANONYMOUS, Sell, None, false);
    var high := Order(Tag(1, 1, Buy, 100), Gtc, Standard, 10, 0);
    var low := Order(Tag(2, 1, Buy, 30), Gtc, Standard, 10, 0);
    bids := [Level(100, [high]), Level(30, [low])];
    assert Sum(Drawable, [high]) == 10 && Sum(Drawable, [low]) == 10;
    QuoteThroughExactly(cfg, tk, bids, 150);
  }
}
