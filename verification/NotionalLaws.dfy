/** The result of a notional match: when it succeeds, and when it reports every trade. */
module NotionalLaws {
  import opened Types
  import opened Seqs
  import opened Arith
  import opened Levels
  import opened Effects
  import opened Matching
  import opened VisitLaws
  import opened SweepLaws
  import opened BudgetLaws
  import opened Engine
  import opened OpLaws

  // ---- A bound the caller can check ----

  /** Where every walked price is at least `floor`, the walk costs at least that much a unit. */
  lemma {:induction false} CostFloor(levels: seq<Level>, visits: seq<Visit>, floor: Price)
    requires |visits| <= |levels| && forall l <- levels :: floor <= l.price
    ensures floor * Sum(ExecutedAt, visits) <= Cost(levels, visits)
    decreases |visits|
  {
    if visits != [] {
      assert levels[0] in levels && forall l <- levels[1..] :: l in levels;
      CostFloor(levels[1..], visits[1..], floor);
      var e, rest := visits[0].executed, Sum(ExecutedAt, visits[1..]);
      TimesMonotone(e, floor, levels[0].price);
      assert floor * (e + rest) == e * floor + floor * rest;
    }
  }

  /** A notional buy finds no more than its amount pays for at the best ask. */
  lemma BuyBound(cfg: Config, tk: Taker, levels: seq<Level>, r: nat)
    requires BestFirst(Sell, levels) && r <= U128_MAX && levels != []
    ensures levels[0].price * QuoteWalk(cfg, tk, levels, r) <= r
  {
    hide Sweep, QuoteWalk;
    var w := Sweep(cfg, tk, levels, QuoteAmount(r));
    QuoteExact(cfg, tk, levels, r);
    QuoteAccounts(cfg, tk, levels, r);
    forall l | l in levels ensures levels[0].price <= l.price {
      var i :| 0 <= i < |levels| && levels[i] == l;
      assert i > 0 ==> Better(Sell, levels[0].price, levels[i].price);
    }
    CostFloor(levels, w.visits, levels[0].price);
  }

  lemma FreeLevel(cfg: Config, tk: Taker, levels: seq<Level>, r: nat)
    ensures levels == [] || levels[0].price == 0 ==> QuoteWalk(cfg, tk, levels, r) == 0
  {
  }

  /** Buys whose amount divided by the best ask fits a u64 find a quantity that does. */
  lemma BuysFit(cfg: Config, tk: Taker, levels: seq<Level>, r: nat)
    requires BestFirst(Sell, levels) && r <= U128_MAX
    requires levels != [] && levels[0].price > 0 ==> r / levels[0].price <= U64_MAX
    ensures QuoteWalk(cfg, tk, levels, r) <= U64_MAX
  {
    hide QuoteWalk;
    FreeLevel(cfg, tk, levels, r);
    if levels != [] && levels[0].price > 0 {
      var price, n := levels[0].price, QuoteWalk(cfg, tk, levels, r);
      BuyBound(cfg, tk, levels, r);
      assert n * price == price * n;
      QuotientBound(n, price, r);
    }
  }

  // ---- When a notional match succeeds ----

  /** No single trade of a notional walk exceeds a u64. */
  lemma TradeFits(cfg: Config, tk: Taker, levels: seq<Level>, r: nat, k: nat)
    requires r <= U128_MAX && k < |Sweep(cfg, tk, levels, QuoteAmount(r)).visits|
    ensures var v := Sweep(cfg, tk, levels, QuoteAmount(r)).visits[k];
            v.executed <= U64_MAX && forall f <- v.fills :: f.quantity <= U64_MAX
  {
    hide Sweep, VisitLevel, LevelCap, LotSize;
    var visits := Sweep(cfg, tk, levels, QuoteAmount(r)).visits;
    SweepVisits(cfg, tk, levels, QuoteAmount(r));
    assert IsVisit(cfg, tk, levels[k], visits[k]);
    if !tk.postOnly {
      QuoteAccountsAt(cfg, tk, levels, r, k);
      CapAffordable(r - Cost(levels, visits[..k]), levels[k].price, LotSize(cfg));
      VisitExecutes(cfg, tk, levels[k], visits[k].cap);
      forall f | f in visits[k].fills ensures f.quantity <= U64_MAX {
        var i :| 0 <= i < |visits[k].fills| && visits[k].fills[i] == f;
        SumElement(Quantity, visits[k].fills, i);
      }
    }
  }

  lemma {:induction false} TradesFit(levels: seq<Level>, visits: seq<Visit>)
    requires |visits| <= |levels|
    requires forall k :: 0 <= k < |visits| ==> forall f <- visits[k].fills :: f.quantity <= U64_MAX
    ensures forall t <- Trades(levels, visits) :: t.quantity <= U64_MAX
    decreases |visits|
  {
    if visits != [] {
      forall k | 0 <= k < |visits[1..]| ensures forall f <- visits[1..][k].fills :: f.quantity <= U64_MAX {
        assert visits[1..][k] == visits[k + 1];
      }
      TradesFit(levels[1..], visits[1..]);
      forall t | t in Priced(levels[0].price, visits[0].fills) ensures t.quantity <= U64_MAX {
        var i :| 0 <= i < |visits[0].fills| && t == Trade(visits[0].fills[i].maker, visits[0].fills[i].owner, levels[0].price, visits[0].fills[i].quantity);
        assert visits[0].fills[i] in visits[0].fills;
      }
    }
  }

  lemma FirstKept(m: MatchResult, ts: seq<Trade>)
    requires ts != [] && m.trades == [] && ts[0].quantity <= m.remaining
    ensures AddTrades(m, ts).trades != []
  {
    AddTradesLaws(AddTrade(m, ts[0]), ts[1..]);
  }

  /** A notional match succeeds if and only if the dry run finds anything to trade. */
  lemma NotionalSucceedsExactly(c: Core, tk: Taker, r: nat)
    requires r <= U128_MAX
    ensures Match(c, tk, QuoteAmount(r)).reply.Ok? <==> QuoteWalk(c.cfg, tk, SideOf(c, tk.side.Opposite()), r) > 0
  {
    hide Sweep, QuoteWalk;
    var levels, w := SideOf(c, tk.side.Opposite()), MatchWalk(c, tk, QuoteAmount(r));
    var ts := Trades(levels, w.visits);
    QuoteExact(c.cfg, tk, levels, r);
    SweepVisits(c.cfg, tk, levels, QuoteAmount(r));
    TradesSum(c.cfg, tk, levels, w.visits);
    forall k | 0 <= k < |w.visits| ensures forall f <- w.visits[k].fills :: f.quantity <= U64_MAX {
      TradeFits(c.cfg, tk, levels, r, k);
    }
    TradesFit(levels, w.visits);
    if ts == [] {
      assert AddTrades(MatchResult(U64_MAX, [], []), ts).trades == [];
    } else {
      assert ts[0] in ts;
      FirstKept(MatchResult(U64_MAX, [], []), ts);
      PositiveTrades(c.cfg, tk, levels, w.visits);
      SumElement(TradeSize, ts, 0);
    }
  }

  lemma {:induction false} PositiveTrades(cfg: Config, tk: Taker, levels: seq<Level>, visits: seq<Visit>)
    requires AreVisits(cfg, tk, levels, visits)
    ensures Trades(levels, visits) != [] ==> Sum(ExecutedAt, visits) > 0
    decreases |visits|
  {
    hide VisitLevel;
    if visits != [] {
      VisitsTail(cfg, tk, levels, visits);
      PositiveTrades(cfg, tk, levels[1..], visits[1..]);
      VisitExecutes(cfg, tk, levels[0], visits[0].cap);
      assert IsVisit(cfg, tk, levels[0], visits[0]);
      assert visits[0].executed == 0 ==> visits[0].fills == [] && Priced(levels[0].price, visits[0].fills) == [];
    }
  }

  /** A notional buy whose amount divided by the best ask fits a u64 reports every trade. */
  lemma BuysReportAll(c: Core, tk: Taker, r: nat)
    requires tk.side == Buy && r <= U128_MAX && BestFirst(Sell, c.asks)
    requires c.asks != [] && c.asks[0].price > 0 ==> r / c.asks[0].price <= U64_MAX
    ensures var m := Match(c, tk, QuoteAmount(r));
            m.reply.Ok? ==> m.reply.value.result.trades == Trades(c.asks, MatchWalk(c, tk, QuoteAmount(r)).visits)
  {
    hide Match, QuoteWalk, Sweep;
    BuysFit(c.cfg, tk, c.asks, r);
    MatchResultLaws(c, tk, QuoteAmount(r));
  }
}
