/** Laws of the whole walk. */
module SweepLaws {
  import opened Types
  import opened Seqs
  import opened Orders
  import opened Levels
  import opened Stp
  import opened Effects
  import opened Matching
  import opened VisitLaws

  // ---- Every visit is a visit of its level ----

  predicate IsVisit(cfg: Config, tk: Taker, level: Level, v: Visit) {
    v == if tk.postOnly then Untouched(level) else VisitLevel(cfg, tk, level, v.cap)
  }

  predicate AreVisits(cfg: Config, tk: Taker, levels: seq<Level>, visits: seq<Visit>) {
    && |visits| <= |levels|
    && forall i :: 0 <= i < |visits| ==> IsVisit(cfg, tk, levels[i], visits[i]) && Within(tk.side, tk.limit, levels[i].price)
  }

  lemma CapKept(cfg: Config, tk: Taker, level: Level, cap: nat)
    ensures VisitLevel(cfg, tk, level, cap).cap == cap
  {
  }

  function StopAfter(tk: Taker, stop: StopCondition, v: Visit, price: Price): StopCondition {
    if tk.postOnly then stop else Consume(stop, v.executed, price)
  }

  /** One step of the walk. */
  lemma SweepStep(cfg: Config, tk: Taker, levels: seq<Level>, stop: StopCondition)
    ensures var w := Sweep(cfg, tk, levels, stop);
            if w.visits == [] then
              && w.stop == stop
              && !w.stpCancelled
              && (w.rejected ==> tk.postOnly && levels != [] && Within(tk.side, tk.limit, levels[0].price))
              && (levels == [] || !Within(tk.side, tk.limit, levels[0].price) || LevelCap(stop, levels[0].price, LotSize(cfg)) == 0 || w.rejected)
            else
              var v, cap, next := w.visits[0], LevelCap(stop, levels[0].price, LotSize(cfg)), StopAfter(tk, stop, w.visits[0], levels[0].price);
              && levels != []
              && Within(tk.side, tk.limit, levels[0].price)
              && cap > 0
              && IsVisit(cfg, tk, levels[0], v)
              && (tk.postOnly ==> v.executed == 0 && !v.halts && v.cancelled == [])
              && (!tk.postOnly ==> v.cap == cap && v == VisitLevel(cfg, tk, levels[0], cap))
              && if v.halts || (!tk.postOnly && Done(next)) then w == Walk([v], next, v.halts, false)
                 else w == Prepend(v, Sweep(cfg, tk, levels[1..], next))
  {
    hide Decide, Levels.MatchLevel;
    if levels != [] {
      CapKept(cfg, tk, levels[0], LevelCap(stop, levels[0].price, LotSize(cfg)));
    }
  }

  lemma {:induction false} SweepVisits(cfg: Config, tk: Taker, levels: seq<Level>, stop: StopCondition)
    ensures AreVisits(cfg, tk, levels, Sweep(cfg, tk, levels, stop).visits)
  {
    hide Sweep, VisitLevel;
    SweepStep(cfg, tk, levels, stop);
    var w := Sweep(cfg, tk, levels, stop);
    if w.visits != [] && |w.visits| > 1 {
      SweepVisits(cfg, tk, levels[1..], StopAfter(tk, stop, w.visits[0], levels[0].price));
    }
  }

  lemma VisitsTail(cfg: Config, tk: Taker, levels: seq<Level>, visits: seq<Visit>)
    requires AreVisits(cfg, tk, levels, visits) && visits != []
    ensures IsVisit(cfg, tk, levels[0], visits[0])
    ensures AreVisits(cfg, tk, levels[1..], visits[1..])
  {
  }

  // ---- Conservation of makers ----

  /** A weight on orders as a weight on levels. */
  function Across(f: Order -> nat): Level -> nat {
    (l: Level) => Sum(f, l.orders)
  }

  /** Every maker is after the walk queued, filled or cancelled, exactly once: for any
      weight on makers, what stays, what filled and what was cancelled add up. */
  lemma {:induction false} VisitsConserve(cfg: Config, tk: Taker, levels: seq<Level>, visits: seq<Visit>, f: Tag -> nat)
    requires AreVisits(cfg, tk, levels, visits)
    ensures Sum(Across(OfTag(f)), After(levels, visits)) + Sum(OfTag(f), AllFilled(visits)) + Sum(Left(f), WalkEffects(visits))
            == Sum(Across(OfTag(f)), levels)
    decreases |visits|
  {
    hide VisitLevel;
    if visits != [] {
      VisitsTail(cfg, tk, levels, visits);
      VisitsConserve(cfg, tk, levels[1..], visits[1..], f);
      ConservesCons(levels, visits, f);
      if !tk.postOnly {
        VisitConserves(cfg, tk, levels[0], visits[0].cap, f);
        VisitLeft(cfg, tk, levels[0], visits[0].cap, f);
      }
    }
  }

  lemma ConservesCons(levels: seq<Level>, visits: seq<Visit>, f: Tag -> nat)
    requires 0 < |visits| <= |levels|
    ensures Sum(Across(OfTag(f)), After(levels, visits)) == Sum(OfTag(f), visits[0].orders) + Sum(Across(OfTag(f)), After(levels[1..], visits[1..]))
    ensures Sum(OfTag(f), AllFilled(visits)) == Sum(OfTag(f), visits[0].filled) + Sum(OfTag(f), AllFilled(visits[1..]))
    ensures Sum(Left(f), WalkEffects(visits)) == Sum(Left(f), visits[0].effects) + Sum(Left(f), WalkEffects(visits[1..]))
  {
    SumCons(Across(OfTag(f)), Level(levels[0].price, visits[0].orders), After(levels[1..], visits[1..]));
    SumAppend(OfTag(f), visits[0].filled, AllFilled(visits[1..]));
    SumAppend(Left(f), visits[0].effects, WalkEffects(visits[1..]));
  }

  lemma {:induction false} PruneSum(f: Order -> nat, levels: seq<Level>)
    ensures Sum(Across(f), Prune(levels)) == Sum(Across(f), levels)
  {
    if levels != [] {
      PruneSum(f, levels[1..]);
      SumCons(Across(f), levels[0], Prune(levels[1..]));
    }
  }

  // ---- Trades ----

  function TradeValue(t: Trade): nat {
    t.price * t.quantity
  }

  /** Quote value executed at the walked levels. */
  function Cost(levels: seq<Level>, visits: seq<Visit>): nat
    requires |visits| <= |levels|
  {
    if visits == [] then 0 else levels[0].price * visits[0].executed + Cost(levels[1..], visits[1..])
  }

  lemma {:induction false} PricedSums(price: Price, fills: seq<Fill>)
    ensures Sum(TradeSize, Priced(price, fills)) == Sum(Quantity, fills)
    ensures Sum(TradeValue, Priced(price, fills)) == price * Sum(Quantity, fills)
  {
    if fills != [] {
      PricedSums(price, fills[1..]);
      assert Priced(price, fills)[1..] == Priced(price, fills[1..]);
      assert price * (fills[0].quantity + Sum(Quantity, fills[1..])) == price * fills[0].quantity + price * Sum(Quantity, fills[1..]);
    }
  }

  /** The trades carry exactly the executed quantity and value. */
  lemma {:induction false} TradesSum(cfg: Config, tk: Taker, levels: seq<Level>, visits: seq<Visit>)
    requires AreVisits(cfg, tk, levels, visits)
    ensures Sum(TradeSize, Trades(levels, visits)) == Sum(ExecutedAt, visits)
    ensures Sum(TradeValue, Trades(levels, visits)) == Cost(levels, visits)
    decreases |visits|
  {
    hide VisitLevel;
    if visits != [] {
      VisitsTail(cfg, tk, levels, visits);
      TradesSum(cfg, tk, levels[1..], visits[1..]);
      VisitExecutes(cfg, tk, levels[0], visits[0].cap);
      var now, later := Priced(levels[0].price, visits[0].fills), Trades(levels[1..], visits[1..]);
      PricedSums(levels[0].price, visits[0].fills);
      SumAppend(TradeSize, now, later);
      SumAppend(TradeValue, now, later);
    }
  }

  /** With self-trade prevention active no trade pairs the taker with its own order, in
      any mode and with replenishing makers ahead of that order. */
  lemma {:induction false} NoSelfTrade(cfg: Config, tk: Taker, levels: seq<Level>, visits: seq<Visit>)
    requires AreVisits(cfg, tk, levels, visits) && Active(cfg.stp, tk.user)
    ensures forall t <- Trades(levels, visits) :: t.owner != tk.user
    ensures NoneOwned(AllFilled(visits), tk.user)
    decreases |visits|
  {
    hide VisitLevel;
    if visits != [] {
      VisitsTail(cfg, tk, levels, visits);
      NoSelfTrade(cfg, tk, levels[1..], visits[1..]);
      if !tk.postOnly {
        VisitForeign(cfg, tk, levels[0], visits[0].cap);
      }
    }
  }

  predicate BestFirst(side: Side, levels: seq<Level>) {
    forall i, j :: 0 <= i < j < |levels| ==> Better(side, levels[i].price, levels[j].price)
  }

  /** Trades come best price first, each within the taker's limit and at a walked level. */
  lemma {:induction false} TradesOrdered(cfg: Config, tk: Taker, levels: seq<Level>, visits: seq<Visit>)
    requires AreVisits(cfg, tk, levels, visits)
    requires BestFirst(tk.side.Opposite(), levels)
    ensures var ts := Trades(levels, visits);
            && (forall t <- ts :: Within(tk.side, tk.limit, t.price) && exists i :: 0 <= i < |visits| && levels[i].price == t.price)
            && forall i, j :: 0 <= i < j < |ts| ==> !Better(tk.side.Opposite(), ts[j].price, ts[i].price)
    decreases |visits|
  {
    hide VisitLevel;
    if visits != [] {
      VisitsTail(cfg, tk, levels, visits);
      TradesOrdered(cfg, tk, levels[1..], visits[1..]);
      var here, later := Priced(levels[0].price, visits[0].fills), Trades(levels[1..], visits[1..]);
      assert Trades(levels, visits) == here + later;
      assert forall t <- here :: t.price == levels[0].price;
      forall t | t in later
        ensures Better(tk.side.Opposite(), levels[0].price, t.price)
        ensures exists i :: 0 <= i < |visits| && levels[i].price == t.price
      {
        var i :| 0 <= i < |visits[1..]| && levels[1..][i].price == t.price;
        assert levels[i + 1].price == t.price;
      }
    }
  }

  // ---- Displayed quantities ----

  function DisplayedAt(price: Price): Level -> nat {
    (l: Level) => if l.price == price then Sum(Visible, l.orders) else 0
  }

  /** What the side displays at `price`. */
  function VisibleAt(levels: seq<Level>, price: Price): nat {
    Sum(DisplayedAt(price), levels)
  }

  lemma VisibleAtCons(l: Level, rest: seq<Level>, price: Price)
    ensures VisibleAt([l] + rest, price) == DisplayedAt(price)(l) + VisibleAt(rest, price)
  {
    SumCons(DisplayedAt(price), l, rest);
  }

  lemma {:induction false} PruneVisible(levels: seq<Level>, price: Price)
    ensures VisibleAt(Prune(levels), price) == VisibleAt(levels, price)
  {
    if levels != [] {
      PruneVisible(levels[1..], price);
      VisibleAtCons(levels[0], Prune(levels[1..]), price);
    }
  }

  lemma {:induction false} NotVisible(levels: seq<Level>, price: Price)
    requires forall l <- levels :: l.price != price
    ensures VisibleAt(levels, price) == 0
  {
    if levels != [] {
      assert levels[0] in levels && forall l <- levels[1..] :: l in levels;
      NotVisible(levels[1..], price);
    }
  }

  /** The walk announces only walked levels of the opposite side. */
  lemma {:induction false} EffectsAt(cfg: Config, tk: Taker, levels: seq<Level>, visits: seq<Visit>)
    requires AreVisits(cfg, tk, levels, visits)
    ensures forall e <- WalkEffects(visits) :: e.Cancelled? || (e.LevelChanged? && e.side == tk.side.Opposite() && exists i :: 0 <= i < |visits| && levels[i].price == e.price)
    decreases |visits|
  {
    hide VisitLevel;
    if visits != [] {
      VisitsTail(cfg, tk, levels, visits);
      EffectsAt(cfg, tk, levels[1..], visits[1..]);
      if !tk.postOnly {
        VisitShown(cfg, tk, levels[0], visits[0].cap);
      }
      forall e | e in WalkEffects(visits[1..]) && e.LevelChanged?
        ensures exists i :: 0 <= i < |visits| && levels[i].price == e.price
      {
        var i :| 0 <= i < |visits[1..]| && levels[1..][i].price == e.price;
        assert levels[i + 1].price == e.price;
      }
    }
  }

  /** A consumer that displayed the side before the walk displays it afterwards. */
  lemma {:induction false} VisitsShown(cfg: Config, tk: Taker, levels: seq<Level>, visits: seq<Visit>, price: Price)
    requires AreVisits(cfg, tk, levels, visits)
    requires BestFirst(tk.side.Opposite(), levels)
    ensures Shown(WalkEffects(visits), tk.side.Opposite(), price, VisibleAt(levels, price)) == VisibleAt(After(levels, visits), price)
    decreases |visits|
  {
    hide VisitLevel;
    if visits != [] {
      var side := tk.side.Opposite();
      VisitsTail(cfg, tk, levels, visits);
      VisitsShown(cfg, tk, levels[1..], visits[1..], price);
      var now, later := visits[0].effects, WalkEffects(visits[1..]);
      FoldAppend(ShowStep(side, price), VisibleAt(levels, price), now, later);
      VisibleAtCons(Level(levels[0].price, visits[0].orders), After(levels[1..], visits[1..]), price);
      if !tk.postOnly {
        VisitShown(cfg, tk, levels[0], visits[0].cap);
      }
      if price == levels[0].price {
        NotVisible(levels[1..], price);
        NotVisible(After(levels[1..], visits[1..]), price);
        EffectsAt(cfg, tk, levels[1..], visits[1..]);
        ShownElsewhere(later, side, price, Sum(Visible, visits[0].orders));
      } else {
        ShownElsewhere(now, side, price, VisibleAt(levels, price));
      }
    }
  }
}
