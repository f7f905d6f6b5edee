/** What one visit of the sweep does to a price level. */
module VisitLaws {
  import opened Types
  import opened Seqs
  import opened Orders
  import opened Levels
  import opened Stp
  import opened Effects
  import opened Matching

  /** Depth the taker can reach at a level. */
  function Reach(cfg: Config, user: User, orders: seq<Order>): nat {
    match Decide(orders, user, cfg.stp)
    case NoConflict => Sum(Drawable, orders)
    case StopTaker(safe) => safe
    case RemoveMakers => Sum(Drawable, Filter(Not(Mine(user)), orders))
    case StopBoth(safe, _) => safe
  }

  lemma MatchVisitLaws(q: nat, orders: seq<Order>, back: bool, side: Side, price: Price, halts: bool)
    ensures var v := MatchVisit(q, orders, back, side, price, halts);
            && v.executed == Min(q, Sum(Drawable, orders))
            && Sum(Quantity, v.fills) == v.executed
            && (v.fills == [] <==> v.executed == 0)
            && (v.executed == 0 ==> v.orders == orders && v.filled == [])
  {
    MatchExecutes(q, orders, back);
  }

  lemma {:induction false} PrefixDrawable(orders: seq<Order>, k: nat)
    requires k <= |orders|
    ensures Sum(Visible, orders[..k]) <= Sum(Drawable, orders)
  {
    SumBelow(Visible, Drawable, orders[..k]);
    SumAppend(Drawable, orders[..k], orders[k..]);
    assert orders == orders[..k] + orders[k..];
  }

  /** A visit executes the cap or all the depth the taker can reach. */
  lemma VisitExecutes(cfg: Config, tk: Taker, level: Level, cap: nat)
    ensures var v := VisitLevel(cfg, tk, level, cap);
            && v.executed == Min(cap, Reach(cfg, tk.user, level.orders))
            && Sum(Quantity, v.fills) == v.executed
            && (v.fills == [] <==> v.executed == 0)
            && (v.halts <==> Decide(level.orders, tk.user, cfg.stp).StopTaker? || Decide(level.orders, tk.user, cfg.stp).StopBoth?)
  {
    var side, price, back := tk.side.Opposite(), level.price, cfg.requeueBack;
    match Decide(level.orders, tk.user, cfg.stp)
    case NoConflict =>
      MatchVisitLaws(cap, level.orders, back, side, price, false);
    case StopTaker(safe) =>
      MatchVisitLaws(Min(cap, safe), level.orders, back, side, price, true);
      PrefixDrawable(level.orders, FirstOwned(level.orders, tk.user));
    case RemoveMakers =>
      MatchVisitLaws(cap, Filter(Not(Mine(tk.user)), level.orders), back, side, price, false);
    case StopBoth(safe, maker) =>
      MatchVisitLaws(Min(cap, safe), level.orders, back, side, price, true);
      PrefixDrawable(level.orders, FirstOwned(level.orders, tk.user));
  }

  /** No visit trades with the taker's own orders. */
  lemma VisitForeign(cfg: Config, tk: Taker, level: Level, cap: nat)
    requires Active(cfg.stp, tk.user)
    ensures var v := VisitLevel(cfg, tk, level, cap);
            && (forall f <- v.fills :: f.owner != tk.user)
            && NoneOwned(v.filled, tk.user)
  {
    var orders, back := level.orders, cfg.requeueBack;
    var k := FirstOwned(orders, tk.user);
    match Decide(orders, tk.user, cfg.stp)
    case NoConflict =>
      MatchForeign(cap, orders, back, tk.user);
    case RemoveMakers =>
      var others := Filter(Not(Mine(tk.user)), orders);
      forall o | o in others ensures o.tag.user != tk.user {
        FilterMember(Not(Mine(tk.user)), orders, o);
      }
      MatchForeign(cap, others, back, tk.user);
    case StopTaker(safe) =>
      assert orders == orders[..k] + orders[k..];
      MatchAhead(Min(cap, safe), orders[..k], orders[k..], back, tk.user);
    case StopBoth(safe, maker) =>
      assert orders == orders[..k] + orders[k..];
      MatchAhead(Min(cap, safe), orders[..k], orders[k..], back, tk.user);
  }

  /** Every maker of the level is afterwards queued, filled or cancelled, once. */
  lemma VisitConserves(cfg: Config, tk: Taker, level: Level, cap: nat, f: Tag -> nat)
    ensures var v := VisitLevel(cfg, tk, level, cap);
            Sum(OfTag(f), v.orders) + Sum(OfTag(f), v.filled) + Sum(OfTag(f), v.cancelled) == Sum(OfTag(f), level.orders)
  {
    var orders, back := level.orders, cfg.requeueBack;
    match Decide(orders, tk.user, cfg.stp)
    case NoConflict =>
      MatchConservesMakers(f, cap, orders, back);
    case StopTaker(safe) =>
      MatchConservesMakers(f, Min(cap, safe), orders, back);
    case RemoveMakers =>
      MatchConservesMakers(f, cap, Filter(Not(Mine(tk.user)), orders), back);
      FilterSum(OfTag(f), Mine(tk.user), orders);
    case StopBoth(safe, maker) =>
      var m := MatchLevel(Min(cap, safe), orders, back);
      MatchConservesMakers(f, Min(cap, safe), orders, back);
      FilterSum(OfTag(f), HasId(maker), m.orders);
  }

  // ---- Effects of a visit ----

  /** The effects announce one level and cancel orders, nothing else. */
  predicate OnlyAt(es: seq<Effect>, side: Side, price: Price) {
    forall e <- es :: e.Cancelled? || (e.LevelChanged? && e.side == side && e.price == price)
  }

  lemma {:induction false} ShownElsewhere(es: seq<Effect>, side: Side, price: Price, held: nat)
    requires forall e <- es :: e.LevelChanged? ==> e.side != side || e.price != price
    ensures Shown(es, side, price, held) == held
    decreases |es|
  {
    if es != [] {
      assert es[0] in es && forall e <- es[1..] :: e in es;
      ShownElsewhere(es[1..], side, price, held);
    }
  }

  lemma {:induction false} RemovalLaws(kept: seq<Order>, todo: seq<Order>, p: Order -> bool, side: Side, price: Price)
    ensures var es := Removal(kept, todo, p, side, price);
            && OnlyAt(es, side, price)
            && Shown(es, side, price, Sum(Visible, kept + todo)) == Sum(Visible, kept + Filter(Not(p), todo))
    decreases |todo|
  {
    hide Shown, OnlyAt;
    if todo == [] {
      NothingShown(side, price, Sum(Visible, kept + todo));
    } else if p(todo[0]) {
      RemovalLaws(kept, todo[1..], p, side, price);
      ShownPair(side, price, Sum(Visible, kept + todo[1..]), todo[0].tag, Sum(Visible, kept + todo), Removal(kept, todo[1..], p, side, price));
    } else {
      RemovalLaws(kept + [todo[0]], todo[1..], p, side, price);
      assert (kept + [todo[0]]) + todo[1..] == kept + todo;
      assert (kept + [todo[0]]) + Filter(Not(p), todo[1..]) == kept + Filter(Not(p), todo);
    }
  }

  lemma NothingShown(side: Side, price: Price, held: nat)
    ensures Shown([], side, price, held) == held && OnlyAt([], side, price)
  {
  }

  /** A level event and a cancellation ahead of further effects. */
  lemma ShownPair(side: Side, price: Price, q: nat, t: Tag, held: nat, more: seq<Effect>)
    ensures var es := [LevelChanged(side, price, q), Cancelled(t)] + more;
            && Shown(es, side, price, held) == Shown(more, side, price, q)
            && (OnlyAt(more, side, price) ==> OnlyAt(es, side, price))
  {
    var first := [LevelChanged(side, price, q), Cancelled(t)];
    FoldPair(ShowStep(side, price), held, LevelChanged(side, price, q), Cancelled(t));
    FoldAppend(ShowStep(side, price), held, first, more);
  }

  lemma {:induction false} RemovalLeft(kept: seq<Order>, todo: seq<Order>, p: Order -> bool, side: Side, price: Price, f: Tag -> nat)
    ensures Sum(Left(f), Removal(kept, todo, p, side, price)) == Sum(OfTag(f), Filter(p, todo))
    decreases |todo|
  {
    if todo == [] {
    } else if p(todo[0]) {
      RemovalLeft(kept, todo[1..], p, side, price, f);
      var first, rest := [LevelChanged(side, price, Sum(Visible, kept + todo[1..])), Cancelled(todo[0].tag)], Removal(kept, todo[1..], p, side, price);
      assert first + rest == [first[0]] + ([first[1]] + rest);
      SumCons(Left(f), first[0], [first[1]] + rest);
      SumCons(Left(f), first[1], rest);
      SumCons(OfTag(f), todo[0], Filter(p, todo[1..]));
    } else {
      RemovalLeft(kept + [todo[0]], todo[1..], p, side, price, f);
    }
  }

  /** The announced quantity is what the level displays after a match. */
  lemma AnnounceLaws(q: nat, orders: seq<Order>, back: bool, side: Side, price: Price)
    ensures var m := MatchLevel(q, orders, back);
            && Shown(Announce(side, price, m), side, price, Sum(Visible, orders)) == Sum(Visible, m.orders)
            && OnlyAt(Announce(side, price, m), side, price)
  {
    MatchExecutes(q, orders, back);
    var m := MatchLevel(q, orders, back);
    var e := LevelChanged(side, price, Sum(Visible, m.orders));
    FoldCons(ShowStep(side, price), Sum(Visible, orders), e, []);
    assert [e] + [] == [e];
  }

  /** A consumer that displayed the level before the visit displays it afterwards. */
  lemma VisitShown(cfg: Config, tk: Taker, level: Level, cap: nat)
    ensures var v := VisitLevel(cfg, tk, level, cap);
            && OnlyAt(v.effects, tk.side.Opposite(), level.price)
            && Shown(v.effects, tk.side.Opposite(), level.price, Sum(Visible, level.orders)) == Sum(Visible, v.orders)
  {
    var side, price, orders, back := tk.side.Opposite(), level.price, level.orders, cfg.requeueBack;
    match Decide(orders, tk.user, cfg.stp)
    case NoConflict =>
      AnnounceLaws(cap, orders, back, side, price);
    case StopTaker(safe) =>
      AnnounceLaws(Min(cap, safe), orders, back, side, price);
    case RemoveMakers =>
      var others := Filter(Not(Mine(tk.user)), orders);
      var removal := Removal([], orders, Mine(tk.user), side, price);
      AnnounceLaws(cap, others, back, side, price);
      RemovalLaws([], orders, Mine(tk.user), side, price);
      assert [] + orders == orders && [] + others == others;
      FoldAppend(ShowStep(side, price), Sum(Visible, orders), removal, Announce(side, price, MatchLevel(cap, others, back)));
    case StopBoth(safe, maker) =>
      var m := MatchLevel(Min(cap, safe), orders, back);
      AnnounceLaws(Min(cap, safe), orders, back, side, price);
      RemovalLaws([], m.orders, HasId(maker), side, price);
      assert [] + m.orders == m.orders && [] + Filter(Not(HasId(maker)), m.orders) == Filter(Not(HasId(maker)), m.orders);
      FoldAppend(ShowStep(side, price), Sum(Visible, orders), Announce(side, price, m), Removal([], m.orders, HasId(maker), side, price));
  }

  /** The effects of a visit cancel exactly the cancelled makers. */
  lemma VisitLeft(cfg: Config, tk: Taker, level: Level, cap: nat, f: Tag -> nat)
    ensures var v := VisitLevel(cfg, tk, level, cap);
            Sum(Left(f), v.effects) == Sum(OfTag(f), v.cancelled)
  {
    var side, price, orders, back := tk.side.Opposite(), level.price, level.orders, cfg.requeueBack;
    match Decide(orders, tk.user, cfg.stp)
    case NoConflict =>
    case StopTaker(safe) =>
    case RemoveMakers =>
      var m := MatchLevel(cap, Filter(Not(Mine(tk.user)), orders), back);
      RemovalLeft([], orders, Mine(tk.user), side, price, f);
      SumAppend(Left(f), Removal([], orders, Mine(tk.user), side, price), Announce(side, price, m));
    case StopBoth(safe, maker) =>
      var m := MatchLevel(Min(cap, safe), orders, back);
      RemovalLeft([], m.orders, HasId(maker), side, price, f);
      SumAppend(Left(f), Announce(side, price, m), Removal([], m.orders, HasId(maker), side, price));
  }

  /** Orders left at the level still fit it, and its total has not grown. */
  lemma VisitFits(cfg: Config, tk: Taker, level: Level, cap: nat)
    requires AllFit(level.orders, tk.side.Opposite(), level.price)
    ensures var v := VisitLevel(cfg, tk, level, cap);
            && AllFit(v.orders, tk.side.Opposite(), level.price)
            && Sum(Total, v.orders) <= Sum(Total, level.orders)
  {
    var side, price, orders, back := tk.side.Opposite(), level.price, level.orders, cfg.requeueBack;
    match Decide(orders, tk.user, cfg.stp)
    case NoConflict =>
      MatchKeepsFit(cap, orders, back, side, price);
      MatchShrinks(cap, orders, back);
    case StopTaker(safe) =>
      MatchKeepsFit(Min(cap, safe), orders, back, side, price);
      MatchShrinks(Min(cap, safe), orders, back);
    case RemoveMakers =>
      FilterFits(Not(Mine(tk.user)), orders, side, price);
      MatchKeepsFit(cap, Filter(Not(Mine(tk.user)), orders), back, side, price);
      MatchShrinks(cap, Filter(Not(Mine(tk.user)), orders), back);
    case StopBoth(safe, maker) =>
      MatchKeepsFit(Min(cap, safe), orders, back, side, price);
      MatchShrinks(Min(cap, safe), orders, back);
      FilterFits(Not(HasId(maker)), MatchLevel(Min(cap, safe), orders, back).orders, side, price);
  }

  lemma FilterFits(p: Order -> bool, orders: seq<Order>, side: Side, price: Price)
    requires AllFit(orders, side, price)
    ensures AllFit(Filter(p, orders), side, price)
    ensures Sum(Total, Filter(p, orders)) <= Sum(Total, orders)
  {
    forall o | o in Filter(p, orders) ensures Fits(o, side, price) {
      FilterMember(p, orders, o);
    }
    FilterSum(Total, p, orders);
  }
}
