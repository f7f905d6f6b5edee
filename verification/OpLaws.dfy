/** The operations of the book as moves: adding, updating and cancelling. */
module OpLaws {
  import opened Types
  import opened Seqs
  import opened Orders
  import opened Levels
  import opened Stp
  import opened Effects
  import opened Matching
  import opened VisitLaws
  import opened SweepLaws
  import opened BudgetLaws
  import opened Engine
  import opened SideLaws
  import opened CoreLaws

  // ---- Match results ----

  /** Trades are kept as long as they fit the quantity slot; the slot and the kept trades
      always account for each other. */
  lemma {:induction false} AddTradesLaws(m: MatchResult, ts: seq<Trade>)
    ensures var x := AddTrades(m, ts);
            && x.remaining + Sum(TradeSize, x.trades) == m.remaining + Sum(TradeSize, m.trades)
            && (Sum(TradeSize, ts) <= m.remaining <==> x.trades == m.trades + ts)
            && |x.trades| <= |m.trades| + |ts|
            && |m.trades| <= |x.trades|
            && x.filled == m.filled
    decreases |ts|
  {
    if ts != [] {
      var next := AddTrade(m, ts[0]);
      AddTradesLaws(next, ts[1..]);
      SumAppend(TradeSize, m.trades, [ts[0]]);
      SumCons(TradeSize, ts[0], []);
      assert m.trades + ts == (m.trades + [ts[0]]) + ts[1..];
      var x := AddTrades(m, ts);
      if next == m {
        assert |x.trades| <= |m.trades| + |ts[1..]|;
      }
    } else {
      assert m.trades + ts == m.trades;
    }
  }

  /** Normalizing a notional result never falls back: every trade and filled id stays and
      nothing remains. */
  lemma NormalizeKeepsAll(m: MatchResult)
    requires Sum(TradeSize, m.trades) <= U64_MAX
    ensures Normalize(m) == MatchResult(0, m.trades, m.filled)
  {
    AddTradesLaws(MatchResult(Sum(TradeSize, m.trades), [], []), m.trades);
    assert [] + m.trades == m.trades;
  }

  /** The result of a match: it names every filled maker; a base-quantity match keeps all
      trades and remains with the unfilled quantity, a notional one keeps all trades exactly
      when the dry run over the book fits a u64. */
  lemma MatchResultLaws(c: Core, tk: Taker, stop: StopCondition)
    requires stop.BaseQty? || stop.remaining <= U128_MAX
    ensures var m := Match(c, tk, stop);
            var w := MatchWalk(c, tk, stop);
            var trades := Trades(SideOf(c, tk.side.Opposite()), w.visits);
            m.reply.Ok? ==>
              var x := m.reply.value.result;
              && x.filled == Ids(AllFilled(w.visits))
              && if stop.BaseQty? then
                   && x.trades == trades
                   && x.remaining == w.stop.remaining
                   && x.remaining + TotalExecuted(w) == stop.remaining
                 else
                   && x.remaining == 0
                   && (x.trades == trades <==> QuoteWalk(c.cfg, tk, SideOf(c, tk.side.Opposite()), stop.remaining) <= U64_MAX)
  {
    hide Sweep;
    var levels, w := SideOf(c, tk.side.Opposite()), MatchWalk(c, tk, stop);
    var trades := Trades(levels, w.visits);
    var raw := AddTrades(MatchResult(Slot(stop), [], []), trades);
    SweepVisits(c.cfg, tk, levels, stop);
    TradesSum(c.cfg, tk, levels, w.visits);
    AddTradesLaws(MatchResult(Slot(stop), [], []), trades);
    assert [] + trades == trades;
    if stop.BaseQty? {
      BaseAccounts(c.cfg, tk, levels, stop.remaining);
    } else {
      QuoteExact(c.cfg, tk, levels, stop.remaining);
      NormalizeKeepsAll(raw.(filled := Ids(AllFilled(w.visits))));
    }
  }

  // ---- Adding ----

  lemma {:induction false} NoNewIds(r: map<Id, Tag>, es: seq<Effect>)
    requires forall e <- es :: !e.Rested?
    ensures Register(r, es).Keys <= r.Keys
    decreases |es|
  {
    if es != [] {
      assert es[0] in es && forall e <- es[1..] :: e in es;
      NoNewIds(RegisterStep(r, es[0]), es[1..]);
    }
  }

  lemma FinishMoves(c: Core, r: map<Id, Tag>, o: Order, x: MatchReply)
    requires Good(c, r) && Proper(o) && CheckedTotal(o).Some?
    requires o.tag.id !in c.locations && x.result.remaining <= TotalQuantity(o)
    ensures var a := Finish(c, o, [], x); Moves(c, r, a.effects, a.core)
  {
    hide Moves, Good;
    var report := Report(o.tag.id, x.result.trades);
    assert [] + report == report;
    MovesNone(c, r);
    MovesReport(c, r, o.tag.id, x.result.trades);
    var a := Finish(c, o, [], x);
    if !x.rejected && !x.stpCancelled && x.result.remaining > 0 && !Immediate(o) {
      var rest := Residual(o, x.result.remaining);
      ResidualConserved(o, x.result.remaining);
      assert Good(c, Register(r, report)) by { UnfoldMoves(c, r, report, c); }
      RestMoves(c, Register(r, report), rest);
      MovesThen(c, r, report, c, Rest(c, rest).effects, Rest(c, rest).core);
    }
  }

  lemma UnfoldMoves(c: Core, r: map<Id, Tag>, es: seq<Effect>, c': Core)
    requires Moves(c, r, es, c')
    ensures Good(c', Register(r, es))
  {
  }

  lemma FinishPrefix(c: Core, o: Order, es: seq<Effect>, x: MatchReply)
    ensures var a, b := Finish(c, o, es, x), Finish(c, o, [], x);
            a.core == b.core && a.effects == es + b.effects && a.reply == b.reply
  {
    hide Rest, Residual;
    var report := Report(o.tag.id, x.result.trades);
    var more := Rest(c, Residual(o, x.result.remaining)).effects;
    assert es + (([] + report) + more) == (es + report) + more;
    assert es + ([] + report) == es + report;
    assert es + [] == es;
  }

  lemma AddMoves(c: Core, r: map<Id, Tag>, o: Order, now: nat)
    requires Good(c, r) && Proper(o)
    ensures var a := Add(c, o, now); Moves(c, r, a.effects, a.core)
  {
    hide Moves, Good, Match, Validate, Headroom;
    if Refusal(c, o, now).Some? {
      MovesNone(c, r);
    } else {
      var tk, stop := TakerOf(o), BaseQty(TotalQuantity(o));
      var m := Match(c, tk, stop);
      MatchMoves(c, r, tk, stop);
      if m.reply.Ok? {
        var x := m.reply.value;
        MatchResultLaws(c, tk, stop);
        MatchFresh(c, r, tk, stop, o.tag.id);
        assert Good(m.core, Register(r, m.effects)) by { UnfoldMoves(c, r, m.effects, m.core); }
        FinishMoves(m.core, Register(r, m.effects), o, x);
        FinishPrefix(m.core, o, m.effects, x);
        MovesThen(c, r, m.effects, m.core, Finish(m.core, o, [], x).effects, Finish(m.core, o, [], x).core);
      }
    }
  }

  /** A match brings no id into the index. */
  lemma MatchFresh(c: Core, r: map<Id, Tag>, tk: Taker, stop: StopCondition, id: Id)
    requires Good(c, r) && id !in c.locations
    ensures id !in Match(c, tk, stop).core.locations
  {
    hide Match;
    var m := Match(c, tk, stop);
    MatchMoves(c, r, tk, stop);
    MatchBalanced(c, tk, stop);
    NoNewIds(r, m.effects);
  }

  lemma TakeMoves(c: Core, r: map<Id, Tag>, tk: Taker, stop: StopCondition)
    requires Good(c, r)
    ensures var a := Take(c, tk, stop); Moves(c, r, a.effects, a.core)
  {
    hide Moves, Good, Match;
    var m := Match(c, tk, stop);
    MatchMoves(c, r, tk, stop);
    if m.reply.Ok? {
      var report := Report(tk.id, m.reply.value.result.trades);
      assert Good(m.core, Register(r, m.effects)) by { UnfoldMoves(c, r, m.effects, m.core); }
      MovesReport(m.core, Register(r, m.effects), tk.id, m.reply.value.result.trades);
      MovesThen(c, r, m.effects, m.core, report, m.core);
    }
  }

  // ---- Cancelling and updating ----

  lemma CancelMoves(c: Core, r: map<Id, Tag>, id: Id)
    requires Good(c, r)
    ensures var x := Cancel(c, id); Moves(c, r, x.effects, x.core)
    ensures Cancel(c, id).reply.Some? <==> id in r
    ensures id in r ==> Cancel(c, id).reply.value.tag == r[id]
  {
    RemoveMoves(c, r, id, ByCancel);
  }

  lemma ModifyMoves(c: Core, r: map<Id, Tag>, o: Order, now: nat)
    requires Good(c, r) && Proper(o)
    ensures var x := Modify(c, o, now); Moves(c, r, x.effects, x.core)
  {
    hide Moves, Good, Cancel, Add, Validate;
    MovesNone(c, r);
    var cut := Cancel(c, o.tag.id);
    CancelMoves(c, r, o.tag.id);
    assert Good(cut.core, Register(r, cut.effects)) by { UnfoldMoves(c, r, cut.effects, cut.core); }
    var add := Add(cut.core, o, now);
    AddMoves(cut.core, Register(r, cut.effects), o, now);
    MovesThen(c, r, cut.effects, cut.core, add.effects, add.core);
  }

  lemma {:induction false} SubstituteSum(f: Order -> nat, queue: seq<Order>, prior: Order, o: Order)
    requires prior.tag == o.tag
    requires forall x <- Filter(HasId(o.tag.id), queue) :: f(x) == f(prior)
    ensures Sum(f, Substitute(queue, o)) + Sum(f, Filter(HasId(o.tag.id), queue)) == Sum(f, queue) + f(o) * |Filter(HasId(o.tag.id), queue)|
    ensures |Substitute(queue, o)| == |queue|
  {
    if queue != [] {
      var rest := Filter(HasId(o.tag.id), queue[1..]);
      SubstituteSum(f, queue[1..], prior, o);
      SumCons(f, queue[0], rest);
      SumCons(f, if queue[0].tag.id == o.tag.id then o else queue[0], Substitute(queue[1..], o));
      assert f(o) * (|rest| + 1) == f(o) * |rest| + f(o);
    }
  }

  lemma {:induction false} SubstituteMembers(queue: seq<Order>, o: Order)
    ensures forall x <- Substitute(queue, o) :: x == o || x in queue
  {
    if queue != [] {
      SubstituteMembers(queue[1..], o);
    }
  }

  /** Resizing keeps every tag of the queue and changes its total by the change of the order. */
  lemma ResizedSum(f: Order -> nat, queue: seq<Order>, prior: Order, o: Order, grows: bool)
    requires prior.tag == o.tag && Filter(HasId(o.tag.id), queue) == [prior]
    ensures Sum(f, Resized(queue, o, grows)) + f(prior) == Sum(f, queue) + f(o)
  {
    SumCons(f, prior, []);
    if grows {
      FilterSum(f, HasId(o.tag.id), queue);
      SumAppend(f, Filter(Not(HasId(o.tag.id)), queue), [o]);
      SumCons(f, o, []);
    } else {
      SubstituteSum(f, queue, prior, o);
    }
  }

  lemma ResizedFits(queue: seq<Order>, o: Order, grows: bool, side: Side, price: Price)
    requires AllFit(queue, side, price) && Fits(o, side, price)
    ensures AllFit(Resized(queue, o, grows), side, price)
  {
    SubstituteMembers(queue, o);
    FilterFits(Not(HasId(o.tag.id)), queue, side, price);
  }

  /** The update that loses an order from its queue but not from the indexes. */
  predicate Orphans(c: Core, o: Order) {
    && c.cfg.dropZero
    && Total(o) == 0
    && Filter(Not(HasId(o.tag.id)), QueueAt(SideOf(c, o.tag.side), o.tag.price)) != []
  }

  lemma ResizeMoves(c: Core, r: map<Id, Tag>, prior: Order, o: Order, now: nat)
    requires Good(c, r) && GetOrder(c, o.tag.id) == Some(prior) && prior.tag == o.tag
    requires Fits(o, o.tag.side, o.tag.price)
    requires !Orphans(c, o)
    ensures var x := Resize(c, prior, o, now); Moves(c, r, x.effects, x.core)
  {
    hide Moves, Validate;
    MovesNone(c, r);
    var t, side, price := o.tag, o.tag.side, o.tag.price;
    Found(c, r, t.id);
    var levels := SideOf(c, side);
    var queue := QueueAt(levels, price);
    QueueFacts(side, levels, price);
    if c.cfg.dropZero && Total(o) == 0 {
      var left := Filter(Not(HasId(t.id)), queue);
      forall x ensures Sum(OfTag(Is(x)), left) + Sum(Left(Is(x)), [Withdrawn(t)]) == Sum(OfTag(Is(x)), queue) {
        FilterSum(OfTag(Is(x)), HasId(t.id), queue);
        SumCons(OfTag(Is(x)), prior, []);
        SumCons(Left(Is(x)), Withdrawn(t), []);
      }
      PutMoves(c, r, side, price, left, [Withdrawn(t)]);
    } else {
      var resized := Resized(queue, o, Total(o) > Total(prior));
      ResizedSum(Total, queue, prior, o, Total(o) > Total(prior));
      ResizedFits(queue, o, Total(o) > Total(prior), side, price);
      forall x ensures Sum(OfTag(Is(x)), resized) + Sum(Left(Is(x)), []) == Sum(OfTag(Is(x)), queue) {
        ResizedSum(OfTag(Is(x)), queue, prior, o, Total(o) > Total(prior));
      }
      if Sum(Total, resized) <= U64_MAX {
        PutMoves(c, r, side, price, resized, []);
        assert [LevelChanged(side, price, Sum(Visible, resized))] + [] == [LevelChanged(side, price, Sum(Visible, resized))];
      }
    }
  }

  ghost predicate Exact(c: Core) {
    exists r :: Good(c, r)
  }

  /** A quantity update keeps the indexes exact if and only if it does not orphan its
      order: an order dropped at zero leaves the indexes only when it was alone. */
  lemma ResizeExactly(c: Core, r: map<Id, Tag>, prior: Order, o: Order, now: nat)
    requires Good(c, r) && GetOrder(c, o.tag.id) == Some(prior) && prior.tag == o.tag
    requires Fits(o, o.tag.side, o.tag.price)
    requires Resize(c, prior, o, now).reply.Ok?
    ensures Exact(Resize(c, prior, o, now).core) <==> !Orphans(c, o)
  {
    var x := Resize(c, prior, o, now);
    if !Orphans(c, o) {
      ResizeMoves(c, r, prior, o, now);
    } else {
      forall s ensures !Good(x.core, s) {
        OrphanLost(c, r, s, prior, o, now);
      }
    }
  }

  lemma OrphanLost(c: Core, r: map<Id, Tag>, s: map<Id, Tag>, prior: Order, o: Order, now: nat)
    requires Good(c, r) && GetOrder(c, o.tag.id) == Some(prior) && prior.tag == o.tag
    requires Resize(c, prior, o, now).reply.Ok? && Orphans(c, o)
    ensures !Good(Resize(c, prior, o, now).core, s)
  {
    hide Good, Validate;
    var x, id, side, price := Resize(c, prior, o, now), o.tag.id, o.tag.side, o.tag.price;
    var levels := SideOf(c, side);
    var left := Filter(Not(HasId(id)), QueueAt(levels, price));
    UnfoldGood(c, r);
    Found(c, r, id);
    FoldCons(LocateStep, c.locations, LevelChanged(side, price, Sum(Visible, left)), []);
    assert [LevelChanged(side, price, Sum(Visible, left))] + [] == [LevelChanged(side, price, Sum(Visible, left))];
    assert x.core.locations == c.locations;
    PutQueueAt(levels, price, left);
    assert Filter(HasId(id), left) == [] by {
      FilterNone(HasId(id), QueueAt(levels, price));
    }
    FindFilter(left, id);
    assert GetOrder(x.core, id).None?;
    if Good(x.core, s) {
      UnfoldGood(x.core, s);
      Found(x.core, s, id);
    }
  }

  lemma {:induction false} FilterNone(p: Order -> bool, orders: seq<Order>)
    ensures Filter(p, Filter(Not(p), orders)) == []
  {
    if orders != [] {
      FilterNone(p, orders[1..]);
      FilterAppend(p, [orders[0]], Filter(Not(p), orders[1..]));
    }
  }

  lemma {:induction false} PutQueueAt(levels: seq<Level>, price: Price, orders: seq<Order>)
    requires LevelAt(levels, price).Some? && orders != []
    ensures QueueAt(PutQueue(levels, price, orders), price) == orders
    decreases |levels|
  {
    if levels[0].price != price {
      PutQueueAt(levels[1..], price, orders);
    }
  }

  /** Parameters that fit the machine types. */
  predicate Sized(u: Update) {
    match u
    case UpdatePrice(_, p) => p <= U128_MAX
    case UpdateQuantity(_, q) => q <= U64_MAX
    case UpdatePriceAndQuantity(_, p, q) => p <= U128_MAX && q <= U64_MAX
    case Replace(_, p, q, _) => p <= U128_MAX && q <= U64_MAX
    case Withdraw(_) => true
  }

  predicate UpdateOrphans(c: Core, u: Update) {
    u.UpdateQuantity? && GetOrder(c, u.id).Some? && Orphans(c, Revised(GetOrder(c, u.id).value, u))
  }

  lemma FoundFits(c: Core, r: map<Id, Tag>, id: Id)
    requires Good(c, r) && GetOrder(c, id).Some?
    ensures var o := GetOrder(c, id).value;
            id in r && o.tag == r[id] && o.tag.id == id && Fits(o, o.tag.side, o.tag.price)
  {
    Found(c, r, id);
    var o := GetOrder(c, id).value;
    var levels := SideOf(c, o.tag.side);
    QueueFacts(o.tag.side, levels, o.tag.price);
    FilterMember(HasId(id), QueueAt(levels, o.tag.price), o);
  }

  lemma UpdateMoves(c: Core, r: map<Id, Tag>, u: Update, now: nat)
    requires Good(c, r) && Sized(u) && !UpdateOrphans(c, u)
    ensures var x := UpdateOrder(c, u, now); Moves(c, r, x.effects, x.core)
  {
    hide Moves, Modify, Resize;
    MovesNone(c, r);
    if u.Withdraw? {
      RemoveMoves(c, r, u.id, ByUpdate);
    } else if GetOrder(c, u.id).Some? {
      FoundFits(c, r, u.id);
      var prior := GetOrder(c, u.id).value;
      var o := Revised(prior, u);
      if u.UpdateQuantity? {
        assert Fits(o, o.tag.side, o.tag.price);
        ResizeMoves(c, r, prior, o, now);
      } else {
        assert Proper(o);
        ModifyMoves(c, r, o, now);
      }
    }
  }

  // ---- Mass cancel ----

  lemma {:induction false} CancelEachMoves(c: Core, r: map<Id, Tag>, ids: seq<Id>)
    requires Good(c, r)
    ensures var b := CancelEach(c, ids); Moves(c, r, b.effects, b.core)
    decreases |ids|
  {
    hide Moves, Good, Cancel;
    if ids == [] {
      MovesNone(c, r);
    } else {
      var first := Cancel(c, ids[0]);
      CancelMoves(c, r, ids[0]);
      assert Good(first.core, Register(r, first.effects)) by { UnfoldMoves(c, r, first.effects, first.core); }
      CancelEachMoves(first.core, Register(r, first.effects), ids[1..]);
      var rest := CancelEach(first.core, ids[1..]);
      MovesThen(c, r, first.effects, first.core, rest.effects, rest.core);
    }
  }

  lemma {:induction false} AscendingSum(f: Order -> nat, side: Side, levels: seq<Level>)
    ensures Sum(f, Ascending(side, levels)) == Sum(Across(f), levels)
  {
    if levels != [] {
      AscendingSum(f, side, levels[1..]);
      SumAppend(f, Ascending(side, levels[1..]), levels[0].orders);
      SumAppend(f, levels[0].orders, Ascending(side, levels[1..]));
    }
  }

  lemma {:induction false} CancelledLeft(f: Tag -> nat, orders: seq<Order>)
    ensures Sum(Left(f), CancelledEffects(orders)) == Sum(OfTag(f), orders)
  {
    if orders != [] {
      CancelledLeft(f, orders[1..]);
      assert CancelledEffects(orders) == [Cancelled(orders[0].tag)] + CancelledEffects(orders[1..]);
    }
  }

  lemma {:induction false} ZeroedShape(side: Side, levels: seq<Level>)
    ensures forall e <- Zeroed(side, levels) :: e.LevelChanged? && e.side == side
  {
    if levels != [] {
      ZeroedShape(side, levels[1..]);
    }
  }

  lemma {:induction false} ZeroedLeft(f: Tag -> nat, es: seq<Effect>)
    requires forall e <- es :: e.LevelChanged?
    ensures Sum(Left(f), es) == 0
  {
    if es != [] {
      assert es[0] in es && forall e <- es[1..] :: e in es;
      ZeroedLeft(f, es[1..]);
    }
  }

  /** A zero event for every level leaves nothing displayed. */
  lemma {:induction false} ZeroedShown(side: Side, levels: seq<Level>, price: Price, held: nat)
    requires (forall l <- levels :: l.price != price) ==> held == 0
    ensures Shown(Zeroed(side, levels), side, price, held) == 0
    decreases |levels|
  {
    if levels != [] {
      var e := LevelChanged(side, levels[0].price, 0);
      var rest := Zeroed(side, levels[1..]);
      FoldCons(ShowStep(side, price), held, e, rest);
      FoldAppend(ShowStep(side, price), held, rest, [e]);
      FoldCons(ShowStep(side, price), Shown(rest, side, price, held), e, []);
      assert [e] + [] == [e];
      if levels[0].price == price {
        ZeroedShown(side, levels[1..], price, 0);
      } else {
        ZeroedShown(side, levels[1..], price, held);
      }
    }
  }

  lemma ZeroedBook(c: Core, s: Side, p: Price)
    requires CoreOk(c)
    ensures Shown(CancelAll(c).effects, s, p, VisibleAt(SideOf(c, s), p)) == VisibleAt(SideOf(CancelAll(c).core, s), p)
  {
    var orders := AllAscending(c);
    if orders != [] {
      var bids, asks, rest := Zeroed(Buy, c.bids), Zeroed(Sell, c.asks), CancelledEffects(orders);
      var held := VisibleAt(SideOf(c, s), p);
      FoldAppend(ShowStep(s, p), held, bids + asks, rest);
      FoldAppend(ShowStep(s, p), held, bids, asks);
      ZeroedShape(Buy, c.bids);
      ZeroedShape(Sell, c.asks);
      ShownElsewhere(rest, s, p, Shown(bids + asks, s, p, held));
      if (forall l <- SideOf(c, s) :: l.price != p) {
        NotVisible(SideOf(c, s), p);
      }
      ZeroedShown(s, SideOf(c, s), p, held);
      if s == Buy {
        ShownElsewhere(asks, s, p, 0);
      } else {
        ShownElsewhere(bids, s, p, held);
      }
    }
  }

  lemma CancelAllMoves(c: Core, r: map<Id, Tag>)
    requires Good(c, r)
    ensures var b := CancelAll(c); Moves(c, r, b.effects, b.core)
    ensures CancelAll(c).core.bids == [] && CancelAll(c).core.asks == []
    ensures Register(r, CancelAll(c).effects) == map[]
  {
    var b, orders := CancelAll(c), AllAscending(c);
    if orders == [] {
      MovesNone(c, r);
      EmptyBook(c, r);
    } else {
      forall t ensures Sum(Left(Is(t)), b.effects) == BookSum(Is(t), c) && Sum(Came(Is(t)), b.effects) == 0 {
        CancelAllLeft(c, t);
      }
      forall s, p ensures VisibleAt(SideOf(b.core, s), p) == Shown(b.effects, s, p, VisibleAt(SideOf(c, s), p)) {
        ZeroedBook(c, s, p);
      }
      ZeroedShape(Buy, c.bids);
      ZeroedShape(Sell, c.asks);
      RemovalLegal(r, b.effects);
      LocatesKept(c.locations, r, b.effects);
      var r' := Register(r, b.effects);
      forall id ensures id !in r' {
        if id in r' {
          RegisterCounts(r, b.effects, r'[id]);
        }
      }
      assert r' == map[];
      assert Locate(c.locations, b.effects) == map[];
      MovesIntro(c, r, b.effects, b.core);
    }
  }

  lemma CancelAllLeft(c: Core, t: Tag)
    requires AllAscending(c) != []
    ensures Sum(Left(Is(t)), CancelAll(c).effects) == BookSum(Is(t), c)
    ensures Sum(Came(Is(t)), CancelAll(c).effects) == 0
  {
    var orders := AllAscending(c);
    var bids, asks, rest := Zeroed(Buy, c.bids), Zeroed(Sell, c.asks), CancelledEffects(orders);
    ZeroedShape(Buy, c.bids);
    ZeroedShape(Sell, c.asks);
    ZeroedLeft(Is(t), bids + asks);
    SumAppend(Left(Is(t)), bids + asks, rest);
    CancelledLeft(Is(t), orders);
    SumAppend(OfTag(Is(t)), Ascending(Buy, c.bids), Ascending(Sell, c.asks));
    AscendingSum(OfTag(Is(t)), Buy, c.bids);
    AscendingSum(OfTag(Is(t)), Sell, c.asks);
    NothingCame(Is(t), CancelAll(c).effects);
  }

  lemma {:induction false} AscendingEmpty(side: Side, levels: seq<Level>)
    requires SideOk(side, levels)
    ensures Ascending(side, levels) == [] <==> levels == []
  {
    if levels != [] {
      SideTail(side, levels);
    }
  }

  lemma EmptyBook(c: Core, r: map<Id, Tag>)
    requires Good(c, r) && AllAscending(c) == []
    ensures c.bids == [] && c.asks == [] && r == map[]
  {
    AscendingEmpty(Buy, c.bids);
    AscendingEmpty(Sell, c.asks);
    forall t ensures Registered(r, t) == 0 {
      assert BookSum(Is(t), c) == Registered(r, t);
    }
    assert forall id <- r :: Registered(r, r[id]) == 1;
  }
}
