/** Every operation keeps the queues in order, the indexes exact and the announced
    quantities true. The argument is one relation, `Moves`, between a state, the effects of
    an operation and the state after it; operations compose because it is transitive. */
module CoreLaws {
  import opened Types
  import opened Seqs
  import opened Orders
  import opened Levels
  import opened Stp
  import opened Effects
  import opened Matching
  import opened VisitLaws
  import opened SweepLaws
  import opened Engine
  import opened SideLaws

  predicate CoreOk(c: Core) {
    SideOk(Buy, c.bids) && SideOk(Sell, c.asks)
  }

  /** The weight of all resting orders. */
  function BookSum(f: Tag -> nat, c: Core): nat {
    Sum(Across(OfTag(f)), c.bids) + Sum(Across(OfTag(f)), c.asks)
  }

  /** A registered order rests exactly once; nothing else rests. */
  ghost predicate Agrees(c: Core, r: map<Id, Tag>) {
    Keyed(r) && forall t :: BookSum(Is(t), c) == Registered(r, t)
  }

  ghost predicate Good(c: Core, r: map<Id, Tag>) {
    CoreOk(c) && Agrees(c, r) && Locates(c.locations, r)
  }

  /** Orders appear and disappear only with the effects that say so. */
  ghost predicate Balanced(c: Core, es: seq<Effect>, c': Core) {
    forall t :: BookSum(Is(t), c') + Sum(Left(Is(t)), es) == BookSum(Is(t), c) + Sum(Came(Is(t)), es)
  }

  /** A consumer of the level events that was right before is right after. */
  ghost predicate Displays(c: Core, es: seq<Effect>, c': Core) {
    forall s, p :: VisibleAt(SideOf(c', s), p) == Shown(es, s, p, VisibleAt(SideOf(c, s), p))
  }

  predicate SameSetup(c: Core, c': Core) {
    c'.cfg == c.cfg && c'.killed == c.killed && c'.close == c.close
  }

  ghost predicate Moves(c: Core, r: map<Id, Tag>, es: seq<Effect>, c': Core) {
    && SameSetup(c, c')
    && Legal(r, es)
    && Good(c', Register(r, es))
    && Displays(c, es, c')
  }

  lemma MovesIntro(c: Core, r: map<Id, Tag>, es: seq<Effect>, c': Core)
    requires Good(c, r) && CoreOk(c') && SameSetup(c, c')
    requires Legal(r, es) && Balanced(c, es, c') && Displays(c, es, c')
    requires c'.locations == Locate(c.locations, es)
    ensures Moves(c, r, es, c')
  {
    LocatesKept(c.locations, r, es);
    forall t ensures BookSum(Is(t), c') == Registered(Register(r, es), t) {
      RegisterCounts(r, es, t);
    }
  }

  lemma MovesNone(c: Core, r: map<Id, Tag>)
    requires Good(c, r)
    ensures Moves(c, r, [], c)
  {
  }

  lemma MovesThen(c: Core, r: map<Id, Tag>, es: seq<Effect>, c1: Core, es': seq<Effect>, c2: Core)
    requires Moves(c, r, es, c1) && Moves(c1, Register(r, es), es', c2)
    ensures Moves(c, r, es + es', c2)
  {
    FoldAppend(RegisterStep, r, es, es');
    LegalAppend(r, es, es');
    forall s, p ensures VisibleAt(SideOf(c2, s), p) == Shown(es + es', s, p, VisibleAt(SideOf(c, s), p)) {
      FoldAppend(ShowStep(s, p), VisibleAt(SideOf(c, s), p), es, es');
    }
  }

  lemma MovesReport(c: Core, r: map<Id, Tag>, id: Id, trades: seq<Trade>)
    requires Good(c, r)
    ensures Moves(c, r, Report(id, trades), c)
  {
    if trades != [] {
      forall s, p ensures Shown([Effect.Traded(id, trades)], s, p, VisibleAt(SideOf(c, s), p)) == VisibleAt(SideOf(c, s), p) {
        ShownElsewhere([Effect.Traded(id, trades)], s, p, VisibleAt(SideOf(c, s), p));
      }
      FoldCons(RegisterStep, r, Effect.Traded(id, trades), []);
      assert [Effect.Traded(id, trades)] + [] == [Effect.Traded(id, trades)];
    }
  }

  // ---- Sweeps ----

  lemma {:induction false} FilledLeft(f: Tag -> nat, orders: seq<Order>)
    ensures Sum(Left(f), FilledEffects(orders)) == Sum(OfTag(f), orders)
    ensures Sum(Came(f), FilledEffects(orders)) == 0
  {
    if orders != [] {
      FilledLeft(f, orders[1..]);
      assert FilledEffects(orders) == [Filled(orders[0].tag)] + FilledEffects(orders[1..]);
    }
  }

  lemma {:induction false} NothingCame(f: Tag -> nat, es: seq<Effect>)
    requires forall e <- es :: !e.Rested?
    ensures Sum(Came(f), es) == 0
  {
    if es != [] {
      assert es[0] in es && forall e <- es[1..] :: e in es;
      NothingCame(f, es[1..]);
    }
  }

  lemma MatchBalancedAt(c: Core, tk: Taker, stop: StopCondition, f: Tag -> nat)
    ensures var m := Match(c, tk, stop);
            && BookSum(f, m.core) + Sum(Left(f), m.effects) == BookSum(f, c)
            && Sum(Came(f), m.effects) == 0
            && (forall e <- m.effects :: !e.Rested?)
  {
    hide Sweep, VisitLevel;
    var levels, w := SideOf(c, tk.side.Opposite()), MatchWalk(c, tk, stop);
    SweepVisits(c.cfg, tk, levels, stop);
    EffectsAt(c.cfg, tk, levels, w.visits);
    VisitsConserve(c.cfg, tk, levels, w.visits, f);
    PruneSum(OfTag(f), After(levels, w.visits));
    FilledLeft(f, AllFilled(w.visits));
    SumAppend(Left(f), WalkEffects(w.visits), FilledEffects(AllFilled(w.visits)));
    NothingCame(f, MatchEffects(w));
  }

  lemma MatchBalanced(c: Core, tk: Taker, stop: StopCondition)
    ensures var m := Match(c, tk, stop);
            && Balanced(c, m.effects, m.core)
            && (forall e <- m.effects :: !e.Rested?)
            && (forall t :: Sum(Left(Is(t)), m.effects) <= BookSum(Is(t), c))
  {
    hide Match;
    var m := Match(c, tk, stop);
    forall t
      ensures BookSum(Is(t), m.core) + Sum(Left(Is(t)), m.effects) == BookSum(Is(t), c) + Sum(Came(Is(t)), m.effects)
      ensures Sum(Left(Is(t)), m.effects) <= BookSum(Is(t), c)
    {
      MatchBalancedAt(c, tk, stop, Is(t));
    }
    MatchBalancedAt(c, tk, stop, Is(Tag(0, 0, Buy, 0)));
  }

  lemma MatchDisplays(c: Core, tk: Taker, stop: StopCondition)
    requires CoreOk(c)
    ensures var m := Match(c, tk, stop); Displays(c, m.effects, m.core)
  {
    hide Sweep, VisitLevel;
    var side := tk.side.Opposite();
    var levels, w := SideOf(c, side), MatchWalk(c, tk, stop);
    var m := Match(c, tk, stop);
    SweepVisits(c.cfg, tk, levels, stop);
    EffectsAt(c.cfg, tk, levels, w.visits);
    forall s, p ensures VisibleAt(SideOf(m.core, s), p) == Shown(m.effects, s, p, VisibleAt(SideOf(c, s), p)) {
      FoldAppend(ShowStep(s, p), VisibleAt(SideOf(c, s), p), WalkEffects(w.visits), FilledEffects(AllFilled(w.visits)));
      ShownElsewhere(FilledEffects(AllFilled(w.visits)), s, p, Shown(WalkEffects(w.visits), s, p, VisibleAt(SideOf(c, s), p)));
      if s == side {
        VisitsShown(c.cfg, tk, levels, w.visits, p);
        PruneVisible(After(levels, w.visits), p);
      } else {
        ShownElsewhere(WalkEffects(w.visits), s, p, VisibleAt(SideOf(c, s), p));
      }
    }
  }

  lemma MatchMoves(c: Core, r: map<Id, Tag>, tk: Taker, stop: StopCondition)
    requires Good(c, r)
    ensures var m := Match(c, tk, stop); Moves(c, r, m.effects, m.core)
  {
    hide Sweep, Displays, Balanced;
    var m := Match(c, tk, stop);
    MatchBalanced(c, tk, stop);
    MatchDisplays(c, tk, stop);
    RemovalLegal(r, m.effects);
    SweepVisits(c.cfg, tk, SideOf(c, tk.side.Opposite()), stop);
    SweptOk(c.cfg, tk, SideOf(c, tk.side.Opposite()), MatchWalk(c, tk, stop).visits);
    MovesIntro(c, r, m.effects, m.core);
  }

  // ---- Resting ----

  lemma PairMoves(r: map<Id, Tag>, e: Effect, f: Effect)
    ensures Register(r, [e, f]) == RegisterStep(RegisterStep(r, e), f)
    ensures Legal(r, [e, f]) <==> LegalStep(r, e) && LegalStep(RegisterStep(r, e), f)
  {
    FoldPair(RegisterStep, r, e, f);
    assert [e, f][1..] == [f] && [f][1..] == [];
    assert Legal(RegisterStep(RegisterStep(r, e), f), []);
  }

  lemma PairShown(e: Effect, f: Effect, side: Side, price: Price, held: nat)
    requires e.LevelChanged? && !f.LevelChanged?
    ensures Shown([e, f], side, price, held) == if e.side == side && e.price == price then e.quantity else held
  {
    FoldPair(ShowStep(side, price), held, e, f);
  }

  lemma RestMoves(c: Core, r: map<Id, Tag>, o: Order)
    requires Good(c, r)
    requires Fits(o, o.tag.side, o.tag.price) && o.tag.id !in c.locations
    ensures var a := Rest(c, o); Moves(c, r, a.effects, a.core)
  {
    hide Displays, Balanced;
    var side, levels := o.tag.side, SideOf(c, o.tag.side);
    var a := Rest(c, o);
    if Room(levels, o) {
      PlaceOk(side, levels, o);
      PairMoves(r, a.effects[0], a.effects[1]);
      assert Balanced(c, a.effects, a.core) by {
        forall t ensures BookSum(Is(t), a.core) + Sum(Left(Is(t)), a.effects) == BookSum(Is(t), c) + Sum(Came(Is(t)), a.effects) {
          PlaceSum(OfTag(Is(t)), side, levels, o);
          SumPair(Left(Is(t)), a.effects[0], a.effects[1]);
          SumPair(Came(Is(t)), a.effects[0], a.effects[1]);
        }
        BalancedIntro(c, a.effects, a.core);
      }
      forall s, p ensures VisibleAt(SideOf(a.core, s), p) == Shown(a.effects, s, p, VisibleAt(SideOf(c, s), p)) {
        PairShown(a.effects[0], a.effects[1], s, p, VisibleAt(SideOf(c, s), p));
        PlaceVisible(side, levels, o, p);
        QueueFacts(side, levels, o.tag.price);
        SumAppend(Visible, QueueAt(levels, o.tag.price), [o]);
        assert Sum(Visible, [o]) == o.visible;
      }
      DisplaysIntro(c, a.effects, a.core);
      MovesIntro(c, r, a.effects, a.core);
    } else {
      MovesNone(c, r);
    }
  }

  lemma BalancedIntro(c: Core, es: seq<Effect>, c': Core)
    requires forall t :: BookSum(Is(t), c') + Sum(Left(Is(t)), es) == BookSum(Is(t), c) + Sum(Came(Is(t)), es)
    ensures Balanced(c, es, c')
  {
  }

  lemma DisplaysIntro(c: Core, es: seq<Effect>, c': Core)
    requires forall s, p :: VisibleAt(SideOf(c', s), p) == Shown(es, s, p, VisibleAt(SideOf(c, s), p))
    ensures Displays(c, es, c')
  {
  }

  // ---- Finding a resting order ----

  lemma {:induction false} FindFilter(orders: seq<Order>, id: Id)
    ensures var hits := Filter(HasId(id), orders);
            FindOrder(orders, id) == if hits == [] then None else Some(hits[0])
  {
    if orders != [] {
      FindFilter(orders[1..], id);
    }
  }

  lemma {:induction false} CountTagged(t: Tag, orders: seq<Order>)
    requires forall o <- orders :: o.tag == t
    ensures Sum(OfTag(Is(t)), orders) == |orders|
  {
    if orders != [] {
      assert orders[0] in orders && forall o <- orders[1..] :: o in orders;
      CountTagged(t, orders[1..]);
    }
  }

  lemma OrderWeight(t: Tag, side: Side, levels: seq<Level>, price: Price, o: Order)
    requires SideOk(side, levels) && o in QueueAt(levels, price) && o.tag == t
    ensures Sum(OfTag(Is(t)), QueueAt(levels, price)) <= Sum(Across(OfTag(Is(t))), levels)
    ensures Sum(OfTag(Is(t)), QueueAt(levels, price)) >= 1
  {
    QueueFacts(side, levels, price);
    LevelAtMember(levels, price);
    var l := LevelAt(levels, price).value;
    var i :| 0 <= i < |levels| && levels[i] == l;
    SumElement(Across(OfTag(Is(t))), levels, i);
    var j :| 0 <= j < |l.orders| && l.orders[j] == o;
    SumElement(OfTag(Is(t)), l.orders, j);
  }

  lemma {:induction false} LevelAtMember(levels: seq<Level>, price: Price)
    requires LevelAt(levels, price).Some?
    ensures LevelAt(levels, price).value in levels
    ensures LevelAt(levels, price).value.price == price
  {
    if levels[0].price != price {
      LevelAtMember(levels[1..], price);
    }
  }

  /** Weight on a side means an order in the queue at the tag's price. */
  lemma TaggedQueue(t: Tag, side: Side, levels: seq<Level>) returns (o: Order)
    requires SideOk(side, levels) && Sum(Across(OfTag(Is(t))), levels) > 0
    ensures t.side == side && o.tag == t && o in QueueAt(levels, t.price)
  {
    SumZero(Across(OfTag(Is(t))), levels);
    var i :| 0 <= i < |levels| && Across(OfTag(Is(t)))(levels[i]) != 0;
    SumZero(OfTag(Is(t)), levels[i].orders);
    var j :| 0 <= j < |levels[i].orders| && OfTag(Is(t))(levels[i].orders[j]) != 0;
    o := levels[i].orders[j];
    assert LevelOk(side, levels[i]) && Fits(o, side, levels[i].price);
    QueueHolds(side, levels, levels[i]);
  }

  /** The location index finds every registered order, in one queue and once. */
  lemma Found(c: Core, r: map<Id, Tag>, id: Id)
    requires Good(c, r) && id in r
    ensures var t := r[id];
            var queue := QueueAt(SideOf(c, t.side), t.price);
            && GetOrder(c, id).Some?
            && GetOrder(c, id).value.tag == t
            && LevelAt(SideOf(c, t.side), t.price).Some?
            && Filter(HasId(id), queue) == [GetOrder(c, id).value]
  {
    var t := r[id];
    assert BookSum(Is(t), c) == Registered(r, t) == 1;
    var o := TaggedQueue(t, if Sum(Across(OfTag(Is(t))), c.bids) > 0 then Buy else Sell, if Sum(Across(OfTag(Is(t))), c.bids) > 0 then c.bids else c.asks);
    var levels := SideOf(c, t.side);
    var queue := QueueAt(levels, t.price);
    var hits := Filter(HasId(id), queue);
    QueueFacts(t.side, levels, t.price);
    forall x | x in hits ensures x.tag == t {
      FilterMember(HasId(id), queue, x);
      OrderWeight(x.tag, t.side, levels, t.price, x);
      assert BookSum(Is(x.tag), c) == Registered(r, x.tag);
    }
    FilterMember(HasId(id), queue, o);
    CountTagged(t, hits);
    FilterSum(OfTag(Is(t)), HasId(id), queue);
    OrderWeight(t, t.side, levels, t.price, o);
    FindFilter(queue, id);
  }

  // ---- Replacing one queue ----

  lemma PutDisplays(c: Core, side: Side, price: Price, queue: seq<Order>, more: seq<Effect>)
    requires CoreOk(c) && LevelAt(SideOf(c, side), price).Some?
    requires forall e <- more :: !e.LevelChanged?
    ensures var es := [LevelChanged(side, price, Sum(Visible, queue))] + more;
            Displays(c, es, Settle(c, side, PutQueue(SideOf(c, side), price, queue), es))
  {
    var first := LevelChanged(side, price, Sum(Visible, queue));
    var levels, es := SideOf(c, side), [first] + more;
    var c' := Settle(c, side, PutQueue(levels, price, queue), es);
    forall s, p ensures VisibleAt(SideOf(c', s), p) == Shown(es, s, p, VisibleAt(SideOf(c, s), p)) {
      FoldCons(ShowStep(s, p), VisibleAt(SideOf(c, s), p), first, more);
      ShownElsewhere(more, s, p, ShowStep(s, p)(VisibleAt(SideOf(c, s), p), first));
      PutVisible(side, levels, price, queue, p);
    }
  }

  /** Replacing the queue of a level is a move when the effects account for the orders
      that left it. */
  lemma PutMoves(c: Core, r: map<Id, Tag>, side: Side, price: Price, queue: seq<Order>, more: seq<Effect>)
    requires Good(c, r) && LevelAt(SideOf(c, side), price).Some?
    requires AllFit(queue, side, price) && Sum(Total, queue) <= U64_MAX
    requires forall e <- more :: !e.LevelChanged? && !e.Rested?
    requires forall t :: Sum(OfTag(Is(t)), queue) + Sum(Left(Is(t)), more) == Sum(OfTag(Is(t)), QueueAt(SideOf(c, side), price))
    ensures var es := [LevelChanged(side, price, Sum(Visible, queue))] + more;
            Moves(c, r, es, Settle(c, side, PutQueue(SideOf(c, side), price, queue), es))
  {
    hide Displays;
    var first := LevelChanged(side, price, Sum(Visible, queue));
    var levels, es := SideOf(c, side), [first] + more;
    var c' := Settle(c, side, PutQueue(levels, price, queue), es);
    PutDisplays(c, side, price, queue, more);
    PutOk(side, levels, price, queue);
    forall t
      ensures BookSum(Is(t), c') + Sum(Left(Is(t)), es) == BookSum(Is(t), c) + Sum(Came(Is(t)), es)
      ensures Sum(Left(Is(t)), es) <= Registered(r, t)
    {
      PutSum(OfTag(Is(t)), levels, price, queue);
      SumCons(Left(Is(t)), first, more);
      NothingCame(Is(t), es);
      assert BookSum(Is(t), c) == Registered(r, t);
    }
    RemovalLegal(r, es);
    MovesIntro(c, r, es, c');
  }

  lemma RemoveMoves(c: Core, r: map<Id, Tag>, id: Id, mark: Tag -> Effect)
    requires Good(c, r)
    requires forall t :: mark(t) == Cancelled(t) || mark(t) == Withdrawn(t)
    ensures var x := Remove(c, id, mark); Moves(c, r, x.effects, x.core)
    ensures Remove(c, id, mark).reply.Some? <==> id in r
    ensures id in r ==> Remove(c, id, mark).reply.value.tag == r[id]
  {
    hide Moves, Good;
    assert Locates(c.locations, r) by { UnfoldGood(c, r); }
    if id in r {
      Found(c, r, id);
      RemoveFound(c, r, id, mark);
    } else {
      assert Moves(c, r, [], c) by { MovesNone(c, r); }
    }
  }

  lemma UnfoldGood(c: Core, r: map<Id, Tag>)
    requires Good(c, r)
    ensures CoreOk(c) && Agrees(c, r) && Locates(c.locations, r)
  {
  }

  lemma RemoveFound(c: Core, r: map<Id, Tag>, id: Id, mark: Tag -> Effect)
    requires Good(c, r) && id in r
    requires forall t :: mark(t) == Cancelled(t) || mark(t) == Withdrawn(t)
    ensures var x := Remove(c, id, mark); Moves(c, r, x.effects, x.core)
  {
    hide Moves;
    Found(c, r, id);
    var t := r[id];
    var levels := SideOf(c, t.side);
    var queue := QueueAt(levels, t.price);
    var kept := Filter(Not(HasId(id)), queue);
    QueueFacts(t.side, levels, t.price);
    FilterFits(Not(HasId(id)), queue, t.side, t.price);
    forall x ensures Sum(OfTag(Is(x)), kept) + Sum(Left(Is(x)), [mark(t)]) == Sum(OfTag(Is(x)), queue) {
      FilterSum(OfTag(Is(x)), HasId(id), queue);
      SumCons(OfTag(Is(x)), GetOrder(c, id).value, []);
      SumCons(Left(Is(x)), mark(t), []);
    }
    PutMoves(c, r, t.side, t.price, kept, [mark(t)]);
    assert [LevelChanged(t.side, t.price, Sum(Visible, kept)), mark(t)] == [LevelChanged(t.side, t.price, Sum(Visible, kept))] + [mark(t)];
  }
}
