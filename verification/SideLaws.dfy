/** One side of the book: sorted, non-empty levels whose orders belong there, and what
    placing or replacing a queue does to it. */
module SideLaws {
  import opened Types
  import opened Seqs
  import opened Orders
  import opened Levels
  import opened Matching
  import opened VisitLaws
  import opened SweepLaws
  import opened Engine

  predicate LevelOk(side: Side, l: Level) {
    && l.orders != []
    && AllFit(l.orders, side, l.price)
    && Sum(Total, l.orders) <= U64_MAX
  }

  predicate SideOk(side: Side, levels: seq<Level>) {
    && BestFirst(side, levels)
    && forall l <- levels :: LevelOk(side, l)
  }

  lemma SideTail(side: Side, levels: seq<Level>)
    requires SideOk(side, levels) && levels != []
    ensures SideOk(side, levels[1..]) && LevelOk(side, levels[0])
    ensures forall l <- levels[1..] :: Better(side, levels[0].price, l.price)
  {
  }

  lemma SideCons(side: Side, l: Level, rest: seq<Level>)
    requires SideOk(side, rest) && LevelOk(side, l)
    requires forall m <- rest :: Better(side, l.price, m.price)
    ensures SideOk(side, [l] + rest)
  {
  }

  lemma {:induction false} QueueFacts(side: Side, levels: seq<Level>, price: Price)
    requires SideOk(side, levels)
    ensures VisibleAt(levels, price) == Sum(Visible, QueueAt(levels, price))
    ensures AllFit(QueueAt(levels, price), side, price)
    ensures Sum(Total, QueueAt(levels, price)) <= U64_MAX
    ensures LevelAt(levels, price).Some? <==> QueueAt(levels, price) != []
    ensures LevelAt(levels, price).None? ==> forall l <- levels :: l.price != price
  {
    if levels != [] {
      SideTail(side, levels);
      QueueFacts(side, levels[1..], price);
      if levels[0].price == price {
        NotVisible(levels[1..], price);
      }
      assert levels == [levels[0]] + levels[1..];
    }
  }

  /** The order in a level of the side is in the queue at its price. */
  lemma {:induction false} QueueHolds(side: Side, levels: seq<Level>, l: Level)
    requires SideOk(side, levels) && l in levels
    ensures QueueAt(levels, l.price) == l.orders
  {
    SideTail(side, levels);
    if levels[0] != l {
      assert l in levels[1..];
      QueueHolds(side, levels[1..], l);
    }
  }

  // ---- Placing an order ----

  lemma {:induction false} PlacePrices(p: Price -> bool, side: Side, levels: seq<Level>, o: Order)
    requires p(o.tag.price) && forall l <- levels :: p(l.price)
    ensures forall l <- Place(side, levels, o) :: p(l.price)
    decreases |levels|
  {
    if levels != [] {
      assert levels[0] in levels && forall l <- levels[1..] :: l in levels;
      PlacePrices(p, side, levels[1..], o);
    }
  }

  lemma {:induction false} PlaceOk(side: Side, levels: seq<Level>, o: Order)
    requires SideOk(side, levels) && Fits(o, side, o.tag.price) && Room(levels, o)
    ensures SideOk(side, Place(side, levels, o))
    decreases |levels|
  {
    if levels == [] || Better(side, o.tag.price, levels[0].price) {
      SumCons(Total, o, []);
      assert [o] + [] == [o];
      if levels != [] {
        SideTail(side, levels);
      }
      SideCons(side, Level(o.tag.price, [o]), levels);
    } else {
      SideTail(side, levels);
      if levels[0].price == o.tag.price {
        SumAppend(Total, levels[0].orders, [o]);
        assert Sum(Total, [o]) == Total(o);
        SideCons(side, Level(o.tag.price, levels[0].orders + [o]), levels[1..]);
      } else {
        PlaceOk(side, levels[1..], o);
        PlacePrices((x: Price) => Better(side, levels[0].price, x), side, levels[1..], o);
        SideCons(side, levels[0], Place(side, levels[1..], o));
      }
    }
  }

  lemma {:induction false} PlaceSum(f: Order -> nat, side: Side, levels: seq<Level>, o: Order)
    ensures Sum(Across(f), Place(side, levels, o)) == Sum(Across(f), levels) + f(o)
    decreases |levels|
  {
    assert Sum(f, [o]) == f(o);
    if levels == [] || Better(side, o.tag.price, levels[0].price) {
      SumCons(Across(f), Level(o.tag.price, [o]), levels);
    } else if levels[0].price == o.tag.price {
      SumAppend(f, levels[0].orders, [o]);
      SumCons(Across(f), Level(o.tag.price, levels[0].orders + [o]), levels[1..]);
    } else {
      PlaceSum(f, side, levels[1..], o);
      SumCons(Across(f), levels[0], Place(side, levels[1..], o));
    }
  }

  lemma {:induction false} PlaceVisible(side: Side, levels: seq<Level>, o: Order, price: Price)
    ensures VisibleAt(Place(side, levels, o), price) == VisibleAt(levels, price) + if price == o.tag.price then o.visible else 0
    decreases |levels|
  {
    assert Sum(Visible, [o]) == o.visible;
    if levels == [] || Better(side, o.tag.price, levels[0].price) {
      VisibleAtCons(Level(o.tag.price, [o]), levels, price);
    } else if levels[0].price == o.tag.price {
      SumAppend(Visible, levels[0].orders, [o]);
      VisibleAtCons(Level(o.tag.price, levels[0].orders + [o]), levels[1..], price);
    } else {
      PlaceVisible(side, levels[1..], o, price);
      VisibleAtCons(levels[0], Place(side, levels[1..], o), price);
    }
  }

  // ---- Replacing a queue ----

  lemma {:induction false} PutOk(side: Side, levels: seq<Level>, price: Price, orders: seq<Order>)
    requires SideOk(side, levels)
    requires AllFit(orders, side, price) && Sum(Total, orders) <= U64_MAX
    ensures SideOk(side, PutQueue(levels, price, orders))
    ensures forall l <- PutQueue(levels, price, orders) :: exists m :: m in levels && m.price == l.price
    decreases |levels|
  {
    if levels != [] {
      SideTail(side, levels);
      assert levels == [levels[0]] + levels[1..];
      if levels[0].price == price {
        if orders != [] {
          SideCons(side, Level(price, orders), levels[1..]);
        }
      } else {
        PutOk(side, levels[1..], price, orders);
        SideCons(side, levels[0], PutQueue(levels[1..], price, orders));
      }
    }
  }

  lemma {:induction false} PutSum(f: Order -> nat, levels: seq<Level>, price: Price, orders: seq<Order>)
    requires LevelAt(levels, price).Some?
    ensures Sum(Across(f), PutQueue(levels, price, orders)) + Sum(f, QueueAt(levels, price)) == Sum(Across(f), levels) + Sum(f, orders)
    decreases |levels|
  {
    if levels[0].price == price {
      SumCons(Across(f), Level(price, orders), levels[1..]);
    } else {
      PutSum(f, levels[1..], price, orders);
      SumCons(Across(f), levels[0], PutQueue(levels[1..], price, orders));
    }
  }

  lemma {:induction false} PutVisible(side: Side, levels: seq<Level>, price: Price, orders: seq<Order>, at: Price)
    requires SideOk(side, levels) && LevelAt(levels, price).Some?
    ensures VisibleAt(PutQueue(levels, price, orders), at) == if at == price then Sum(Visible, orders) else VisibleAt(levels, at)
    decreases |levels|
  {
    SideTail(side, levels);
    if levels[0].price == price {
      VisibleAtCons(Level(price, orders), levels[1..], at);
      if at == price {
        NotVisible(levels[1..], at);
      }
    } else {
      PutVisible(side, levels[1..], price, orders, at);
      VisibleAtCons(levels[0], PutQueue(levels[1..], price, orders), at);
      if at == price {
        QueueFacts(side, levels, at);
      }
    }
  }

  // ---- Sweeping ----

  lemma PruneOk(side: Side, levels: seq<Level>)
    requires BestFirst(side, levels)
    requires forall l <- levels :: AllFit(l.orders, side, l.price) && Sum(Total, l.orders) <= U64_MAX
    ensures SideOk(side, Prune(levels))
    ensures forall l <- Prune(levels) :: l in levels
  {
    forall l | l in Prune(levels) ensures l in levels && LevelOk(side, l) {
      FilterMember(Occupied, levels, l);
    }
    PruneSorted(side, levels);
  }

  lemma {:induction false} PruneSorted(side: Side, levels: seq<Level>)
    requires BestFirst(side, levels)
    ensures BestFirst(side, Prune(levels))
  {
    if levels != [] {
      PruneSorted(side, levels[1..]);
      forall l | l in Prune(levels[1..]) ensures Better(side, levels[0].price, l.price) {
        FilterMember(Occupied, levels[1..], l);
      }
    }
  }

  /** After the sweep and the removal of emptied levels the side is in order again. */
  lemma SweptOk(cfg: Config, tk: Taker, levels: seq<Level>, visits: seq<Visit>)
    requires AreVisits(cfg, tk, levels, visits)
    requires SideOk(tk.side.Opposite(), levels)
    ensures SideOk(tk.side.Opposite(), Prune(After(levels, visits)))
    ensures forall l <- Prune(After(levels, visits)) :: exists m :: m in levels && m.price == l.price
  {
    hide VisitLevel;
    var side, after := tk.side.Opposite(), After(levels, visits);
    forall i | 0 <= i < |after| ensures AllFit(after[i].orders, side, after[i].price) && Sum(Total, after[i].orders) <= U64_MAX {
      assert LevelOk(side, levels[i]);
      if i < |visits| && !tk.postOnly {
        VisitFits(cfg, tk, levels[i], visits[i].cap);
      }
    }
    assert BestFirst(side, after);
    PruneOk(side, after);
    forall l | l in Prune(after) ensures exists m :: m in levels && m.price == l.price {
      var i :| 0 <= i < |after| && after[i] == l;
      assert levels[i] in levels;
    }
  }
}
