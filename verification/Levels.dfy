/** A price level: a FIFO queue of resting orders and the matching of a taker
    quantity against it. The queue belongs to an external crate; this model gives it
    a body of its own, so that everything proved about the book rests on code. */
module Levels {
  import opened Types
  import opened Seqs
  import opened Orders

  datatype Fill = Fill(maker: Id, owner: User, quantity: nat)

  /** `orders` is the queue afterwards, `filled` the makers that left it. */
  datatype LevelMatch = LevelMatch(orders: seq<Order>, fills: seq<Fill>, filled: seq<Order>, remaining: nat)

  function Quantity(f: Fill): nat {
    f.quantity
  }

  /** A weight on tags as a weight on orders. */
  function OfTag(f: Tag -> nat): Order -> nat {
    (o: Order) => f(o.tag)
  }

  predicate CanRefresh(o: Order) {
    o.hidden > 0 && (o.kind.Iceberg? || (o.kind.Reserve? && o.kind.auto))
  }

  /** Show the next tranche: the display size of an iceberg, the replenish amount of a
      reserve, everything when no positive size is known. */
  function Refreshed(o: Order): Order {
    var size := if o.kind.Reserve? && o.kind.amount.Some? then o.kind.amount.value else o.visible;
    var tranche := if size > 0 then Min(size, o.hidden) else o.hidden;
    o.(visible := tranche, hidden := o.hidden - tranche)
  }

  function Displayed(o: Order): Order {
    if o.visible == 0 && CanRefresh(o) then Refreshed(o) else o
  }

  /** The queue once the head's display `o` is exhausted: a replenished maker is queued
      again, at the front or at the back, any other one leaves. */
  function Exhausted(o: Order, rest: seq<Order>, back: bool): seq<Order> {
    if !CanRefresh(o) then rest else if back then rest + [Refreshed(o)] else [Refreshed(o)] + rest
  }

  function Leaving(o: Order): seq<Order> {
    if CanRefresh(o) then [] else [o]
  }

  /** Match `q` against the queue, front to back. A partly filled maker keeps its
      place, an exhausted display is replenished when the order can, and an order with
      nothing drawable is passed over. */
  function MatchLevel(q: nat, orders: seq<Order>, back: bool): LevelMatch
    decreases q, |orders|
  {
    if q == 0 || orders == [] then LevelMatch(orders, [], [], q)
    else if !Matchable(orders[0]) then
      var m := MatchLevel(q, orders[1..], back);
      m.(orders := [orders[0]] + m.orders)
    else
      var o := Displayed(orders[0]);
      if q < o.visible then
        LevelMatch([o.(visible := o.visible - q)] + orders[1..], [Fill(o.tag.id, o.tag.user, q)], [], 0)
      else
        var m := MatchLevel(q - o.visible, Exhausted(o, orders[1..], back), back);
        LevelMatch(m.orders, [Fill(o.tag.id, o.tag.user, o.visible)] + m.fills, Leaving(o) + m.filled, m.remaining)
  }

  /** The quantity a match of `q` executes. */
  function Executed(q: nat, orders: seq<Order>): nat {
    Min(q, Sum(Drawable, orders))
  }

  lemma DisplayedSame(o: Order)
    requires Matchable(o)
    ensures var d := Displayed(o);
            && d.visible > 0
            && Drawable(d) == Drawable(o)
            && Total(d) == Total(o)
            && d == o.(visible := d.visible, hidden := d.hidden)
  {
  }

  lemma ExhaustedSum(f: Order -> nat, o: Order, rest: seq<Order>, back: bool)
    ensures Sum(f, Exhausted(o, rest, back)) == Sum(f, rest) + if CanRefresh(o) then f(Refreshed(o)) else 0
  {
    SumCons(f, Refreshed(o), rest);
    SumAppend(f, rest, [Refreshed(o)]);
    assert Sum(f, [Refreshed(o)]) == f(Refreshed(o));
  }

  lemma ExhaustedTags(f: Tag -> nat, o: Order, rest: seq<Order>, back: bool)
    ensures Sum(OfTag(f), Exhausted(o, rest, back)) + Sum(OfTag(f), Leaving(o)) == f(o.tag) + Sum(OfTag(f), rest)
  {
    ExhaustedSum(OfTag(f), o, rest, back);
    SumCons(OfTag(f), o, []);
  }

  /** The executed quantity leaves the drawable depth, and a remainder is left only
      when nothing drawable is. */
  lemma {:induction false} MatchDraws(q: nat, orders: seq<Order>, back: bool)
    ensures var m := MatchLevel(q, orders, back);
            && m.remaining <= q
            && Sum(Drawable, m.orders) + q - m.remaining == Sum(Drawable, orders)
            && (m.remaining > 0 ==> Sum(Drawable, m.orders) == 0)
    decreases q, |orders|
  {
    hide Displayed, Exhausted, Leaving;
    if q != 0 && orders != [] {
      if !Matchable(orders[0]) {
        MatchDraws(q, orders[1..], back);
        SumCons(Drawable, orders[0], MatchLevel(q, orders[1..], back).orders);
      } else {
        DisplayedSame(orders[0]);
        var o := Displayed(orders[0]);
        if q < o.visible {
          SumCons(Drawable, o.(visible := o.visible - q), orders[1..]);
        } else {
          ExhaustedSum(Drawable, o, orders[1..], back);
          MatchDraws(q - o.visible, Exhausted(o, orders[1..], back), back);
        }
      }
    }
  }

  /** The fills carry exactly the executed quantity, none is empty. */
  lemma {:induction false} MatchFills(q: nat, orders: seq<Order>, back: bool)
    ensures var m := MatchLevel(q, orders, back);
            && Sum(Quantity, m.fills) + m.remaining == q
            && forall f <- m.fills :: f.quantity > 0
    decreases q, |orders|
  {
    hide Displayed, Exhausted, Leaving;
    if q != 0 && orders != [] {
      if !Matchable(orders[0]) {
        MatchFills(q, orders[1..], back);
      } else {
        DisplayedSame(orders[0]);
        var o := Displayed(orders[0]);
        if q < o.visible {
          SumCons(Quantity, Fill(o.tag.id, o.tag.user, q), []);
        } else {
          var m := MatchLevel(q - o.visible, Exhausted(o, orders[1..], back), back);
          MatchFills(q - o.visible, Exhausted(o, orders[1..], back), back);
          SumCons(Quantity, Fill(o.tag.id, o.tag.user, o.visible), m.fills);
        }
      }
    }
  }

  /** Nothing drawable, or nothing asked: the match is a no-op. */
  lemma {:induction false} MatchNothing(q: nat, orders: seq<Order>, back: bool)
    requires Executed(q, orders) == 0
    ensures MatchLevel(q, orders, back) == LevelMatch(orders, [], [], q)
  {
    if q != 0 && orders != [] {
      MatchNothing(q, orders[1..], back);
      assert orders == [orders[0]] + orders[1..];
    }
  }

  /** A level match executes exactly what is asked or what is drawable. */
  lemma MatchExecutes(q: nat, orders: seq<Order>, back: bool)
    ensures var m := MatchLevel(q, orders, back);
            && m.remaining == q - Executed(q, orders)
            && Sum(Quantity, m.fills) == Executed(q, orders)
            && Sum(Drawable, m.orders) == Sum(Drawable, orders) - Executed(q, orders)
            && (m.fills == [] <==> Executed(q, orders) == 0)
            && (Executed(q, orders) == 0 ==> m.orders == orders && m.filled == [])
  {
    MatchDraws(q, orders, back);
    MatchFills(q, orders, back);
    if Executed(q, orders) == 0 {
      MatchNothing(q, orders, back);
    }
  }

  /** The order may rest on `side` at `price`. */
  predicate Fits(o: Order, side: Side, price: Price) {
    && o.tag.side == side
    && o.tag.price == price
    && !Immediate(o)
    && Proper(o)
  }

  predicate AllFit(orders: seq<Order>, side: Side, price: Price) {
    forall o <- orders :: Fits(o, side, price)
  }

  predicate AllLit(orders: seq<Order>) {
    forall o <- orders :: Lit(o)
  }

  predicate NoneOwned(orders: seq<Order>, user: User) {
    forall o <- orders :: o.tag.user != user
  }

  lemma {:induction false} MatchKeepsFit(q: nat, orders: seq<Order>, back: bool, side: Side, price: Price)
    requires AllFit(orders, side, price)
    ensures var m := MatchLevel(q, orders, back);
            AllFit(m.orders, side, price) && AllFit(m.filled, side, price)
    decreases q, |orders|
  {
    if q != 0 && orders != [] {
      assert Fits(orders[0], side, price) && AllFit(orders[1..], side, price);
      if !Matchable(orders[0]) {
        MatchKeepsFit(q, orders[1..], back, side, price);
      } else {
        DisplayedSame(orders[0]);
        var o := Displayed(orders[0]);
        assert Fits(o, side, price);
        if q >= o.visible {
          assert Fits(Refreshed(o), side, price);
          MatchKeepsFit(q - o.visible, Exhausted(o, orders[1..], back), back, side, price);
        }
      }
    }
  }

  lemma {:induction false} MatchKeepsLit(q: nat, orders: seq<Order>, back: bool)
    requires AllLit(orders)
    ensures AllLit(MatchLevel(q, orders, back).orders)
    decreases q, |orders|
  {
    if q != 0 && orders != [] {
      assert Lit(orders[0]) && AllLit(orders[1..]);
      DisplayedSame(orders[0]);
      var o := Displayed(orders[0]);
      if q < o.visible {
        assert Lit(o.(visible := o.visible - q));
      } else {
        assert CanRefresh(o) ==> Lit(Refreshed(o));
        MatchKeepsLit(q - o.visible, Exhausted(o, orders[1..], back), back);
      }
    }
  }

  /** A match for at least the drawable depth leaves exactly the unmatchable orders, in their
      order. */
  lemma {:induction false} MatchLeavesUnmatchable(q: nat, orders: seq<Order>, back: bool)
    requires q >= Sum(Drawable, orders)
    ensures MatchLevel(q, orders, back).orders == Filter(Not(Matchable), orders)
    decreases q, |orders|
  {
    if q == 0 || orders == [] {
      SumZero(Drawable, orders);
      forall x | x in orders ensures !Matchable(x) {
        var i :| 0 <= i < |orders| && orders[i] == x;
        assert Drawable(orders[i]) == 0;
      }
      FilterAll(Not(Matchable), orders);
    } else if !Matchable(orders[0]) {
      MatchLeavesUnmatchable(q, orders[1..], back);
    } else {
      hide Displayed, Exhausted, Leaving;
      DisplayedSame(orders[0]);
      var o := Displayed(orders[0]);
      ExhaustedSum(Drawable, o, orders[1..], back);
      RefreshedDraws(o, o.tag.id);
      MatchLeavesUnmatchable(q - o.visible, Exhausted(o, orders[1..], back), back);
      ExhaustedUnmatchable(o, orders[1..], back);
    }
  }

  lemma ExhaustedUnmatchable(o: Order, rest: seq<Order>, back: bool)
    ensures Filter(Not(Matchable), Exhausted(o, rest, back)) == Filter(Not(Matchable), rest)
  {
    if CanRefresh(o) {
      assert Matchable(Refreshed(o));
      FilterAppend(Not(Matchable), rest, [Refreshed(o)]);
      FilterAppend(Not(Matchable), [Refreshed(o)], rest);
      assert Filter(Not(Matchable), [Refreshed(o)]) == [];
    }
  }

  /** Matching never adds quantity to a level. */
  lemma {:induction false} MatchShrinks(q: nat, orders: seq<Order>, back: bool)
    ensures var m := MatchLevel(q, orders, back);
            m.remaining <= q && Sum(Total, m.orders) + q - m.remaining <= Sum(Total, orders)
    decreases q, |orders|
  {
    hide Displayed;
    if q != 0 && orders != [] {
      if !Matchable(orders[0]) {
        MatchShrinks(q, orders[1..], back);
        SumCons(Total, orders[0], MatchLevel(q, orders[1..], back).orders);
      } else {
        DisplayedSame(orders[0]);
        var o := Displayed(orders[0]);
        if q < o.visible {
          SumCons(Total, o.(visible := o.visible - q), orders[1..]);
        } else {
          ExhaustedSum(Total, o, orders[1..], back);
          MatchShrinks(q - o.visible, Exhausted(o, orders[1..], back), back);
        }
      }
    }
  }

  /** At most the quantity displayed ahead of `behind` never reaches past it, even when
      makers ahead replenish: no fill touches an order of `user`. */
  lemma {:induction false} MatchAhead(q: nat, ahead: seq<Order>, behind: seq<Order>, back: bool, user: User)
    requires q <= Sum(Visible, ahead)
    requires NoneOwned(ahead, user)
    ensures var m := MatchLevel(q, ahead + behind, back);
            && m.remaining == 0
            && (forall f <- m.fills :: f.owner != user)
            && (forall o <- m.filled :: o.tag.user != user)
    decreases q, |ahead|
  {
    if q != 0 {
      assert ahead != [];
      assert (ahead + behind)[0] == ahead[0] && (ahead + behind)[1..] == ahead[1..] + behind;
      assert ahead[0].tag.user != user && NoneOwned(ahead[1..], user);
      if !Matchable(ahead[0]) {
        MatchAhead(q, ahead[1..], behind, back, user);
      } else {
        DisplayedSame(ahead[0]);
        var o := Displayed(ahead[0]);
        if q >= o.visible {
          MatchAheadExhausted(q, o, ahead[1..], behind, back, user);
        }
      }
    }
  }

  lemma MatchAheadExhausted(q: nat, o: Order, ahead: seq<Order>, behind: seq<Order>, back: bool, user: User)
    requires 0 < o.visible <= q
    requires q <= o.visible + Sum(Visible, ahead)
    requires o.tag.user != user && NoneOwned(ahead, user)
    ensures var m := MatchLevel(q - o.visible, Exhausted(o, ahead + behind, back), back);
            && m.remaining == 0
            && (forall f <- m.fills :: f.owner != user)
            && (forall o <- m.filled :: o.tag.user != user)
    decreases q - o.visible, |ahead| + 2
  {
    if !CanRefresh(o) {
      MatchAhead(q - o.visible, ahead, behind, back, user);
    } else if back {
      assert (ahead + behind) + [Refreshed(o)] == ahead + (behind + [Refreshed(o)]);
      MatchAhead(q - o.visible, ahead, behind + [Refreshed(o)], back, user);
    } else {
      assert [Refreshed(o)] + (ahead + behind) == ([Refreshed(o)] + ahead) + behind;
      SumCons(Visible, Refreshed(o), ahead);
      MatchAhead(q - o.visible, [Refreshed(o)] + ahead, behind, back, user);
    }
  }

  /** A queue without orders of `user` trades none. */
  lemma {:induction false} MatchForeign(q: nat, orders: seq<Order>, back: bool, user: User)
    requires NoneOwned(orders, user)
    ensures var m := MatchLevel(q, orders, back);
            && NoneOwned(m.orders, user)
            && NoneOwned(m.filled, user)
            && (forall f <- m.fills :: f.owner != user)
    decreases q, |orders|
  {
    hide Displayed;
    if q != 0 && orders != [] {
      assert orders[0].tag.user != user && NoneOwned(orders[1..], user);
      if !Matchable(orders[0]) {
        MatchForeign(q, orders[1..], back, user);
      } else {
        DisplayedSame(orders[0]);
        var o := Displayed(orders[0]);
        if q >= o.visible {
          MatchForeign(q - o.visible, Exhausted(o, orders[1..], back), back, user);
        }
      }
    }
  }

  /** Every maker of the queue is afterwards either still queued or filled, once. */
  lemma {:induction false} MatchConservesMakers(f: Tag -> nat, q: nat, orders: seq<Order>, back: bool)
    ensures var m := MatchLevel(q, orders, back);
            Sum(OfTag(f), m.orders) + Sum(OfTag(f), m.filled) == Sum(OfTag(f), orders)
    decreases q, |orders|
  {
    hide Displayed, Exhausted, Leaving;
    if q != 0 && orders != [] {
      if !Matchable(orders[0]) {
        MatchConservesMakers(f, q, orders[1..], back);
        SumCons(OfTag(f), orders[0], MatchLevel(q, orders[1..], back).orders);
      } else {
        DisplayedSame(orders[0]);
        var o := Displayed(orders[0]);
        if q < o.visible {
          SumCons(OfTag(f), o.(visible := o.visible - q), orders[1..]);
        } else {
          ExhaustedTags(f, o, orders[1..], back);
          var m := MatchLevel(q - o.visible, Exhausted(o, orders[1..], back), back);
          MatchConservesMakers(f, q - o.visible, Exhausted(o, orders[1..], back), back);
          SumAppend(OfTag(f), Leaving(o), m.filled);
        }
      }
    }
  }

  // ---- Who is filled, and in which order ----

  function FillsOf(id: Id): Fill -> nat {
    (f: Fill) => if f.maker == id then f.quantity else 0
  }

  function DrawableOf(id: Id): Order -> nat {
    (o: Order) => if o.tag.id == id then Drawable(o) else 0
  }

  lemma RefreshedDraws(o: Order, id: Id)
    ensures DrawableOf(id)(o) == (if o.tag.id == id then o.visible else 0) + if CanRefresh(o) then DrawableOf(id)(Refreshed(o)) else 0
  {
  }

  /** Each maker gives up exactly what its own fills say. */
  lemma {:induction false} MatchAttributes(q: nat, orders: seq<Order>, back: bool, id: Id)
    ensures var m := MatchLevel(q, orders, back);
            Sum(FillsOf(id), m.fills) + Sum(DrawableOf(id), m.orders) == Sum(DrawableOf(id), orders)
    decreases q, |orders|
  {
    hide Displayed, Exhausted, Leaving, Refreshed, CanRefresh, Matchable;
    if q != 0 && orders != [] {
      if !Matchable(orders[0]) {
        MatchAttributes(q, orders[1..], back, id);
        SumCons(DrawableOf(id), orders[0], MatchLevel(q, orders[1..], back).orders);
      } else {
        DisplayedSame(orders[0]);
        var o := Displayed(orders[0]);
        if q < o.visible {
          SumCons(DrawableOf(id), o.(visible := o.visible - q), orders[1..]);
          OneFill(id, o, q);
        } else {
          RefreshedDraws(o, id);
          ExhaustedSum(DrawableOf(id), o, orders[1..], back);
          var m := MatchLevel(q - o.visible, Exhausted(o, orders[1..], back), back);
          MatchAttributes(q - o.visible, Exhausted(o, orders[1..], back), back, id);
          SumCons(FillsOf(id), Fill(o.tag.id, o.tag.user, o.visible), m.fills);
        }
      }
    }
  }

  lemma OneFill(id: Id, o: Order, q: nat)
    ensures Sum(FillsOf(id), [Fill(o.tag.id, o.tag.user, q)]) == if o.tag.id == id then q else 0
  {
  }

  predicate Showing(orders: seq<Order>) {
    forall o <- orders :: o.hidden == 0 && o.visible > 0
  }

  /** Time priority: without hidden parts the i-th fill is the i-th order of the queue, for
      what the orders before it left of the quantity. */
  lemma {:induction false} TimePriority(q: nat, orders: seq<Order>, back: bool, i: nat)
    requires Showing(orders) && i < |orders|
    ensures var m := MatchLevel(q, orders, back);
            && (i < |m.fills| <==> Sum(Visible, orders[..i]) < q)
            && (i < |m.fills| ==>
                  m.fills[i] == Fill(orders[i].tag.id, orders[i].tag.user, Min(orders[i].visible, q - Sum(Visible, orders[..i]))))
    decreases i
  {
    hide MatchLevel;
    var o, rest := orders[0], orders[1..];
    assert o in orders && forall x <- rest :: x in orders;
    PlainHead(q, orders, back);
    if i == 0 {
      assert orders[..0] == [];
    } else {
      assert orders[..i] == [o] + rest[..i - 1];
      SumCons(Visible, o, rest[..i - 1]);
      if o.visible <= q {
        TimePriority(q - o.visible, rest, back, i - 1);
      }
    }
  }

  lemma PlainHead(q: nat, orders: seq<Order>, back: bool)
    requires orders != [] && orders[0].hidden == 0 && 0 < orders[0].visible
    ensures var o := orders[0];
            MatchLevel(q, orders, back) ==
            if q == 0 then LevelMatch(orders, [], [], 0)
            else if q < o.visible then LevelMatch([o.(visible := o.visible - q)] + orders[1..], [Fill(o.tag.id, o.tag.user, q)], [], 0)
            else
              var m := MatchLevel(q - o.visible, orders[1..], back);
              LevelMatch(m.orders, [Fill(o.tag.id, o.tag.user, o.visible)] + m.fills, [o] + m.filled, m.remaining)
  {
  }

  /** The makers that leave are a prefix of the queue, and a partly filled one keeps its place. */
  lemma {:induction false} PlacesKept(q: nat, orders: seq<Order>, back: bool)
    requires Showing(orders)
    ensures var m := MatchLevel(q, orders, back);
            && |m.filled| <= |orders| && m.filled == orders[..|m.filled|]
            && |m.orders| == |orders| - |m.filled|
            && (m.orders != [] ==> m.orders[0].tag == orders[|m.filled|].tag && m.orders[1..] == orders[|m.filled| + 1..])
    decreases |orders|
  {
    hide MatchLevel;
    if orders == [] {
      EmptyQueue(q, back);
    } else {
      var o, rest := orders[0], orders[1..];
      assert o in orders && forall x <- rest :: x in orders;
      PlainHead(q, orders, back);
      if 0 < q && o.visible <= q {
        PlacesKept(q - o.visible, rest, back);
        var m := MatchLevel(q - o.visible, rest, back);
        assert [o] + rest[..|m.filled|] == orders[..|m.filled| + 1];
        assert m.orders != [] ==> rest[|m.filled| + 1..] == orders[|m.filled| + 2..];
      }
    }
  }

  lemma EmptyQueue(q: nat, back: bool)
    ensures MatchLevel(q, [], back) == LevelMatch([], [], [], q)
  {
  }
}
