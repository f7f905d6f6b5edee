/** Time priority inside a level, for any queue: orders with hidden parts, orders that cannot
    be matched, and either way of queueing a replenished maker again. */
module QueueLaws {
  import opened Types
  import opened Seqs
  import opened Orders
  import opened Levels
  import opened Effects
  import opened Engine

  // ---- The three ways a match meets the head of the queue ----

  lemma HeadSkipped(q: nat, orders: seq<Order>, back: bool)
    requires q > 0 && orders != [] && !Matchable(orders[0])
    ensures var m, rest := MatchLevel(q, orders, back), MatchLevel(q, orders[1..], back);
            m.orders == [orders[0]] + rest.orders && m.fills == rest.fills
  {
  }

  lemma HeadPartly(q: nat, orders: seq<Order>, back: bool)
    requires orders != [] && Matchable(orders[0]) && 0 < q < Displayed(orders[0]).visible
    ensures var m, o := MatchLevel(q, orders, back), Displayed(orders[0]);
            && m.orders == [o.(visible := o.visible - q)] + orders[1..]
            && m.fills == [Fill(orders[0].tag.id, orders[0].tag.user, q)]
  {
    DisplayedSame(orders[0]);
  }

  /** The queue once the head has given its display. */
  function Next(orders: seq<Order>, back: bool): seq<Order>
    requires orders != []
  {
    Exhausted(Displayed(orders[0]), orders[1..], back)
  }

  lemma HeadPassed(q: nat, orders: seq<Order>, back: bool)
    requires orders != [] && Matchable(orders[0]) && Displayed(orders[0]).visible <= q
    ensures var m, o := MatchLevel(q, orders, back), Displayed(orders[0]);
            var rest := MatchLevel(q - o.visible, Next(orders, back), back);
            && o.visible > 0
            && m.orders == rest.orders
            && m.fills == [Fill(orders[0].tag.id, orders[0].tag.user, o.visible)] + rest.fills
  {
    DisplayedSame(orders[0]);
  }

  lemma NothingLeft(q: nat, orders: seq<Order>, back: bool)
    requires q == 0 || orders == []
    ensures MatchLevel(q, orders, back) == LevelMatch(orders, [], [], q)
  {
  }

  // ---- Orders without a fill ----

  function Makers(fills: seq<Fill>): set<Id> {
    set f | f in fills :: f.maker
  }

  function Outside(ids: set<Id>): Order -> bool {
    (o: Order) => o.tag.id !in ids
  }

  lemma NextOutside(orders: seq<Order>, back: bool, ids: set<Id>)
    requires orders != [] && orders[0].tag.id in ids
    ensures Filter(Outside(ids), Next(orders, back)) == Filter(Outside(ids), orders)
  {
    var refreshed := Refreshed(Displayed(orders[0]));
    FilterAppend(Outside(ids), orders[1..], [refreshed]);
    FilterAppend(Outside(ids), [refreshed], orders[1..]);
    assert Filter(Outside(ids), [refreshed]) == [];
    assert forall s: seq<Order> :: [] + s == s && s + [] == s;
  }

  /** Orders without a fill keep their content and their relative order. */
  lemma {:induction false} UntouchedKept(q: nat, orders: seq<Order>, back: bool, touched: set<Id>)
    requires Makers(MatchLevel(q, orders, back).fills) <= touched
    ensures Filter(Outside(touched), MatchLevel(q, orders, back).orders) == Filter(Outside(touched), orders)
    decreases q, |orders|
  {
    hide MatchLevel, Displayed, Next, Matchable;
    var m := MatchLevel(q, orders, back);
    if q == 0 || orders == [] {
      NothingLeft(q, orders, back);
    } else if !Matchable(orders[0]) {
      HeadSkipped(q, orders, back);
      UntouchedKept(q, orders[1..], back, touched);
    } else if q < Displayed(orders[0]).visible {
      HeadPartly(q, orders, back);
      assert m.fills[0] in m.fills;
      DisplayedSame(orders[0]);
      assert m.orders[1..] == orders[1..];
    } else {
      HeadPassed(q, orders, back);
      var rest := MatchLevel(q - Displayed(orders[0]).visible, Next(orders, back), back);
      assert m.fills[0] in m.fills && forall f <- rest.fills :: f in m.fills;
      UntouchedKept(q - Displayed(orders[0]).visible, Next(orders, back), back, touched);
      NextOutside(orders, back, touched);
    }
  }

  // ---- Priority ----

  /** Where the order at `i` stands once the head has given its display. */
  function Moved(orders: seq<Order>, back: bool, i: nat): nat
    requires orders != [] && i > 0
  {
    if CanRefresh(Displayed(orders[0])) && !back then i else i - 1
  }

  lemma NextAt(orders: seq<Order>, back: bool, i: nat)
    requires 0 < i < |orders|
    ensures Moved(orders, back, i) < |Next(orders, back)| && Next(orders, back)[Moved(orders, back, i)] == orders[i]
  {
    hide Displayed, CanRefresh;
  }

  lemma {:induction false} NextDistinct(orders: seq<Order>, back: bool)
    requires orders != [] && Matchable(orders[0]) && NoDup(Ids(orders))
    ensures NoDup(Ids(Next(orders, back)))
  {
    hide Displayed, CanRefresh, Matchable;
    DisplayedSame(orders[0]);
    var next := Next(orders, back);
    forall i, j | 0 <= i < j < |next| ensures Ids(next)[i] != Ids(next)[j] {
      assert forall k :: 0 <= k < |orders| ==> Ids(orders)[k] == orders[k].tag.id;
    }
  }

  lemma DistinctAt(orders: seq<Order>, i: nat, j: nat)
    requires NoDup(Ids(orders)) && i < j < |orders|
    ensures orders[i].tag.id != orders[j].tag.id
    ensures NoDup(Ids(orders[1..]))
  {
    assert Ids(orders)[i] != Ids(orders)[j];
    assert Ids(orders[1..]) == Ids(orders)[1..];
  }

  /** What the first `n` fills give to `id`. */
  function Given(id: Id, fills: seq<Fill>, n: nat): nat
    requires n <= |fills|
  {
    Sum(FillsOf(id), fills[..n])
  }

  lemma GivenFirst(id: Id, f: Fill, fills: seq<Fill>, n: nat)
    requires n <= |fills|
    ensures Given(id, [f] + fills, n + 1) == (if f.maker == id then f.quantity else 0) + Given(id, fills, n)
    ensures Given(id, fills, 0) == 0
  {
    assert ([f] + fills)[..n + 1] == [f] + fills[..n];
    SumCons(FillsOf(id), f, fills[..n]);
  }

  /** Time priority: at every moment of the match an order has been touched only if the whole
      display of every matchable order ahead of it has been filled. */
  lemma {:induction false} DisplayFirst(q: nat, orders: seq<Order>, back: bool, i: nat, j: nat, n: nat)
    requires NoDup(Ids(orders)) && i < j < |orders| && Matchable(orders[i])
    requires n <= |MatchLevel(q, orders, back).fills|
    requires Given(orders[j].tag.id, MatchLevel(q, orders, back).fills, n) > 0
    ensures Given(orders[i].tag.id, MatchLevel(q, orders, back).fills, n) >= Displayed(orders[i]).visible
    decreases q, |orders|
  {
    hide MatchLevel, Displayed, Matchable, Given, Next, Moved, NoDup;
    var a, b, fills := orders[i].tag.id, orders[j].tag.id, MatchLevel(q, orders, back).fills;
    DistinctAt(orders, i, j);
    DistinctAt(orders, 0, j);
    GivenFirst(b, Fill(0, 0, 0), fills, 0);
    if q == 0 {
      NothingLeft(q, orders, back);
    } else if !Matchable(orders[0]) {
      HeadSkipped(q, orders, back);
      DisplayFirst(q, orders[1..], back, i - 1, j - 1, n);
    } else if q < Displayed(orders[0]).visible {
      HeadPartly(q, orders, back);
      assert fills == [fills[0]] + [];
      GivenFirst(b, fills[0], [], n - 1);
    } else {
      HeadPassed(q, orders, back);
      var left, next := q - Displayed(orders[0]).visible, Next(orders, back);
      var rest := MatchLevel(left, next, back).fills;
      GivenFirst(a, fills[0], rest, n - 1);
      GivenFirst(b, fills[0], rest, n - 1);
      if i > 0 {
        NextDistinct(orders, back);
        NextAt(orders, back, i);
        NextAt(orders, back, j);
        assert Moved(orders, back, i) < Moved(orders, back, j) by { MovedOrder(orders, back, i, j); }
        DisplayFirst(left, next, back, Moved(orders, back, i), Moved(orders, back, j), n - 1);
      }
    }
  }

  lemma MovedOrder(orders: seq<Order>, back: bool, i: nat, j: nat)
    requires orders != [] && 0 < i < j
    ensures Moved(orders, back, i) < Moved(orders, back, j)
  {
  }

  // ---- The queue afterwards ----

  /** The replenished displays of the orders passed, in queue order. */
  function Requeued(orders: seq<Order>): seq<Order> {
    if orders == [] then []
    else (if Matchable(orders[0]) && CanRefresh(Displayed(orders[0])) then [Refreshed(Displayed(orders[0]))] else []) + Requeued(orders[1..])
  }

  /** What stands behind `orders[i]` when the match stops inside its display. */
  function Behind(orders: seq<Order>, back: bool, i: nat): seq<Order>
    requires i < |orders|
  {
    orders[i + 1..] + if back then Requeued(orders[..i]) else []
  }

  /** The unmatchable orders ahead of `orders[i]`. */
  function Passed(orders: seq<Order>, i: nat): seq<Order>
    requires i < |orders|
  {
    Filter(Not(Matchable), orders[..i])
  }

  lemma PassedCons(o: Order, rest: seq<Order>, i: nat)
    requires 0 < i <= |rest|
    ensures Passed([o] + rest, i) == (if Matchable(o) then [] else [o]) + Passed(rest, i - 1)
  {
    hide Matchable;
    assert ([o] + rest)[..i] == [o] + rest[..i - 1];
    FilterAppend(Not(Matchable), [o], rest[..i - 1]);
  }

  lemma BehindCons(o: Order, rest: seq<Order>, back: bool, i: nat)
    requires 0 < i <= |rest|
    ensures Behind([o] + rest, back, i) == rest[i..] + if back then Requeued([o]) + Requeued(rest[..i - 1]) else []
  {
    hide Matchable, Displayed, CanRefresh, Refreshed;
    assert ([o] + rest)[..i] == [o] + rest[..i - 1] && ([o] + rest)[i + 1..] == rest[i..];
    assert ([o] + rest[..i - 1])[1..] == rest[..i - 1] && [o][1..] == [];
    assert Requeued([]) == [];
  }

  lemma NextPassed(orders: seq<Order>, back: bool, i: nat)
    requires 0 < i < |orders| && Matchable(orders[0]) && Moved(orders, back, i) < |Next(orders, back)|
    ensures Passed(Next(orders, back), Moved(orders, back, i)) == Passed(orders, i)
  {
    hide Displayed, Matchable, Refreshed, CanRefresh;
    var o, rest, next := Displayed(orders[0]), orders[1..], Next(orders, back);
    assert orders == [orders[0]] + rest;
    PassedCons(orders[0], rest, i);
    if CanRefresh(o) && back {
      assert next[..i - 1] == rest[..i - 1];
    } else if CanRefresh(o) {
      RefreshedMatchable(o);
      PassedCons(Refreshed(o), rest, i);
    }
  }

  lemma NextBehind(orders: seq<Order>, back: bool, i: nat)
    requires 0 < i < |orders| && Matchable(orders[0]) && Moved(orders, back, i) < |Next(orders, back)|
    ensures Behind(Next(orders, back), back, Moved(orders, back, i)) == Behind(orders, back, i)
  {
    hide Displayed, Matchable, Refreshed, CanRefresh;
    var o, rest, next := Displayed(orders[0]), orders[1..], Next(orders, back);
    assert orders == [orders[0]] + rest;
    BehindCons(orders[0], rest, back, i);
    assert [orders[0]][1..] == [] && Requeued([]) == [];
    if CanRefresh(o) && back {
      assert Requeued([orders[0]]) == [Refreshed(o)];
      assert next[..i - 1] == rest[..i - 1] && next[i..] == rest[i..] + [Refreshed(o)];
    } else if CanRefresh(o) {
      BehindCons(Refreshed(o), rest, back, i);
    } else {
      assert Requeued([orders[0]]) == [];
    }
  }

  lemma RefreshedMatchable(o: Order)
    requires CanRefresh(o)
    ensures Matchable(Refreshed(o))
  {
  }

  lemma SkippedBehind(orders: seq<Order>, back: bool, i: nat)
    requires 0 < i < |orders| && !Matchable(orders[0])
    ensures Behind(orders[1..], back, i - 1) == Behind(orders, back, i)
    ensures Passed(orders, i) == [orders[0]] + Passed(orders[1..], i - 1)
  {
    assert orders[..i] == [orders[0]] + orders[1..][..i - 1] && orders[i + 1..] == orders[1..][i..];
  }

  /** The queue after a match that stops inside the display of `orders[i]`: the unmatchable
      orders ahead of it, the partly filled order, everything behind it as it was and, when
      replenished makers queue at the back, the ones passed. */
  lemma {:induction false} StopsInside(q: nat, orders: seq<Order>, back: bool, i: nat)
    requires NoDup(Ids(orders)) && i < |orders| && Matchable(orders[i])
    requires var fills := MatchLevel(q, orders, back).fills;
             0 < Given(orders[i].tag.id, fills, |fills|) < Displayed(orders[i]).visible
    ensures var m, d := MatchLevel(q, orders, back), Displayed(orders[i]);
            m.orders == Passed(orders, i)
                        + [d.(visible := d.visible - Given(orders[i].tag.id, m.fills, |m.fills|))]
                        + Behind(orders, back, i)
    decreases q, |orders|
  {
    hide MatchLevel, Displayed, Matchable, Given, Next, Moved, NoDup, Behind, Passed;
    var a, m := orders[i].tag.id, MatchLevel(q, orders, back);
    GivenFirst(a, Fill(0, 0, 0), m.fills, 0);
    if i > 0 {
      DistinctAt(orders, 0, i);
    }
    if q == 0 {
      NothingLeft(q, orders, back);
    } else if !Matchable(orders[0]) {
      HeadSkipped(q, orders, back);
      StopsInside(q, orders[1..], back, i - 1);
      SkippedBehind(orders, back, i);
    } else if q < Displayed(orders[0]).visible {
      HeadPartly(q, orders, back);
      GivenFirst(a, m.fills[0], [], 0);
      assert [m.fills[0]] + [] == m.fills;
      HeadBehind(orders, back);
    } else {
      HeadPassed(q, orders, back);
      var left, next := q - Displayed(orders[0]).visible, Next(orders, back);
      var rest := MatchLevel(left, next, back).fills;
      GivenFirst(a, m.fills[0], rest, |rest|);
      NextDistinct(orders, back);
      NextAt(orders, back, i);
      StopsInside(left, next, back, Moved(orders, back, i));
      NextPassed(orders, back, i);
      NextBehind(orders, back, i);
    }
  }

  lemma HeadBehind(orders: seq<Order>, back: bool)
    requires orders != []
    ensures Passed(orders, 0) == [] && Behind(orders, back, 0) == orders[1..]
  {
    assert orders[..0] == [] && Requeued([]) == [];
  }
}
